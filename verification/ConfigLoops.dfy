/**
  The codec as written: a message or a dict filled step by step while ranging over map keys in no
  particular order. Each method is shown to compute the function of the whole input.
*/
module ConfigLoops {
  import opened Json
  import opened ConfigCodec

  // ------------------------------------------------------- configurable to message

  /** The case a configurable key falls into. */
  datatype Case = Resuming | Task | Thread | CkptMap | CkptId | CkptNs | Durable | Modes | Project | Example | Default

  function CaseOf(key: string): Case {
    if key == "__pregel_resuming" then Resuming
    else if key == "__pregel_task_id" then Task
    else if key == "thread_id" then Thread
    else if key == "checkpoint_map" then CkptMap
    else if key == "checkpoint_id" then CkptId
    else if key == "checkpoint_ns" then CkptNs
    else if key == "__pregel_durability" then Durable
    else if key == "__pregel_root_stream_modes" then Modes
    else if key == "__langsmith_project__" then Project
    else if key == "__langsmith_example_id__" then Example
    else Default
  }

  /** The key of a case; the default case has none of its own. */
  function NameOf(c: Case): string {
    match c
    case Resuming => "__pregel_resuming"
    case Task => "__pregel_task_id"
    case Thread => "thread_id"
    case CkptMap => "checkpoint_map"
    case CkptId => "checkpoint_id"
    case CkptNs => "checkpoint_ns"
    case Durable => "__pregel_durability"
    case Modes => "__pregel_root_stream_modes"
    case Project => "__langsmith_project__"
    case Example => "__langsmith_example_id__"
    case Default => ""
  }

  /** Every case but the default is exactly one key. */
  ghost predicate Naming(caseOf: string -> Case, nameOf: Case -> string) {
    forall k: string, c: Case | c != Default :: caseOf(k) == c <==> nameOf(c) == k
  }

  lemma FirstNames()
    ensures CaseOf("__pregel_resuming") == Resuming && CaseOf("__pregel_task_id") == Task && CaseOf("thread_id") == Thread
    ensures CaseOf("checkpoint_map") == CkptMap && CaseOf("checkpoint_id") == CkptId
  {
  }

  lemma LastNames()
    ensures CaseOf("checkpoint_ns") == CkptNs && CaseOf("__pregel_durability") == Durable
    ensures CaseOf("__pregel_root_stream_modes") == Modes
    ensures CaseOf("__langsmith_project__") == Project && CaseOf("__langsmith_example_id__") == Example
  {
  }

  lemma NameOfCase(k: string)
    ensures CaseOf(k) != Default ==> NameOf(CaseOf(k)) == k
  {
  }

  lemma CaseOfName(c: Case)
    requires c != Default
    ensures CaseOf(NameOf(c)) == c
  {
    FirstNames();
    LastNames();
  }

  lemma CasesAreNamed()
    ensures Naming(CaseOf, NameOf)
  {
    forall k: string, c: Case | c != Default ensures CaseOf(k) == c <==> NameOf(c) == k {
      NameOfCase(k);
      CaseOfName(c);
    }
  }

  lemma DefaultIsUnspecial(k: string)
    ensures CaseOf(k) == Default <==> k !in SPECIAL
  {
  }

  /** What has been seen of a key after some keys: its value, or nothing. */
  function SeenField(c: Object, todo: set<string>, key: string): Json {
    if key in todo then JNull else Field(c, key)
  }

  lemma SeenMore(c: Object, todo: set<string>, key: string, name: string)
    requires key in todo && todo <= c.Keys
    ensures SeenField(c, todo - {key}, name) == if name == key then c[key] else SeenField(c, todo, name)
    ensures SeenField(c, todo, key) == JNull
  {
  }

  /** Handling one more key changes what is seen of its own case only. */
  lemma SeenAfter(c: Object, todo: set<string>, key: string, caseOf: string -> Case, nameOf: Case -> string)
    requires key in todo && todo <= c.Keys && Naming(caseOf, nameOf)
    ensures forall f: Case | f != Default ::
              SeenField(c, todo - {key}, nameOf(f)) == if f == caseOf(key) then c[key] else SeenField(c, todo, nameOf(f))
    ensures caseOf(key) != Default ==> SeenField(c, todo, nameOf(caseOf(key))) == JNull
  {
    forall f: Case | f != Default
      ensures SeenField(c, todo - {key}, nameOf(f)) == if f == caseOf(key) then c[key] else SeenField(c, todo, nameOf(f))
    {
      SeenMore(c, todo, key, nameOf(f));
    }
  }

  /** The entries without a field among the keys seen. */
  function OtherSeen(c: Object, todo: set<string>, caseOf: string -> Case, restricted: set<string>): map<string, Raw> {
    map k | k in c && k !in todo && c[k] != JNull && caseOf(k) == Default && k !in restricted :: Doc(c[k])
  }

  lemma OtherMore(c: Object, todo: set<string>, caseOf: string -> Case, restricted: set<string>, key: string)
    requires key in todo && todo <= c.Keys
    ensures OtherSeen(c, todo - {key}, caseOf, restricted) ==
            if c[key] != JNull && caseOf(key) == Default && key !in restricted then OtherSeen(c, todo, caseOf, restricted)[key := Doc(c[key])]
            else OtherSeen(c, todo, caseOf, restricted)
  {
  }

  /** The fields of the message that the configurable loop sets. */
  datatype Slots = Slots(
    resuming: Option<bool>, taskId: Option<string>, threadId: Option<string>, ckptMap: map<string, Json>,
    ckptId: Option<string>, ckptNs: Option<string>, durability: Option<int>, modes: seq<int>,
    project: Option<string>, exampleId: Option<string>, extra: map<string, Raw>)

  /** How a value is read into a field. */
  datatype Readers = Readers(print_: Json -> string, durability: Json -> Option<int>, modes: Json -> seq<int>)
  {
    ghost predicate Blank() {
      durability(JNull) == None && modes(JNull) == []
    }
  }

  /** The fields for what the keys of each case hold. */
  ghost function SlotsOf(at: Case -> Json, extra: map<string, Raw>, read: Readers): Slots {
    Slots(Flag(at(Resuming)), Shown(at(Task), read.print_), Shown(at(Thread), read.print_), Fields(at(CkptMap)),
          Shown(at(CkptId), read.print_), Shown(at(CkptNs), read.print_), read.durability(at(Durable)), read.modes(at(Modes)),
          Shown(at(Project), read.print_), Shown(at(Example), read.print_), extra)
  }

  /** The switch for one key whose value is not null: it fills the field of its case, which was empty. */
  method InjectOne(s: Slots, key: string, value: Json, which: Case, restricted: set<string>, read: Readers,
                   ghost at: Case -> Json, ghost at': Case -> Json) returns (r: Slots)
    requires value != JNull && read.Blank() && s == SlotsOf(at, s.extra, read)
    requires which != Default ==> at(which) == JNull
    requires forall f | f != Default :: at'(f) == if f == which then value else at(f)
    ensures r == SlotsOf(at', if which == Default && key !in restricted then s.extra[key := Doc(value)] else s.extra, read)
  {
    r := s;
    match which
    case Resuming => if value.JBool? { r := s.(resuming := Some(value.b)); }
    case Task => r := s.(taskId := Some(read.print_(value)));
    case Thread => r := s.(threadId := Some(read.print_(value)));
    case CkptMap => if value.JObj? { r := s.(ckptMap := value.fields); }
    case CkptId => r := s.(ckptId := Some(read.print_(value)));
    case CkptNs => r := s.(ckptNs := Some(read.print_(value)));
    case Durable => if read.durability(value).Some? { r := s.(durability := read.durability(value)); }
    case Modes => r := s.(modes := s.modes + read.modes(value));
    case Project => r := s.(project := Some(read.print_(value)));
    case Example => r := s.(exampleId := Some(read.print_(value)));
    case Default => if key !in restricted { r := s.(extra := s.extra[key := Doc(value)]); }
  }

  lemma SlotsSame(at: Case -> Json, at': Case -> Json, extra: map<string, Raw>, read: Readers)
    requires forall f | f != Default :: at'(f) == at(f)
    ensures SlotsOf(at', extra, read) == SlotsOf(at, extra, read)
  {
  }

  const NO_SLOTS := Slots(None, None, None, map[], None, None, None, [], None, None, map[])

  lemma NothingSeen(c: Object, at: Case -> Json, caseOf: string -> Case, nameOf: Case -> string, restricted: set<string>, read: Readers)
    requires read.Blank() && forall f: Case :: at(f) == SeenField(c, c.Keys, nameOf(f))
    ensures NO_SLOTS == SlotsOf(at, OtherSeen(c, c.Keys, caseOf, restricted), read)
  {
    assert OtherSeen(c, c.Keys, caseOf, restricted) == map[];
    assert forall f: Case :: SeenField(c, c.Keys, nameOf(f)) == JNull;
  }

  /** The loop over the configurable dict: one switch per key, keys in any order. */
  method InjectConfigurable(c: Object, caseOf: string -> Case, ghost nameOf: Case -> string, restricted: set<string>, read: Readers)
    returns (s: Slots)
    requires Naming(caseOf, nameOf) && read.Blank()
    ensures s == SlotsOf(f => Field(c, nameOf(f)), OtherSeen(c, {}, caseOf, restricted), read)
  {
    s := NO_SLOTS;
    var todo := c.Keys;
    ghost var at := (f: Case) => SeenField(c, c.Keys, nameOf(f));
    NothingSeen(c, at, caseOf, nameOf, restricted, read);
    while todo != {}
      invariant todo <= c.Keys
      invariant forall f: Case :: at(f) == SeenField(c, todo, nameOf(f))
      invariant s == SlotsOf(at, OtherSeen(c, todo, caseOf, restricted), read)
      decreases |todo|
    {
      var key :| key in todo;
      SeenAfter(c, todo, key, caseOf, nameOf);
      OtherMore(c, todo, caseOf, restricted, key);
      ghost var rest := todo - {key};
      ghost var at' := (f: Case) => SeenField(c, rest, nameOf(f));
      if c[key] != JNull {
        s := InjectOne(s, key, c[key], caseOf(key), restricted, read, at, at');
      } else {
        SlotsSame(at, at', s.extra, read);
      }
      at := at';
      todo := todo - {key};
    }
    SlotsSame(at, f => Field(c, nameOf(f)), s.extra, read);
  }

  function Flag(j: Json): Option<bool> {
    if j.JBool? then Some(j.b) else None
  }

  function Shown(j: Json, print_: Json -> string): Option<string> {
    if j == JNull then None else Some(print_(j))
  }

  // ------------------------------------------------------------ dict to message

  /** The metadata loop: two special keys, and documents for the rest. */
  method ReadMetadata(meta: Object, host: Host) returns (docs: map<string, Raw>, runAttempt: Option<Int32>, serverRunId: Option<string>)
    ensures docs == map k | k in meta && k !in METADATA_KEYS :: Doc(meta[k])
    ensures runAttempt == ToInt32(Field(meta, "run_attempt"), host)
    ensures serverRunId == if "run_id" in meta then Some(host.sprint(meta["run_id"])) else None
  {
    docs, runAttempt, serverRunId := map[], None, None;
    var todo := meta.Keys;
    while todo != {}
      invariant todo <= meta.Keys
      invariant docs == map k | k in meta && k !in todo && k !in METADATA_KEYS :: Doc(meta[k])
      invariant runAttempt == if "run_attempt" in todo then None else ToInt32(Field(meta, "run_attempt"), host)
      invariant serverRunId == if "run_id" in meta && "run_id" !in todo then Some(host.sprint(meta["run_id"])) else None
      decreases |todo|
    {
      var k :| k in todo;
      if k == "run_attempt" {
        if meta[k].JNum? {
          runAttempt := ToInt32(meta[k], host);
        }
      } else if k == "run_id" {
        serverRunId := Some(host.sprint(meta[k]));
      } else {
        docs := docs[k := Doc(meta[k])];
      }
      todo := todo - {k};
    }
  }

  lemma {:induction false} PrintedSnoc(js: seq<Json>, j: Json, host: Host)
    ensures PrintedItems(js + [j], host) == PrintedItems(js, host) + [host.sprint(j)]
    decreases |js|
  {
    if js == [] {
      assert (js + [j])[1..] == [];
    } else {
      assert (js + [j])[1..] == js[1..] + [j];
      PrintedSnoc(js[1..], j, host);
    }
  }

  method ReadTags(items: seq<Json>, host: Host) returns (tags: seq<string>)
    ensures tags == PrintedItems(items, host)
  {
    tags := [];
    for i := 0 to |items|
      invariant tags == PrintedItems(items[..i], host)
    {
      assert items[..i + 1] == items[..i] + [items[i]];
      PrintedSnoc(items[..i], items[i], host);
      tags := tags + [host.sprint(items[i])];
    }
    assert items[..|items|] == items;
  }

  /** The extras: every top-level key that is not a known one. */
  method ReadExtras(d: Object) returns (extra: map<string, Raw>)
    ensures extra == map k | k in d && k !in KNOWN :: Doc(d[k])
  {
    extra := map[];
    var todo := d.Keys;
    while todo != {}
      invariant todo <= d.Keys
      invariant extra == map k | k in d && k !in todo && k !in KNOWN :: Doc(d[k])
      decreases |todo|
    {
      var k :| k in todo;
      if k !in KNOWN {
        extra := extra[k := Doc(d[k])];
      }
      todo := todo - {k};
    }
  }

  /** Dict to message, field by field as written; the order of the dict's keys does not matter. */
  method DictToProto(d: Object, host: Host) returns (r: Option<Config>)
    ensures r == ConfigCodec.DictToProto(d, host)
  {
    if |d| == 0 { return None; }
    var docs, runAttempt, serverRunId := ReadMetadata(Fields(Field(d, "metadata")), host);
    var runName: Option<string> := None;
    if Field(d, "run_name").JStr? && Field(d, "run_name").s != "" {
      runName := Some(Field(d, "run_name").s);
    }
    var c := Fields(Field(d, "configurable"));
    var runId := ReadRunId(d, c, host);
    var tags := ReadTags(Items(Field(d, "tags")), host);
    var resuming, taskId, threadId, ckptMap, ckptId, ckptNs, durability, modes, project, exampleId, others := Inject(c, host);
    var extra := ReadExtras(d);
    r := Some(Config(
      tags, docs, runName, NonZero(ToInt32(Field(d, "max_concurrency"), host)), NonZero(ToInt32(Field(d, "recursion_limit"), host)),
      runId, others, extra, None, resuming, taskId, threadId, ckptMap, ckptId, ckptNs, durability, map[], None, modes,
      runAttempt, serverRunId, project, exampleId));
  }

  /** The configurable loop with the keys of the source. */
  method Inject(c: Object, host: Host)
    returns (resuming: Option<bool>, taskId: Option<string>, threadId: Option<string>, ckptMap: map<string, string>,
             ckptId: Option<string>, ckptNs: Option<string>, durability: Option<int>, modes: seq<int>,
             project: Option<string>, exampleId: Option<string>, others: map<string, Raw>)
    ensures resuming == if Field(c, "__pregel_resuming").JBool? then Some(Field(c, "__pregel_resuming").b) else None
    ensures taskId == Printed(Field(c, "__pregel_task_id"), host) && threadId == Printed(Field(c, "thread_id"), host)
    ensures ckptMap == CheckpointMapOf(Field(c, "checkpoint_map"), host)
    ensures ckptId == Printed(Field(c, "checkpoint_id"), host) && ckptNs == Printed(Field(c, "checkpoint_ns"), host)
    ensures durability == DurabilityOf(Field(c, "__pregel_durability"))
    ensures modes == ModeNumbers(Items(Field(c, "__pregel_root_stream_modes")), host)
    ensures project == Printed(Field(c, "__langsmith_project__"), host) && exampleId == Printed(Field(c, "__langsmith_example_id__"), host)
    ensures others == OtherConfigurable(c)
  {
    CasesAreNamed();
    var s := InjectConfigurable(c, CaseOf, NameOf, RESTRICTED, Readers(host.sprint, DurabilityOf, j => ModeNumbers(Items(j), host)));
    resuming, taskId, threadId, ckptId, ckptNs := s.resuming, s.taskId, s.threadId, s.ckptId, s.ckptNs;
    durability, modes, project, exampleId, others := s.durability, s.modes, s.project, s.exampleId, s.extra;
    ckptMap := map k | k in s.ckptMap :: host.sprint(s.ckptMap[k]);
    forall k: string ensures CaseOf(k) == Default <==> k !in SPECIAL {
      DefaultIsUnspecial(k);
    }
    OthersSeen(c, CaseOf, SPECIAL, RESTRICTED);
  }

  lemma OthersSeen(c: Object, caseOf: string -> Case, special: set<string>, restricted: set<string>)
    requires forall k: string :: caseOf(k) == Default <==> k !in special
    ensures OtherSeen(c, {}, caseOf, restricted) == map k | k in c && c[k] != JNull && k !in special && k !in restricted :: Doc(c[k])
  {
  }

  method ReadRunId(d: Object, c: Object, host: Host) returns (r: Option<string>)
    requires c == Fields(Field(d, "configurable"))
    ensures r == RunIdOf(d, host)
  {
    var runId := "";
    if Field(d, "run_id") != JNull {
      runId := host.sprint(Field(d, "run_id"));
    }
    if runId == "" && Field(c, "run_id") != JNull {
      runId := host.sprint(Field(c, "run_id"));
    }
    r := if runId == "" then None else Some(runId);
  }

  // ------------------------------------------------------------ message to dict

  /** A dict holds exactly what `at` gives for the keys handled so far. */
  ghost predicate Holds(d: Object, seen: set<string>, at: string -> Option<Json>) {
    forall k: string :: (k in d <==> k in seen && at(k).Some?) && (k in d ==> d[k] == at(k).value)
  }

  /** One optional entry. */
  method SetIf(d: Object, key: string, v: Option<Json>, ghost seen: set<string>, ghost at: string -> Option<Json>) returns (r: Object)
    requires Holds(d, seen, at) && v == at(key)
    ensures Holds(r, seen + {key}, at)
  {
    r := d;
    if v.Some? {
      r := d[key := v.value];
    }
  }

  /** Three optional entries in a row. */
  method SetThree(d: Object, k1: string, v1: Option<Json>, k2: string, v2: Option<Json>, k3: string, v3: Option<Json>,
                  ghost seen: set<string>, ghost at: string -> Option<Json>) returns (r: Object)
    requires Holds(d, seen, at) && v1 == at(k1) && v2 == at(k2) && v3 == at(k3)
    ensures Holds(r, seen + {k1, k2, k3}, at)
  {
    r := SetIf(d, k1, v1, seen, at);
    r := SetIf(r, k2, v2, seen + {k1}, at);
    r := SetIf(r, k3, v3, seen + {k1} + {k2}, at);
    assert seen + {k1} + {k2} + {k3} == seen + {k1, k2, k3};
  }

  /** Documents laid over a dict, ranging over them in any order; later ones do not meet earlier ones. */
  method Overlay(d: Object, m: map<string, Raw>) returns (r: Object)
    ensures forall k: string ::
              && (k in r <==> k in d || (k in m && m[k].Doc?))
              && (k in r ==> r[k] == if k in m && m[k].Doc? then m[k].j else d[k])
  {
    r := d;
    var todo := m.Keys;
    while todo != {}
      invariant todo <= m.Keys
      invariant forall k: string ::
                  && (k in r <==> k in d || (k in m && k !in todo && m[k].Doc?))
                  && (k in r ==> r[k] == if k in m && k !in todo && m[k].Doc? then m[k].j else d[k])
      decreases |todo|
    {
      var k :| k in todo;
      if m[k].Doc? {
        r := r[k := m[k].j];
      }
      todo := todo - {k};
    }
  }

  const TYPED_KEYS := {"__pregel_resuming", "__pregel_task_id", "thread_id", "checkpoint_id", "checkpoint_ns",
                       "__pregel_durability", "graph_id", "__pregel_root_stream_modes", "checkpoint_map"}

  lemma TypedKeys(p: Config, k: string)
    ensures TypedConfigurable(p, k).Some? ==> k in TYPED_KEYS && k in SPECIAL + {"graph_id"}
    ensures LastConfigurable(p, k).Some? ==> k in {"run_id", "__langsmith_project__", "__langsmith_example_id__"} && k in SPECIAL + {"run_id"}
  {
  }

  /** What the typed fields give for each key. */
  lemma TypedValues(p: Config)
    ensures TypedConfigurable(p, "__pregel_resuming") == if p.resuming.Some? then Some(JBool(p.resuming.value)) else None
    ensures TypedConfigurable(p, "__pregel_task_id") == ConfigCodec.Str(p.taskId)
    ensures TypedConfigurable(p, "thread_id") == ConfigCodec.Str(p.threadId)
    ensures TypedConfigurable(p, "checkpoint_id") == ConfigCodec.Str(NonEmpty(p.checkpointId))
    ensures TypedConfigurable(p, "checkpoint_ns") == ConfigCodec.Str(p.checkpointNs)
    ensures TypedConfigurable(p, "__pregel_durability") == DurabilityField(p.durability)
    ensures TypedConfigurable(p, "graph_id") == ConfigCodec.Str(p.graphId)
    ensures TypedConfigurable(p, "__pregel_root_stream_modes") == ModesField(p.modes)
    ensures TypedConfigurable(p, "checkpoint_map") == MapField(p.checkpointMap)
  {
  }

  method TypedFields(p: Config, ghost at: string -> Option<Json>) returns (c: Object)
    requires forall k: string :: at(k) == TypedConfigurable(p, k)
    ensures Holds(c, TYPED_KEYS, at)
  {
    TypedValues(p);
    c := map[];
    c := SetThree(c, "__pregel_resuming", if p.resuming.Some? then Some(JBool(p.resuming.value)) else None,
                  "__pregel_task_id", ConfigCodec.Str(p.taskId), "thread_id", ConfigCodec.Str(p.threadId), {}, at);
    ghost var first := {} + {"__pregel_resuming", "__pregel_task_id", "thread_id"};
    c := SetThree(c, "checkpoint_id", ConfigCodec.Str(NonEmpty(p.checkpointId)), "checkpoint_ns", ConfigCodec.Str(p.checkpointNs),
                  "__pregel_durability", DurabilityField(p.durability), first, at);
    ghost var second := first + {"checkpoint_id", "checkpoint_ns", "__pregel_durability"};
    c := SetThree(c, "graph_id", ConfigCodec.Str(p.graphId), "__pregel_root_stream_modes", ModesField(p.modes),
                  "checkpoint_map", MapField(p.checkpointMap), second, at);
    TypedKeysAre();
  }

  lemma TypedKeysAre()
    ensures {} + {"__pregel_resuming", "__pregel_task_id", "thread_id"} + {"checkpoint_id", "checkpoint_ns", "__pregel_durability"}
            + {"graph_id", "__pregel_root_stream_modes", "checkpoint_map"} == TYPED_KEYS
  {
  }

  /** The late fields, laid over what is there. */
  method LateFields(p: Config, d: Object) returns (c: Object)
    ensures forall k: string ::
              && (k in c <==> k in d || LastConfigurable(p, k).Some?)
              && (k in c ==> c[k] == if LastConfigurable(p, k).Some? then LastConfigurable(p, k).value else d[k])
  {
    LateValues(p);
    c := d;
    if p.runId.Some? && p.runId.value != "" {
      c := c["run_id" := JStr(p.runId.value)];
    }
    if p.project.Some? && p.project.value != "" {
      c := c["__langsmith_project__" := JStr(p.project.value)];
    }
    if p.exampleId.Some? && p.exampleId.value != "" {
      c := c["__langsmith_example_id__" := JStr(p.exampleId.value)];
    }
    forall k: string
      ensures (k in c <==> k in d || LastConfigurable(p, k).Some?)
      ensures k in c ==> c[k] == if LastConfigurable(p, k).Some? then LastConfigurable(p, k).value else d[k]
    {
      TypedKeys(p, k);
    }
  }

  lemma LateValues(p: Config)
    ensures LastConfigurable(p, "run_id") == ConfigCodec.Str(NonEmpty(p.runId))
    ensures LastConfigurable(p, "__langsmith_project__") == ConfigCodec.Str(NonEmpty(p.project))
    ensures LastConfigurable(p, "__langsmith_example_id__") == ConfigCodec.Str(NonEmpty(p.exampleId))
  {
  }

  /** The configurable dict of a message: typed fields, extras over them, late fields over both. */
  method ConfigurableFromProto(p: Config) returns (c: Object)
    ensures c == ConfigurableOf(p)
  {
    ghost var at := (k: string) => TypedConfigurable(p, k);
    var typed := TypedFields(p, at);
    var overlaid := Overlay(typed, p.extraConfigurable);
    c := LateFields(p, overlaid);
    forall k: string ensures (k in c <==> ConfigurableAt(p, k).Some?) && (k in c ==> c[k] == ConfigurableAt(p, k).value) {
      TypedKeys(p, k);
      assert at(k) == TypedConfigurable(p, k);
    }
    IsConfigurable(p, c);
  }

  lemma IsConfigurable(p: Config, c: Object)
    requires forall k: string :: (k in c <==> ConfigurableAt(p, k).Some?) && (k in c ==> c[k] == ConfigurableAt(p, k).value)
    ensures c == ConfigurableOf(p)
  {
    forall k: string ensures k in ConfigurableOf(p) <==> ConfigurableAt(p, k).Some? {
      TypedKeys(p, k);
    }
  }

  method MetadataFromProto(p: Config) returns (m: Object)
    ensures m == MetadataOf(p)
  {
    m := Overlay(map[], p.metadata);
    if p.runAttempt.Some? {
      m := m["run_attempt" := JNum(p.runAttempt.value as real)];
    }
    if p.serverRunId.Some? {
      m := m["run_id" := JStr(p.serverRunId.value)];
    }
    assert "run_attempt" in METADATA_KEYS && "run_id" in METADATA_KEYS;
    forall k: string ensures (k in m <==> k in MetadataOf(p)) && (k in m ==> m[k] == MetadataOf(p)[k]) {
      assert k in m <==> MetadataAt(p, k).Some?;
    }
  }

  const TOP_KEYS := {"configurable", "tags", "metadata", "run_name", "max_concurrency", "recursion_limit"}

  lemma TopKeys(p: Config, k: string)
    ensures TypedTop(p, k).Some? ==> k in TOP_KEYS && k in KNOWN
  {
  }

  lemma TopValues(p: Config)
    ensures TypedTop(p, "configurable") == ObjField(ConfigurableOf(p))
    ensures TypedTop(p, "tags") == if p.tags == [] then None else Some(JArr(StringList(p.tags)))
    ensures TypedTop(p, "metadata") == ObjField(MetadataOf(p))
    ensures TypedTop(p, "run_name") == ConfigCodec.Str(p.runName)
    ensures TypedTop(p, "max_concurrency") == Num(p.maxConcurrency)
    ensures TypedTop(p, "recursion_limit") == Num(p.recursionLimit)
  {
  }

  method TopFields(p: Config, ghost at: string -> Option<Json>) returns (d: Object)
    requires forall k: string :: at(k) == TypedTop(p, k)
    ensures Holds(d, TOP_KEYS, at)
  {
    var c := ConfigurableFromProto(p);
    var m := MetadataFromProto(p);
    d := TopEntries(p, ObjField(c), ObjField(m), at);
  }

  method TopEntries(p: Config, configurable: Option<Json>, metadata: Option<Json>, ghost at: string -> Option<Json>) returns (d: Object)
    requires forall k: string :: at(k) == TypedTop(p, k)
    requires configurable == ObjField(ConfigurableOf(p)) && metadata == ObjField(MetadataOf(p))
    ensures Holds(d, TOP_KEYS, at)
  {
    TopValues(p);
    d := SetThree(map[], "configurable", configurable, "tags", if p.tags == [] then None else Some(JArr(StringList(p.tags))),
                  "metadata", metadata, {}, at);
    ghost var first := {} + {"configurable", "tags", "metadata"};
    d := SetThree(d, "run_name", ConfigCodec.Str(p.runName), "max_concurrency", Num(p.maxConcurrency),
                  "recursion_limit", Num(p.recursionLimit), first, at);
    assert first + {"run_name", "max_concurrency", "recursion_limit"} == TOP_KEYS;
  }

  /** Message to dict, entry by entry as written; the order of the extras does not matter. */
  method ProtoToDict(message: Option<Config>) returns (d: Object)
    ensures d == ConfigCodec.ProtoToDict(message)
  {
    d := map[];
    if message.None? { return; }
    var p := message.value;
    ghost var at := (k: string) => TypedTop(p, k);
    var typed := TopFields(p, at);
    d := Overlay(typed, p.extra);
    forall k: string ensures (k in d <==> TopAt(p, k).Some?) && (k in d ==> d[k] == TopAt(p, k).value) {
      TopKeys(p, k);
      assert at(k) == TypedTop(p, k);
    }
    IsDict(p, d);
  }

  lemma IsDict(p: Config, d: Object)
    requires forall k: string :: (k in d <==> TopAt(p, k).Some?) && (k in d ==> d[k] == TopAt(p, k).value)
    ensures d == ToDict(p)
  {
    forall k: string ensures k in ToDict(p) <==> TopAt(p, k).Some? {
      TopKeys(p, k);
    }
  }
}
