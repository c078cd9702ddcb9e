/** When a config survives the trip through its dict, and why normalising twice is normalising once. */
module ConfigRoundTrip {
  import opened Json
  import opened ConfigCodec

  // -------------------------------------------------------- the class of configs

  /** An extra configurable entry that comes back: not a reserved name, a non-null document, and
      no clash with the typed run id or graph id. */
  predicate KeepsExtra(p: Config, k: string, raw: Raw, host: Host) {
    && k !in SPECIAL && k !in RESTRICTED
    && (if k == "run_id" && p.runId.Some? then true
        else if k == "graph_id" && p.graphId.Some? then raw.NotJson? || raw == Doc(JStr(p.graphId.value))
        else raw.Doc? && raw.j != JNull && (k == "run_id" ==> host.sprint(raw.j) == ""))
  }

  predicate AvoidsReserved(p: Config) {
    forall k | k in p.extraConfigurable :: k !in SPECIAL && k !in RESTRICTED
  }

  predicate AllKeepExtra(p: Config, host: Host) {
    forall k | k in p.extraConfigurable :: KeepsExtra(p, k, p.extraConfigurable[k], host)
  }

  predicate KeepsMaps(p: Config) {
    && (forall k | k in p.metadata :: k !in METADATA_KEYS && p.metadata[k].Doc?)
    && (forall k | k in p.extra :: k !in KNOWN && p.extra[k].Doc?)
  }

  predicate KeepsScalars(p: Config) {
    && p.runName != Some("") && p.runId != Some("") && p.checkpointId != Some("") && p.project != Some("") && p.exampleId != Some("")
    && p.maxConcurrency != Some(0) && p.recursionLimit != Some(0)
    && (p.durability.Some? ==> 1 <= p.durability.value <= 3)
    && (forall m | m in p.modes :: 0 <= m < |MODES|)
    && p.runtime == None && p.resumeMap == map[]
  }

  /** The configs the codec carries without loss; the all-default message, which is read as no config, is not one. */
  predicate Canonical(p: Config, host: Host) {
    KeepsScalars(p) && KeepsMaps(p) && AllKeepExtra(p, host) && p != DEFAULT
  }

  function WithRaw(m: map<string, Raw>, key: string, s: Option<string>): map<string, Raw> {
    if s.Some? then m[key := Doc(JStr(s.value))] else m
  }

  /** The documented asymmetries: graph_id moves into the extras, and run_id leaves a copy there. */
  function Moved(p: Config): Config {
    p.(graphId := None,
       extraConfigurable := WithRaw(WithRaw(p.extraConfigurable, "graph_id", p.graphId), "run_id", NonEmpty(p.runId)))
  }

  // ------------------------------------------------------------ reading the dict

  lemma {:induction false} StringsPrint(s: seq<string>, host: Host)
    requires Faithful(host)
    ensures PrintedItems(StringList(s), host) == s
    decreases |s|
  {
    if s != [] {
      StringsPrint(s[1..], host);
      assert StringList(s)[1..] == StringList(s[1..]);
    }
  }

  lemma ModesDistinct(i: nat)
    requires i < |MODES|
    ensures IndexIn(MODES, MODES[i]) == Some(i)
  {
    IndexFound(MODES, i);
  }

  /** A listed name is found at its first place. */
  lemma {:induction false} IndexFound(names: seq<string>, i: nat)
    requires i < |names| && forall j | 0 <= j < i :: names[j] != names[i]
    ensures IndexIn(names, names[i]) == Some(i)
    decreases i
  {
    if i > 0 {
      assert names[1..][i - 1] == names[i];
      IndexFound(names[1..], i - 1);
    }
  }

  lemma {:induction false} IndexValid(names: seq<string>, s: string)
    ensures IndexIn(names, s).Some? ==> IndexIn(names, s).value < |names|
    decreases |names|
  {
    if names != [] {
      IndexValid(names[1..], s);
    }
  }

  lemma {:induction false} ModesReadBack(ms: seq<int>, host: Host)
    requires Faithful(host) && forall m | m in ms :: 0 <= m < |MODES|
    ensures ModeNumbers(ModeNames(ms), host) == ms
    ensures |ModeNames(ms)| == |ms|
    decreases |ms|
  {
    if ms != [] {
      assert ms[0] in ms;
      assert forall m | m in ms[1..] :: m in ms;
      ModesReadBack(ms[1..], host);
      ModesDistinct(ms[0]);
      assert ModeNames(ms)[1..] == ModeNames(ms[1..]);
    }
  }

  function Or(j: Option<Json>): Json {
    if j.Some? then j.value else JNull
  }

  lemma TopField(p: Config, k: string)
    requires KeepsMaps(p) && k in KNOWN
    ensures Field(ToDict(p), k) == Or(TypedTop(p, k))
  {
  }

  lemma ConfigurableField(p: Config)
    requires KeepsMaps(p)
    ensures Fields(Field(ToDict(p), "configurable")) == ConfigurableOf(p)
  {
    TopField(p, "configurable");
  }

  /** The typed top-level fields of a dict, whose extras avoid the known keys. */
  lemma TopFields(p: Config)
    requires KeepsMaps(p)
    ensures var d := ToDict(p);
            && Field(d, "configurable") == Or(ObjField(ConfigurableOf(p)))
            && Field(d, "tags") == (if p.tags == [] then JNull else JArr(StringList(p.tags)))
            && Field(d, "metadata") == Or(ObjField(MetadataOf(p)))
            && Field(d, "run_name") == Or(ConfigCodec.Str(p.runName))
            && Field(d, "max_concurrency") == Or(Num(p.maxConcurrency))
            && Field(d, "recursion_limit") == Or(Num(p.recursionLimit))
            && Field(d, "run_id") == JNull
  {
    TopField(p, "configurable");
    TopField(p, "tags");
    TopField(p, "metadata");
    TopField(p, "run_name");
    TopField(p, "max_concurrency");
    TopField(p, "recursion_limit");
    TopField(p, "run_id");
  }

  /** The other top-level entries are exactly the extras. */
  lemma TopExtras(p: Config)
    requires KeepsMaps(p)
    ensures (map k | k in ToDict(p) && k !in KNOWN :: Doc(ToDict(p)[k])) == p.extra
  {
    assert forall k | k in p.extra :: TopAt(p, k) == Some(p.extra[k].j);
  }

  lemma MetadataReads(p: Config, host: Host)
    requires Faithful(host) && KeepsMaps(p)
    ensures var m := MetadataOf(p);
            && (map k | k in m && k !in METADATA_KEYS :: Doc(m[k])) == p.metadata
            && ToInt32(Field(m, "run_attempt"), host) == p.runAttempt
            && (if "run_id" in m then Some(host.sprint(m["run_id"])) else None) == p.serverRunId
  {
    assert "run_attempt" in METADATA_KEYS && "run_id" in METADATA_KEYS;
    assert forall k | k in p.metadata :: MetadataAt(p, k) == Some(p.metadata[k].j);
    if p.runAttempt.Some? {
      assert (p.runAttempt.value as real).Floor == p.runAttempt.value;
    }
  }

  lemma SpecialField(p: Config, k: string)
    requires AvoidsReserved(p) && k in SPECIAL
    ensures Field(ConfigurableOf(p), k) == Or(if LastConfigurable(p, k).Some? then LastConfigurable(p, k) else TypedConfigurable(p, k))
  {
    assert k !in p.extraConfigurable;
  }

  lemma SpecialKeys()
    ensures "run_id" !in SPECIAL && "run_id" !in RESTRICTED && "graph_id" !in SPECIAL && "graph_id" !in RESTRICTED
  {
  }

  /** The configurable entries that have fields, read back. */
  lemma ConfigurableFields(p: Config)
    requires AvoidsReserved(p)
    ensures var c := ConfigurableOf(p);
            && Field(c, "__pregel_resuming") == (if p.resuming.Some? then JBool(p.resuming.value) else JNull)
            && Field(c, "__pregel_task_id") == Or(ConfigCodec.Str(p.taskId))
            && Field(c, "thread_id") == Or(ConfigCodec.Str(p.threadId))
            && Field(c, "checkpoint_id") == Or(ConfigCodec.Str(NonEmpty(p.checkpointId)))
            && Field(c, "checkpoint_ns") == Or(ConfigCodec.Str(p.checkpointNs))
  {
    SpecialField(p, "__pregel_resuming");
    SpecialField(p, "__pregel_task_id");
    SpecialField(p, "thread_id");
    SpecialField(p, "checkpoint_id");
    SpecialField(p, "checkpoint_ns");
  }

  lemma ConfigurableFieldsMore(p: Config)
    requires AvoidsReserved(p)
    ensures var c := ConfigurableOf(p);
            && Field(c, "checkpoint_map") == Or(MapField(p.checkpointMap))
            && Field(c, "__pregel_durability") == Or(DurabilityField(p.durability))
            && Field(c, "__pregel_root_stream_modes") == Or(ModesField(p.modes))
            && Field(c, "__langsmith_project__") == Or(ConfigCodec.Str(NonEmpty(p.project)))
            && Field(c, "__langsmith_example_id__") == Or(ConfigCodec.Str(NonEmpty(p.exampleId)))
  {
    SpecialField(p, "checkpoint_map");
    SpecialField(p, "__pregel_durability");
    SpecialField(p, "__pregel_root_stream_modes");
    SpecialField(p, "__langsmith_project__");
    SpecialField(p, "__langsmith_example_id__");
  }

  lemma TypedOther(p: Config, k: string)
    requires k !in SPECIAL
    ensures TypedConfigurable(p, k) == if k == "graph_id" then ConfigCodec.Str(p.graphId) else None
    ensures LastConfigurable(p, k) == if k == "run_id" then ConfigCodec.Str(NonEmpty(p.runId)) else None
  {
  }

  /** What a configurable dict holds under a key that has no field of its own. */
  lemma ConfigurableOther(p: Config, k: string)
    requires k !in SPECIAL
    ensures var c := ConfigurableOf(p);
            var sent := k in p.extraConfigurable && p.extraConfigurable[k].Doc?;
            && (k in c <==> (k == "run_id" && NonEmpty(p.runId).Some?) || (k == "graph_id" && p.graphId.Some?) || sent)
            && (k in c ==> c[k] == if k == "run_id" && NonEmpty(p.runId).Some? then JStr(p.runId.value)
                                   else if sent then p.extraConfigurable[k].j else JStr(p.graphId.value))
  {
    TypedOther(p, k);
  }

  /** The extras of the moved config, key by key. */
  lemma MovedExtra(p: Config, k: string)
    requires p.runId != Some("")
    ensures var m := Moved(p).extraConfigurable;
            && (k in m <==> (k == "run_id" && p.runId.Some?) || (k == "graph_id" && p.graphId.Some?) || k in p.extraConfigurable)
            && (k in m ==> m[k] == if k == "run_id" && p.runId.Some? then Doc(JStr(p.runId.value))
                                   else if k == "graph_id" && p.graphId.Some? then Doc(JStr(p.graphId.value))
                                   else p.extraConfigurable[k])
  {
  }

  lemma ExtraReads(p: Config, k: string, host: Host)
    requires p.runId != Some("") && (k in p.extraConfigurable ==> KeepsExtra(p, k, p.extraConfigurable[k], host))
    ensures var a, b := OtherConfigurable(ConfigurableOf(p)), Moved(p).extraConfigurable;
            (k in a <==> k in b) && (k in a ==> a[k] == b[k])
  {
    SpecialKeys();
    MovedExtra(p, k);
    if k !in SPECIAL {
      ConfigurableOther(p, k);
    }
  }

  lemma ExtrasRead(p: Config, host: Host)
    requires p.runId != Some("") && AllKeepExtra(p, host)
    ensures OtherConfigurable(ConfigurableOf(p)) == Moved(p).extraConfigurable
  {
    forall k: string
      ensures var a, b := OtherConfigurable(ConfigurableOf(p)), Moved(p).extraConfigurable;
              (k in a <==> k in b) && (k in a ==> a[k] == b[k])
    {
      ExtraReads(p, k, host);
    }
  }

  /** The run id in configurable is the typed one, or one that prints as nothing. */
  lemma ConfigurableRunId(p: Config, host: Host)
    requires Faithful(host) && p.runId != Some("") && AllKeepExtra(p, host)
    ensures NonEmpty(Printed(Field(ConfigurableOf(p), "run_id"), host)) == p.runId
  {
    SpecialKeys();
    ConfigurableOther(p, "run_id");
    if "run_id" in p.extraConfigurable {
      assert KeepsExtra(p, "run_id", p.extraConfigurable["run_id"], host);
    }
  }

  lemma RunIdReads(p: Config, host: Host)
    requires Faithful(host) && p.runId != Some("") && KeepsMaps(p) && AllKeepExtra(p, host)
    ensures RunIdOf(ToDict(p), host) == p.runId
  {
    TopField(p, "run_id");
    ConfigurableField(p);
    ConfigurableRunId(p, host);
  }

  lemma CheckpointMapReads(m: map<string, string>, host: Host)
    requires Faithful(host)
    ensures CheckpointMapOf(Or(MapField(m)), host) == m
  {
  }

  lemma DurabilityReads(d: Option<int>)
    requires d.Some? ==> 1 <= d.value <= 3
    ensures DurabilityOf(Or(DurabilityField(d))) == d
  {
  }

  lemma TopBack(p: Config, host: Host)
    requires Faithful(host) && KeepsScalars(p) && KeepsMaps(p)
    ensures var q := FromDict(ToDict(p), host);
            && q.tags == p.tags && q.runName == p.runName && q.maxConcurrency == p.maxConcurrency
            && q.recursionLimit == p.recursionLimit && q.extra == p.extra
  {
    TopFields(p);
    TopExtras(p);
    NumReads(p.maxConcurrency, host);
    NumReads(p.recursionLimit, host);
    StringsPrint(p.tags, host);
  }

  lemma MetadataBack(p: Config, host: Host)
    requires Faithful(host) && KeepsMaps(p)
    ensures var q := FromDict(ToDict(p), host);
            q.metadata == p.metadata && q.runAttempt == p.runAttempt && q.serverRunId == p.serverRunId
  {
    TopFields(p);
    assert Fields(Field(ToDict(p), "metadata")) == MetadataOf(p);
    MetadataReads(p, host);
  }

  /** Every field read from configurable. */
  lemma ConfigurableBack(p: Config, host: Host)
    requires Faithful(host) && KeepsScalars(p) && KeepsMaps(p) && AllKeepExtra(p, host)
    ensures SameConfigurableFields(FromDict(ToDict(p), host), Moved(p))
  {
    ConfigurableField(p);
    ExtrasRead(p, host);
    FirstTypedRead(p, host);
    OtherTypedRead(p, host);
  }

  ghost predicate SameConfigurableFields(q: Config, r: Config) {
    && q.extraConfigurable == r.extraConfigurable && q.resuming == r.resuming && q.taskId == r.taskId && q.threadId == r.threadId
    && q.checkpointMap == r.checkpointMap && q.checkpointId == r.checkpointId && q.checkpointNs == r.checkpointNs
    && q.durability == r.durability && q.modes == r.modes && q.project == r.project && q.exampleId == r.exampleId
  }

  /** A canonical config comes back from its dict, with the documented asymmetries and nothing else. */
  lemma CanonicalReadsBack(p: Config, host: Host)
    requires Faithful(host) && KeepsScalars(p) && KeepsMaps(p) && AllKeepExtra(p, host)
    ensures FromDict(ToDict(p), host) == Moved(p)
  {
    TopBack(p, host);
    MetadataBack(p, host);
    RunIdReads(p, host);
    ConfigurableBack(p, host);
  }

  lemma NumReads(n: Option<Int32>, host: Host)
    requires Faithful(host) && n != Some(0)
    ensures NonZero(ToInt32(Or(Num(n)), host)) == n
  {
    if n.Some? {
      assert (n.value as real).Floor == n.value;
    }
  }

  lemma Avoids(p: Config, host: Host)
    requires AllKeepExtra(p, host)
    ensures AvoidsReserved(p)
  {
    forall k | k in p.extraConfigurable ensures k !in SPECIAL && k !in RESTRICTED {
      assert KeepsExtra(p, k, p.extraConfigurable[k], host);
    }
  }

  lemma FirstTypedRead(p: Config, host: Host)
    requires Faithful(host) && p.checkpointId != Some("") && AllKeepExtra(p, host)
    ensures var c := ConfigurableOf(p);
            && (if Field(c, "__pregel_resuming").JBool? then Some(Field(c, "__pregel_resuming").b) else None) == p.resuming
            && Printed(Field(c, "__pregel_task_id"), host) == p.taskId
            && Printed(Field(c, "thread_id"), host) == p.threadId
            && Printed(Field(c, "checkpoint_id"), host) == p.checkpointId
            && Printed(Field(c, "checkpoint_ns"), host) == p.checkpointNs
  {
    Avoids(p, host);
    ConfigurableFields(p);
  }

  lemma OtherTypedRead(p: Config, host: Host)
    requires Faithful(host) && KeepsScalars(p) && AllKeepExtra(p, host)
    ensures var c := ConfigurableOf(p);
            && CheckpointMapOf(Field(c, "checkpoint_map"), host) == p.checkpointMap
            && DurabilityOf(Field(c, "__pregel_durability")) == p.durability
            && ModeNumbers(Items(Field(c, "__pregel_root_stream_modes")), host) == p.modes
            && Printed(Field(c, "__langsmith_project__"), host) == p.project
            && Printed(Field(c, "__langsmith_example_id__"), host) == p.exampleId
  {
    Avoids(p, host);
    ConfigurableFieldsMore(p);
    CheckpointMapReads(p.checkpointMap, host);
    DurabilityReads(p.durability);
    ModesReadBack(p.modes, host);
    assert |ModeNames(p.modes)| == |p.modes|;
  }

  // ------------------------------------------------ and no other config comes back

  lemma {:induction false} ModeNumbersValid(js: seq<Json>, host: Host)
    ensures forall m | m in ModeNumbers(js, host) :: 0 <= m < |MODES|
    decreases |js|
  {
    if js != [] {
      ModeNumbersValid(js[1..], host);
      IndexValid(MODES, host.sprint(js[0]));
    }
  }

  /** What any message read from a dict looks like. */
  ghost predicate Image(q: Config, host: Host) {
    && q.runName != Some("") && q.runId != Some("") && q.maxConcurrency != Some(0) && q.recursionLimit != Some(0)
    && (q.durability.Some? ==> 1 <= q.durability.value <= 3)
    && (forall m | m in q.modes :: 0 <= m < |MODES|)
    && q.runtime == None && q.resumeMap == map[] && q.graphId == None
    && KeepsMaps(q) && AllKeepExtra(q, host)
    && (forall k | k in q.extraConfigurable :: q.extraConfigurable[k].Doc? && q.extraConfigurable[k].j != JNull)
  }

  lemma FromDictImage(d: Object, host: Host)
    ensures Image(FromDict(d, host), host)
  {
    var q, c := FromDict(d, host), Fields(Field(d, "configurable"));
    ModeNumbersValid(Items(Field(c, "__pregel_root_stream_modes")), host);
    forall k | k in q.extraConfigurable ensures KeepsExtra(q, k, q.extraConfigurable[k], host) {
      assert q.extraConfigurable[k] == Doc(c[k]) && c[k] != JNull;
    }
  }

  /** What holds of a config that came back because it holds of everything read from a dict. */
  lemma ImageComesBack(p: Config, host: Host)
    requires Image(Moved(p), host)
    ensures KeepsMaps(p) && AvoidsReserved(p)
    ensures p.runName != Some("") && p.runId != Some("") && p.maxConcurrency != Some(0) && p.recursionLimit != Some(0)
    ensures (p.durability.Some? ==> 1 <= p.durability.value <= 3) && (forall m | m in p.modes :: 0 <= m < |MODES|)
    ensures p.runtime == None && p.resumeMap == map[]
  {
    var q := Moved(p);
    Avoids(q, host);
    assert forall k | k in p.extraConfigurable :: k in q.extraConfigurable;
    assert KeepsMaps(p) by {
      assert q.metadata == p.metadata && q.extra == p.extra;
    }
  }

  /** An empty id is not shown, so it does not come back. */
  lemma IdsComeBack(p: Config, host: Host)
    requires Faithful(host) && KeepsMaps(p) && AvoidsReserved(p)
    requires var q := FromDict(ToDict(p), host); q.checkpointId == p.checkpointId && q.project == p.project && q.exampleId == p.exampleId
    ensures p.checkpointId != Some("") && p.project != Some("") && p.exampleId != Some("")
  {
    ConfigurableField(p);
    ConfigurableFields(p);
    ConfigurableFieldsMore(p);
  }

  lemma ScalarsComeBack(p: Config, host: Host)
    requires Faithful(host) && FromDict(ToDict(p), host) == Moved(p)
    ensures KeepsMaps(p) && AvoidsReserved(p) && KeepsScalars(p)
  {
    FromDictImage(ToDict(p), host);
    ImageComesBack(p, host);
    IdsComeBack(p, host);
  }

  lemma ExtraComesBack(p: Config, k: string, host: Host)
    requires k in p.extraConfigurable && k !in SPECIAL && k !in RESTRICTED
    requires var o := OtherConfigurable(ConfigurableOf(p)); k in o && o == Moved(p).extraConfigurable
    requires KeepsExtra(Moved(p), k, Moved(p).extraConfigurable[k], host) && p.runId != Some("")
    ensures KeepsExtra(p, k, p.extraConfigurable[k], host)
  {
    SpecialKeys();
    MovedExtra(p, k);
    ConfigurableOther(p, k);
  }

  lemma ExtrasAre(p: Config, host: Host)
    requires KeepsMaps(p)
    ensures FromDict(ToDict(p), host).extraConfigurable == OtherConfigurable(ConfigurableOf(p))
  {
    ConfigurableField(p);
  }

  lemma ExtrasComeBack(p: Config, host: Host)
    requires AvoidsReserved(p) && p.runId != Some("") && AllKeepExtra(Moved(p), host)
    requires Moved(p).extraConfigurable == OtherConfigurable(ConfigurableOf(p))
    ensures AllKeepExtra(p, host)
  {
    forall k | k in p.extraConfigurable ensures KeepsExtra(p, k, p.extraConfigurable[k], host) {
      MovedExtra(p, k);
      ExtraComesBack(p, k, host);
    }
  }

  lemma DefaultDict()
    ensures ToDict(DEFAULT) == map[]
  {
    assert forall k :: ConfigurableAt(DEFAULT, k) == None;
    assert ConfigurableOf(DEFAULT) == map[];
    assert forall k :: MetadataAt(DEFAULT, k) == None;
    assert MetadataOf(DEFAULT) == map[];
    assert forall k :: TopAt(DEFAULT, k) == None;
  }

  lemma EmptyReads(host: Host)
    ensures FromDict(map[], host) == DEFAULT
  {
  }

  /** Among configs carried without loss only the default one has an empty dict. */
  lemma EmptyDict(p: Config, host: Host)
    requires Faithful(host) && KeepsScalars(p) && KeepsMaps(p) && AllKeepExtra(p, host)
    ensures ToDict(p) == map[] <==> p == DEFAULT
  {
    DefaultDict();
    if ToDict(p) == map[] {
      CanonicalReadsBack(p, host);
      EmptyReads(host);
      assert Moved(p) == DEFAULT;
      assert p.graphId.Some? ==> "graph_id" in Moved(p).extraConfigurable;
    }
  }

  function RoundTrip(p: Config, host: Host): Option<Config> {
    DictToProto(ToDict(p), host)
  }

  /**
    Message to dict to message: the message comes back, with graph_id moved to the extras and
    run_id copied there, exactly when it is canonical.
  */
  lemma RoundTripExactly(p: Config, host: Host)
    requires Faithful(host)
    ensures RoundTrip(p, host) == Some(Moved(p)) <==> Canonical(p, host)
  {
    if Canonical(p, host) {
      CanonicalReadsBack(p, host);
      EmptyDict(p, host);
    }
    if RoundTrip(p, host) == Some(Moved(p)) {
      DefaultDict();
      ScalarsComeBack(p, host);
      FromDictImage(ToDict(p), host);
      ExtrasAre(p, host);
      ExtrasComeBack(p, host);
    }
  }

  // ---------------------------------------------------------------- normalisation

  lemma MovedAt(p: Config, host: Host, k: string)
    requires KeepsScalars(p) && AllKeepExtra(p, host)
    ensures ConfigurableAt(Moved(p), k) == ConfigurableAt(p, k)
  {
    SpecialKeys();
    if k in p.extraConfigurable {
      assert KeepsExtra(p, k, p.extraConfigurable[k], host);
    }
    MovedTyped(p, k);
  }

  lemma MovedTyped(p: Config, k: string)
    ensures LastConfigurable(Moved(p), k) == LastConfigurable(p, k)
    ensures TypedConfigurable(Moved(p), k) == if k == "graph_id" then None else TypedConfigurable(p, k)
    ensures TypedConfigurable(p, "graph_id") == ConfigCodec.Str(p.graphId)
    ensures LastConfigurable(p, "run_id") == ConfigCodec.Str(NonEmpty(p.runId))
  {
  }

  /** The moved message has the same dict. */
  lemma MovedSameDict(p: Config, host: Host)
    requires KeepsScalars(p) && AllKeepExtra(p, host)
    ensures ToDict(Moved(p)) == ToDict(p)
  {
    var q := Moved(p);
    forall k: string ensures ConfigurableAt(q, k) == ConfigurableAt(p, k) {
      MovedAt(p, host, k);
    }
    assert ConfigurableOf(q) == ConfigurableOf(p) by {
      SameConfigurable(p, q);
    }
    SameTop(p, q);
  }

  lemma SameConfigurable(p: Config, q: Config)
    requires forall k: string :: ConfigurableAt(q, k) == ConfigurableAt(p, k)
    ensures ConfigurableOf(q) == ConfigurableOf(p)
  {
    forall k: string ensures k in ConfigurableOf(p) <==> ConfigurableAt(p, k).Some? {
      ConfigurableKeys(p, k);
    }
    forall k: string ensures k in ConfigurableOf(q) <==> ConfigurableAt(q, k).Some? {
      ConfigurableKeys(q, k);
    }
  }

  lemma ConfigurableKeys(p: Config, k: string)
    ensures k in ConfigurableOf(p) <==> ConfigurableAt(p, k).Some?
  {
    if k !in SPECIAL {
      TypedOther(p, k);
    }
  }

  predicate SameElsewhere(p: Config, q: Config) {
    && q.tags == p.tags && q.metadata == p.metadata && q.runName == p.runName && q.maxConcurrency == p.maxConcurrency
    && q.recursionLimit == p.recursionLimit && q.extra == p.extra && q.runAttempt == p.runAttempt && q.serverRunId == p.serverRunId
  }

  lemma SameMetadata(p: Config, q: Config)
    requires SameElsewhere(p, q)
    ensures MetadataOf(q) == MetadataOf(p)
  {
    assert forall k :: MetadataAt(q, k) == MetadataAt(p, k);
  }

  lemma SameTypedTop(p: Config, q: Config, k: string)
    requires ConfigurableOf(q) == ConfigurableOf(p) && SameElsewhere(p, q)
    ensures TypedTop(q, k) == TypedTop(p, k)
  {
    SameMetadata(p, q);
  }

  lemma SameTop(p: Config, q: Config)
    requires ConfigurableOf(q) == ConfigurableOf(p) && SameElsewhere(p, q)
    ensures ToDict(q) == ToDict(p)
  {
    forall k ensures TopAt(q, k) == TopAt(p, k) {
      SameTypedTop(p, q, k);
    }
  }

  /** A second round trip is the identity. */
  lemma SecondRoundTrip(p: Config, host: Host)
    requires Faithful(host) && Canonical(p, host)
    ensures Moved(Moved(p)) == Moved(p) && Canonical(Moved(p), host) && RoundTrip(Moved(p), host) == Some(Moved(p))
  {
    MovedSameDict(p, host);
    CanonicalReadsBack(p, host);
    EmptyDict(p, host);
    DefaultDict();
    FromDictImage(ToDict(p), host);
    SpecialKeys();
    RoundTripExactly(Moved(p), host);
  }

  /** Dict to message to dict. */
  function Normal(d: Object, host: Host): Object {
    ProtoToDict(DictToProto(d, host))
  }

  /** Empty ids that the dict does not show, removed. */
  function Trimmed(q: Config): Config {
    q.(checkpointId := NonEmpty(q.checkpointId), project := NonEmpty(q.project), exampleId := NonEmpty(q.exampleId))
  }

  lemma TrimmedSameDict(q: Config)
    ensures ToDict(Trimmed(q)) == ToDict(q)
  {
    forall k: string ensures ConfigurableAt(Trimmed(q), k) == ConfigurableAt(q, k) {}
    SameConfigurable(q, Trimmed(q));
    SameTop(q, Trimmed(q));
  }

  lemma NormalTwice(q: Config, host: Host)
    requires Faithful(host) && Image(q, host)
    ensures ToDict(FromDict(ToDict(q), host)) == ToDict(q)
  {
    var t := Trimmed(q);
    TrimmedSameDict(q);
    forall k | k in t.extraConfigurable ensures KeepsExtra(t, k, t.extraConfigurable[k], host) {
      assert KeepsExtra(q, k, q.extraConfigurable[k], host);
    }
    CanonicalReadsBack(t, host);
    MovedSameDict(t, host);
  }

  /** Normalising a config dict is idempotent, on every dict. */
  lemma NormalIdempotent(d: Object, host: Host)
    requires Faithful(host)
    ensures Normal(Normal(d, host), host) == Normal(d, host)
  {
    if d != map[] {
      FromDictImage(d, host);
      NormalTwice(FromDict(d, host), host);
    }
  }
}
