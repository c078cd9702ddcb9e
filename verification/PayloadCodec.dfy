/** The cron payload codec, and the decoder of stored assistant configs, both built on the config codec. */
module PayloadCodec {
  import opened Json
  import opened ConfigCodec
  import opened ConfigRoundTrip
  import opened ConfigVanishing

  /** A static interrupt setting: everywhere, at some nodes, or a message with nothing set. */
  datatype Interrupt = All | Nodes(names: seq<string>) | NothingSet

  /** `multitask` is an open enum. Absent bytes are None. */
  datatype Payload = Payload(
    assistantId: string, input: Option<Raw>, config: Option<Config>, context: Option<Raw>, webhook: Option<string>,
    interruptBefore: Option<Interrupt>, interruptAfter: Option<Interrupt>, multitask: Option<int>,
    metadata: Option<Raw>, extra: map<string, Raw>)

  const SIMPLE := {"assistant_id", "input", "context", "metadata", "webhook", "config"}

  function MultitaskName(n: int): Option<string> {
    if n == 0 then Some("reject") else if n == 1 then Some("rollback") else if n == 2 then Some("interrupt")
    else if n == 3 then Some("enqueue") else None
  }

  // -------------------------------------------------------------- dict to message

  function Kept(j: Json): Option<Raw> {
    if j == JNull then None else Some(Doc(j))
  }

  function PayloadFromDict(d: Object, host: Host): Payload {
    Payload(
      if Field(d, "assistant_id") == JNull then "" else host.sprint(Field(d, "assistant_id")),
      Kept(Field(d, "input")),
      DictToProto(Fields(Field(d, "config")), host),
      Kept(Field(d, "context")),
      Printed(Field(d, "webhook"), host),
      None, None, None,
      Kept(Field(d, "metadata")),
      map k | k in d && k !in SIMPLE && d[k] != JNull :: Doc(d[k]))
  }

  // -------------------------------------------------------------- message to dict

  function DocOf(r: Option<Raw>): Option<Json> {
    if r.Some? && r.value.Doc? then Some(r.value.j) else None
  }

  function InterruptField(i: Option<Interrupt>): Option<Json> {
    match i
    case Some(All) => Some(JStr("*"))
    case Some(Nodes(names)) => Some(JArr(StringList(names)))
    case _ => None
  }

  /** What each typed field contributes, before the extras are laid over. */
  function TypedPayload(p: Payload, k: string): Option<Json> {
    if k == "assistant_id" then (if p.assistantId == "" then None else Some(JStr(p.assistantId)))
    else if k == "input" then DocOf(p.input)
    else if k == "context" then DocOf(p.context)
    else if k == "metadata" then DocOf(p.metadata)
    else if k == "webhook" then ConfigCodec.Str(p.webhook)
    else if k == "config" then (if p.config.Some? then Some(JObj(ToDict(p.config.value))) else None)
    else if k == "interrupt_before" then InterruptField(p.interruptBefore)
    else if k == "interrupt_after" then InterruptField(p.interruptAfter)
    else if k == "multitask_strategy" then (if p.multitask.Some? then ConfigCodec.Str(MultitaskName(p.multitask.value)) else None)
    else None
  }

  function PayloadAt(p: Payload, k: string): Option<Json> {
    if k in p.extra && p.extra[k].Doc? then Some(p.extra[k].j) else TypedPayload(p, k)
  }

  const TYPED := SIMPLE + {"interrupt_before", "interrupt_after", "multitask_strategy"}

  function PayloadToDict(p: Payload): Object {
    map k | k in TYPED + p.extra.Keys && PayloadAt(p, k).Some? :: PayloadAt(p, k).value
  }

  // ---------------------------------------------------------------- normalisation

  function NormalPayload(d: Object, host: Host): Object {
    PayloadToDict(PayloadFromDict(d, host))
  }

  /** What one pass leaves under a key. */
  function NormalAt(d: Object, k: string, host: Host): Option<Json> {
    var v := Field(d, k);
    if v == JNull then None
    else if k == "assistant_id" then (if host.sprint(v) == "" then None else Some(JStr(host.sprint(v))))
    else if k == "webhook" then Some(JStr(host.sprint(v)))
    else if k == "config" then (if Fields(v) == map[] then None else Some(JObj(ToDict(FromDict(Fields(v), host)))))
    else Some(v)
  }

  lemma PassAt(d: Object, k: string, host: Host)
    ensures var r := NormalPayload(d, host);
            (k in r <==> NormalAt(d, k, host).Some?) && (k in r ==> r[k] == NormalAt(d, k, host).value)
  {
    if k in SIMPLE {
      PassSimple(d, k, host);
    } else {
      PassExtra(d, k, host);
    }
  }

  lemma PassSimple(d: Object, k: string, host: Host)
    requires k in SIMPLE
    ensures PayloadAt(PayloadFromDict(d, host), k) == NormalAt(d, k, host)
  {
    assert k !in PayloadFromDict(d, host).extra;
  }

  lemma PassExtra(d: Object, k: string, host: Host)
    requires k !in SIMPLE
    ensures PayloadAt(PayloadFromDict(d, host), k) == NormalAt(d, k, host)
    ensures PayloadAt(PayloadFromDict(d, host), k).Some? ==> k in PayloadFromDict(d, host).extra
  {
    assert k != "assistant_id" && k != "webhook" && k != "config" && k != "input" && k != "context" && k != "metadata";
  }

  /** The payload holds a non-empty config object each of whose entries the codec drops. */
  predicate ConfigVanishes(d: Object, host: Host) {
    var cfg := Fields(Field(d, "config"));
    cfg != map[] && DropsAll(cfg, host)
  }

  /** After one pass the next changes a key only if it is an emptied config, which it then removes. */
  lemma PassTwiceAt(d: Object, k: string, host: Host)
    requires Faithful(host)
    ensures NormalAt(NormalPayload(d, host), k, host) ==
            if k == "config" && ConfigVanishes(d, host) then None else NormalAt(d, k, host)
  {
    PassAt(d, k, host);
    if k == "config" {
      var cfg := Fields(Field(d, "config"));
      NormalIdempotent(cfg, host);
      VanishesExactly(cfg, host);
    }
  }

  lemma SamePass(d: Object, e: Object, host: Host)
    requires forall k: string :: NormalAt(d, k, host) == NormalAt(e, k, host)
    ensures NormalPayload(d, host) == NormalPayload(e, host)
  {
    var a, b := NormalPayload(d, host), NormalPayload(e, host);
    forall k: string ensures (k in a <==> k in b) && (k in a ==> a[k] == b[k]) {
      PassAt(d, k, host);
      PassAt(e, k, host);
    }
    assert a == b;
  }

  /** A second pass changes something exactly when a non-empty config has all its entries dropped. */
  lemma SecondPass(d: Object, host: Host)
    requires Faithful(host)
    ensures NormalPayload(NormalPayload(d, host), host) == NormalPayload(d, host) <==> !ConfigVanishes(d, host)
  {
    var once := NormalPayload(d, host);
    if ConfigVanishes(d, host) {
      VanishesExactly(Fields(Field(d, "config")), host);
      PassAt(d, "config", host);
      PassAt(once, "config", host);
      PassTwiceAt(d, "config", host);
      assert "config" in once && "config" !in NormalPayload(once, host);
    } else {
      forall k: string ensures NormalAt(once, k, host) == NormalAt(d, k, host) {
        PassTwiceAt(d, k, host);
      }
      SamePass(once, d, host);
    }
  }

  /** Two passes always reach a fixed point. */
  lemma TwoPassesSuffice(d: Object, host: Host)
    requires Faithful(host)
    ensures var twice := NormalPayload(NormalPayload(d, host), host); NormalPayload(twice, host) == twice
  {
    var once := NormalPayload(d, host);
    PassAt(d, "config", host);
    var cfg := Fields(Field(d, "config"));
    VanishesExactly(cfg, host);
    VanishesExactly(Normal(cfg, host), host);
    NormalIdempotent(cfg, host);
    SecondPass(once, host);
  }

  // ------------------------------------------------- decoding a stored config

  /** Top-level names that only the older, protojson-shaped rows carry. */
  const LEGACY := {"metadata_json", "extra_json", "extra_configurable_json", "runtime", "resuming", "task_id", "thread_id",
                   "checkpoint_map", "checkpoint_id", "checkpoint_ns", "durability", "resume_map", "graph_id",
                   "root_stream_modes", "run_attempt", "server_run_id", "tracing_project", "tracing_example_id"}

  predicate IsLegacyShape(d: Object) {
    exists k | k in d :: k in LEGACY
  }

  /** Reading a stored row: `protojson` is the older decoder. Nothing is returned for an empty message. */
  function DecodeConfig(d: Object, protojson: Object -> Option<Config>, host: Host): Option<Config> {
    if d == map[] then None
    else
      NotEmpty(if IsLegacyShape(d) then protojson(d) else DictToProto(d, host))
  }

  /** A message that is missing or all default counts as no config. */
  function NotEmpty(cfg: Option<Config>): Option<Config> {
    if cfg == Some(DEFAULT) then None else cfg
  }

  lemma LegacyIsNotKnown(k: string)
    requires k in LEGACY
    ensures k !in KNOWN
  {
  }

  /** A dict written for a message is taken for a legacy row exactly when an extra has a legacy name. */
  lemma LegacyOnlyByExtras(p: Config)
    ensures IsLegacyShape(ToDict(p)) <==> exists k | k in p.extra :: k in LEGACY && p.extra[k].Doc?
  {
    if IsLegacyShape(ToDict(p)) {
      var k :| k in ToDict(p) && k in LEGACY;
      LegacyIsNotKnown(k);
      assert TypedTop(p, k) == None;
      assert k in p.extra && p.extra[k].Doc?;
    }
    if k :| k in p.extra && k in LEGACY && p.extra[k].Doc? {
      assert k in ToDict(p);
    }
  }

  /** Storing a canonical config and decoding the row gives the config back, moved as documented. */
  lemma StoredConfigDecodes(p: Config, protojson: Object -> Option<Config>, host: Host)
    requires Faithful(host) && Canonical(p, host)
    requires forall k | k in p.extra :: k !in LEGACY
    ensures DecodeConfig(ToDict(p), protojson, host) == Some(Moved(p))
  {
    LegacyOnlyByExtras(p);
    EmptyDict(p, host);
    CanonicalReadsBack(p, host);
    MovedSameDict(p, host);
    DefaultDict();
  }

  /** The fields whose names the two shapes share. */
  predicate OnlyShared(p: Config) {
    p == DEFAULT.(tags := p.tags, runName := p.runName, maxConcurrency := p.maxConcurrency,
                  recursionLimit := p.recursionLimit, runId := p.runId)
  }

  function LegacyAt(p: Config, k: string): Option<Json> {
    if k == "tags" then (if p.tags == [] then None else Some(JArr(StringList(p.tags))))
    else if k == "run_name" then ConfigCodec.Str(p.runName)
    else if k == "run_id" then ConfigCodec.Str(p.runId)
    else if k == "max_concurrency" then Num(p.maxConcurrency)
    else if k == "recursion_limit" then Num(p.recursionLimit)
    else None
  }

  /** The protojson form of a message that sets only shared fields. */
  function LegacyRow(p: Config): Object {
    map k | k in KNOWN && LegacyAt(p, k).Some? :: LegacyAt(p, k).value
  }

  /**
    A legacy row that sets only shared fields is not recognised as legacy, yet the dict decoder
    reads from it what the older decoder would, the message `p` or no config when `p` is all
    default, exactly when no set field is empty or zero.
  */
  lemma SharedRowsAgree(p: Config, protojson: Object -> Option<Config>, host: Host)
    requires Faithful(host) && OnlyShared(p)
    ensures !IsLegacyShape(LegacyRow(p))
    ensures DecodeConfig(LegacyRow(p), protojson, host) == NotEmpty(Some(p)) <==>
            p.runName != Some("") && p.runId != Some("") && p.maxConcurrency != Some(0) && p.recursionLimit != Some(0)
  {
    NotLegacy(p);
    SharedBack(p, host);
    NoLegacyRow(p);
    if p.maxConcurrency != Some(0) { NumReads(p.maxConcurrency, host); }
    if p.recursionLimit != Some(0) { NumReads(p.recursionLimit, host); }
    assert NonZero(ToInt32(Or(Num(p.maxConcurrency)), host)) != Some(0) && NonZero(ToInt32(Or(Num(p.recursionLimit)), host)) != Some(0);
  }

  /** Such a row is empty exactly when the message is all default. */
  lemma NoLegacyRow(p: Config)
    requires OnlyShared(p)
    ensures LegacyRow(p) == map[] <==> p == DEFAULT
  {
    var d := LegacyRow(p);
    SharedFields(p);
    if p == DEFAULT {
      assert forall k :: LegacyAt(p, k) == None;
    }
    if d == map[] {
      assert Field(d, "tags") == JNull && Field(d, "run_name") == JNull && Field(d, "run_id") == JNull;
      assert Field(d, "max_concurrency") == JNull && Field(d, "recursion_limit") == JNull;
    }
  }

  lemma NotLegacy(p: Config)
    ensures !IsLegacyShape(LegacyRow(p))
  {
    forall k | k in LegacyRow(p) ensures k !in LEGACY {
      if k in LEGACY {
        LegacyIsNotKnown(k);
      }
    }
  }

  /** What the dict decoder reads from such a row: the shared fields, each by its own rule. */
  lemma SharedBack(p: Config, host: Host)
    requires Faithful(host)
    ensures FromDict(LegacyRow(p), host) ==
            DEFAULT.(tags := p.tags, runName := NonEmpty(p.runName), runId := NonEmpty(p.runId),
                     maxConcurrency := NonZero(ToInt32(Or(Num(p.maxConcurrency)), host)),
                     recursionLimit := NonZero(ToInt32(Or(Num(p.recursionLimit)), host)))
  {
    SharedFields(p);
    StringsPrint(p.tags, host);
    OnlyTop(LegacyRow(p), host);
  }

  /** A dict of known keys without configurable and metadata sets only the other fields. */
  lemma OnlyTop(d: Object, host: Host)
    requires Field(d, "configurable") == JNull && Field(d, "metadata") == JNull && d.Keys <= KNOWN
    ensures var q := FromDict(d, host);
            && q == DEFAULT.(tags := q.tags, runName := q.runName, maxConcurrency := q.maxConcurrency,
                             recursionLimit := q.recursionLimit, runId := q.runId)
            && q.tags == PrintedItems(Items(Field(d, "tags")), host)
            && q.runName == (if Field(d, "run_name").JStr? then NonEmpty(Some(Field(d, "run_name").s)) else None)
            && q.maxConcurrency == NonZero(ToInt32(Field(d, "max_concurrency"), host))
            && q.recursionLimit == NonZero(ToInt32(Field(d, "recursion_limit"), host))
            && q.runId == NonEmpty(Printed(Field(d, "run_id"), host))
  {
  }

  lemma SharedFields(p: Config)
    ensures var d := LegacyRow(p);
            && Field(d, "tags") == (if p.tags == [] then JNull else JArr(StringList(p.tags)))
            && Field(d, "run_name") == Or(ConfigCodec.Str(p.runName))
            && Field(d, "run_id") == Or(ConfigCodec.Str(p.runId))
            && Field(d, "max_concurrency") == Or(Num(p.maxConcurrency))
            && Field(d, "recursion_limit") == Or(Num(p.recursionLimit))
            && Field(d, "configurable") == JNull && Field(d, "metadata") == JNull
            && d.Keys <= KNOWN
  {
    assert "tags" in KNOWN && "run_name" in KNOWN && "run_id" in KNOWN && "max_concurrency" in KNOWN && "recursion_limit" in KNOWN;
  }
}
