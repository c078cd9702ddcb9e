/**
  The config codec: an EngineRunnableConfig message to and from the Python-shaped dict that is
  stored as JSON. Both directions are given here as functions of their whole input.
*/
module ConfigCodec {
  import opened Json

  type Object = map<string, Json>

  type Int32 = x: int | -0x8000_0000 <= x < 0x8000_0000

  /** A bytes field meant to hold JSON text: either some document, or bytes that do not parse. */
  datatype Raw = Doc(j: Json) | NotJson(bytes: string)

  /**
    The message. `runtime` and `resumeMap` stand for the two fields the codec does not carry;
    enums are open, so any number can occur.
  */
  datatype Config = Config(
    tags: seq<string>, metadata: map<string, Raw>, runName: Option<string>,
    maxConcurrency: Option<Int32>, recursionLimit: Option<Int32>, runId: Option<string>,
    extraConfigurable: map<string, Raw>, extra: map<string, Raw>, runtime: Option<string>,
    resuming: Option<bool>, taskId: Option<string>, threadId: Option<string>,
    checkpointMap: map<string, string>, checkpointId: Option<string>, checkpointNs: Option<string>,
    durability: Option<int>, resumeMap: map<string, string>, graphId: Option<string>,
    modes: seq<int>, runAttempt: Option<Int32>, serverRunId: Option<string>,
    project: Option<string>, exampleId: Option<string>)

  const DEFAULT := Config([], map[], None, None, None, None, map[], map[], None, None, None, None, map[], None,
                          None, None, map[], None, [], None, None, None, None)

  /** `fmt.Sprint` on a decoded value, and the conversion of a JSON number to an int32. */
  datatype Host = Host(sprint: Json -> string, toInt32: real -> Int32)

  /** What is relied on: printing a string gives the string, and an int32 converts to itself. */
  ghost predicate Faithful(host: Host) {
    && (forall s :: host.sprint(JStr(s)) == s)
    && (forall r: real | r == r.Floor as real && -0x8000_0000 <= r.Floor < 0x8000_0000 :: host.toInt32(r) == r.Floor)
  }

  // ------------------------------------------------------------------ shared

  function Field(d: Object, key: string): Json {
    if key in d then d[key] else JNull
  }

  function Fields(j: Json): Object {
    if j.JObj? then j.fields else map[]
  }

  function Items(j: Json): seq<Json> {
    if j.JArr? then j.items else []
  }

  function ToInt32(j: Json, host: Host): Option<Int32> {
    if j.JNum? then Some(host.toInt32(j.n)) else None
  }

  function NonZero(n: Option<Int32>): Option<Int32> {
    if n == Some(0) then None else n
  }

  function NonEmpty(s: Option<string>): Option<string> {
    if s == Some("") then None else s
  }

  /** A value printed, unless absent or null. */
  function Printed(j: Json, host: Host): Option<string> {
    if j == JNull then None else Some(host.sprint(j))
  }

  function PrintedItems(js: seq<Json>, host: Host): seq<string> {
    if js == [] then [] else [host.sprint(js[0])] + PrintedItems(js[1..], host)
  }

  function StringList(s: seq<string>): seq<Json> {
    if s == [] then [] else [JStr(s[0])] + StringList(s[1..])
  }

  function DurabilityNumber(s: string): Option<int> {
    if s == "async" then Some(1) else if s == "sync" then Some(2) else if s == "exit" then Some(3) else None
  }

  function DurabilityName(d: int): Option<string> {
    if d == 1 then Some("async") else if d == 2 then Some("sync") else if d == 3 then Some("exit") else None
  }

  const MODES: seq<string> :=
    ["unknown", "values", "updates", "checkpoints", "tasks", "debug", "messages", "custom", "events", "messages_tuple"]

  function IndexIn(names: seq<string>, s: string): Option<nat> {
    if names == [] then None
    else if names[0] == s then Some(0)
    else match IndexIn(names[1..], s) case None => None case Some(i) => Some(i + 1)
  }

  function ModeNumbers(js: seq<Json>, host: Host): seq<int> {
    if js == [] then []
    else (match IndexIn(MODES, host.sprint(js[0])) case Some(n) => [n] case None => []) + ModeNumbers(js[1..], host)
  }

  function ModeNames(ms: seq<int>): seq<Json> {
    if ms == [] then []
    else (if 0 <= ms[0] < |MODES| then [JStr(MODES[ms[0]])] else []) + ModeNames(ms[1..])
  }

  /** Configurable keys with a field of their own, and keys that are silently dropped. */
  const SPECIAL := {"__pregel_resuming", "__pregel_task_id", "thread_id", "checkpoint_map", "checkpoint_id", "checkpoint_ns",
                    "__pregel_durability", "__pregel_root_stream_modes", "__langsmith_project__", "__langsmith_example_id__"}

  const RESTRICTED := {"__pregel_send", "__pregel_read", "__pregel_scratchpad", "__pregel_call", "__pregel_checkpointer",
                       "__pregel_stream", "__pregel_cache", "__pregel_runner_submit", "__pregel_root_stream_modes"}

  const KNOWN := {"metadata", "run_name", "run_id", "max_concurrency", "recursion_limit", "tags", "configurable", "callbacks"}

  const METADATA_KEYS := {"run_attempt", "run_id"}

  // ------------------------------------------------------------ dict to message

  /** The run id: the top-level one, or else the configurable one. */
  function RunIdOf(d: Object, host: Host): Option<string> {
    var top := NonEmpty(Printed(Field(d, "run_id"), host));
    if top.Some? then top else NonEmpty(Printed(Field(Fields(Field(d, "configurable")), "run_id"), host))
  }

  function CheckpointMapOf(j: Json, host: Host): map<string, string> {
    map k | k in Fields(j) :: host.sprint(Fields(j)[k])
  }

  function DurabilityOf(j: Json): Option<int> {
    if j.JStr? then DurabilityNumber(j.s) else None
  }

  /** Configurable entries without a field of their own. */
  function OtherConfigurable(c: Object): map<string, Raw> {
    map k | k in c && c[k] != JNull && k !in SPECIAL && k !in RESTRICTED :: Doc(c[k])
  }

  function FromDict(d: Object, host: Host): Config {
    var meta, c := Fields(Field(d, "metadata")), Fields(Field(d, "configurable"));
    Config(
      PrintedItems(Items(Field(d, "tags")), host),
      map k | k in meta && k !in METADATA_KEYS :: Doc(meta[k]),
      if Field(d, "run_name").JStr? then NonEmpty(Some(Field(d, "run_name").s)) else None,
      NonZero(ToInt32(Field(d, "max_concurrency"), host)),
      NonZero(ToInt32(Field(d, "recursion_limit"), host)),
      RunIdOf(d, host),
      OtherConfigurable(c),
      map k | k in d && k !in KNOWN :: Doc(d[k]),
      None,
      if Field(c, "__pregel_resuming").JBool? then Some(Field(c, "__pregel_resuming").b) else None,
      Printed(Field(c, "__pregel_task_id"), host),
      Printed(Field(c, "thread_id"), host),
      CheckpointMapOf(Field(c, "checkpoint_map"), host),
      Printed(Field(c, "checkpoint_id"), host),
      Printed(Field(c, "checkpoint_ns"), host),
      DurabilityOf(Field(c, "__pregel_durability")),
      map[],
      None,
      ModeNumbers(Items(Field(c, "__pregel_root_stream_modes")), host),
      ToInt32(Field(meta, "run_attempt"), host),
      if "run_id" in meta then Some(host.sprint(meta["run_id"])) else None,
      Printed(Field(c, "__langsmith_project__"), host),
      Printed(Field(c, "__langsmith_example_id__"), host))
  }

  /** The empty dict stands for no config at all. */
  function DictToProto(d: Object, host: Host): Option<Config> {
    if d == map[] then None else Some(FromDict(d, host))
  }

  // ------------------------------------------------------------ message to dict

  function Str(s: Option<string>): Option<Json> {
    if s.Some? then Some(JStr(s.value)) else None
  }

  function Num(n: Option<Int32>): Option<Json> {
    if n.Some? then Some(JNum(n.value as real)) else None
  }

  function DurabilityField(d: Option<int>): Option<Json> {
    if d.Some? then Str(DurabilityName(d.value)) else None
  }

  function ModesField(ms: seq<int>): Option<Json> {
    if ms == [] then None else Some(JArr(ModeNames(ms)))
  }

  function MapField(m: map<string, string>): Option<Json> {
    if m == map[] then None else Some(JObj(map k | k in m :: JStr(m[k])))
  }

  /** The typed configurable fields: what each key holds before the extras are laid over. */
  function TypedConfigurable(p: Config, k: string): Option<Json> {
    if k == "__pregel_resuming" then (if p.resuming.Some? then Some(JBool(p.resuming.value)) else None)
    else if k == "__pregel_task_id" then Str(p.taskId)
    else if k == "thread_id" then Str(p.threadId)
    else if k == "checkpoint_id" then Str(NonEmpty(p.checkpointId))
    else if k == "checkpoint_ns" then Str(p.checkpointNs)
    else if k == "__pregel_durability" then DurabilityField(p.durability)
    else if k == "graph_id" then Str(p.graphId)
    else if k == "__pregel_root_stream_modes" then ModesField(p.modes)
    else if k == "checkpoint_map" then MapField(p.checkpointMap)
    else None
  }

  /** Run id and tracing fields come last and win over extras. */
  function LastConfigurable(p: Config, k: string): Option<Json> {
    if k == "run_id" then Str(NonEmpty(p.runId))
    else if k == "__langsmith_project__" then Str(NonEmpty(p.project))
    else if k == "__langsmith_example_id__" then Str(NonEmpty(p.exampleId))
    else None
  }

  /** The last writer of a key among late fields, extras and typed fields, in that order of precedence. */
  function ConfigurableAt(p: Config, k: string): Option<Json> {
    if LastConfigurable(p, k).Some? then LastConfigurable(p, k)
    else if k in p.extraConfigurable && p.extraConfigurable[k].Doc? then Some(p.extraConfigurable[k].j)
    else TypedConfigurable(p, k)
  }

  function ConfigurableOf(p: Config): Object {
    map k | k in SPECIAL + {"graph_id", "run_id"} + p.extraConfigurable.Keys && ConfigurableAt(p, k).Some? :: ConfigurableAt(p, k).value
  }

  function MetadataAt(p: Config, k: string): Option<Json> {
    if k == "run_id" && p.serverRunId.Some? then Str(p.serverRunId)
    else if k == "run_attempt" && p.runAttempt.Some? then Num(p.runAttempt)
    else if k in p.metadata && p.metadata[k].Doc? then Some(p.metadata[k].j)
    else None
  }

  function MetadataOf(p: Config): Object {
    map k | k in METADATA_KEYS + p.metadata.Keys && MetadataAt(p, k).Some? :: MetadataAt(p, k).value
  }

  function ObjField(d: Object): Option<Json> {
    if d == map[] then None else Some(JObj(d))
  }

  function TypedTop(p: Config, k: string): Option<Json> {
    if k == "configurable" then ObjField(ConfigurableOf(p))
    else if k == "tags" then (if p.tags == [] then None else Some(JArr(StringList(p.tags))))
    else if k == "metadata" then ObjField(MetadataOf(p))
    else if k == "run_name" then Str(p.runName)
    else if k == "max_concurrency" then Num(p.maxConcurrency)
    else if k == "recursion_limit" then Num(p.recursionLimit)
    else None
  }

  /** Extras win over the typed top-level fields. */
  function TopAt(p: Config, k: string): Option<Json> {
    if k in p.extra && p.extra[k].Doc? then Some(p.extra[k].j) else TypedTop(p, k)
  }

  function ToDict(p: Config): Object {
    map k | k in KNOWN + p.extra.Keys && TopAt(p, k).Some? :: TopAt(p, k).value
  }

  /** A missing message gives the empty dict. */
  function ProtoToDict(p: Option<Config>): Object {
    if p.Some? then ToDict(p.value) else map[]
  }
}
