/**
  The checkpoint tables, what each request does to them, and how a checkpoint tuple is rebuilt
  from them: rows of `checkpoints` joined with `checkpoint_blobs` and `checkpoint_writes`.
*/
module Checkpoints {
  import opened Json
  import opened Ordering

  /** Checkpoint and task ids, which are ordered; the other ids are only ever compared. */
  type Uuid = nat

  newtype Byte = x: int | 0 <= x < 256

  type Bytes = seq<Byte>

  type Object = map<string, Json>

  // ---------------------------------------------------------------- messages

  /** An encoding name and bytes; also one stored (type, blob) pair. */
  datatype Payload = Payload(encoding: string, bytes: Bytes)

  datatype Send = Send(node: string, arg: Option<Payload>)

  datatype ChannelValue = Unset | Serialized(payload: Payload) | Sends(sends: seq<Send>) | MissingValue

  datatype Checkpoint = Checkpoint(
    v: nat, id: Uuid, ts: string,
    channelVersions: map<string, string>,
    versionsSeen: map<string, map<string, string>>,
    updatedChannels: seq<string>,
    channelValues: map<string, ChannelValue>)

  /** `source` 0 is the unknown source; a `runId` of "" is absent. */
  datatype Metadata = Metadata(
    source: int, step: int, parents: map<string, string>, runId: string, extras: map<string, Bytes>)

  datatype PutRequest = PutRequest(
    thread: string, ns: string, configId: Option<Uuid>, configRun: string,
    checkpoint: Checkpoint, metadata: Option<Metadata>, newVersions: map<string, string>)

  datatype Write = Write(channel: string, value: ChannelValue)

  datatype WritesRequest = WritesRequest(
    thread: string, ns: string, id: Uuid, task: Uuid, taskPath: string, writes: seq<Write>)

  datatype PendingWrite = PendingWrite(task: Uuid, channel: string, value: ChannelValue)

  datatype Tuple = Tuple(
    thread: string, ns: string, checkpoint: Checkpoint, metadata: Metadata,
    writes: seq<PendingWrite>, parent: Option<Uuid>)

  // ------------------------------------------------------------------ tables

  datatype CkptKey = CkptKey(thread: string, ns: string, id: Uuid)

  /** `run` is "" when NULL. Both documents are JSON objects. */
  datatype CkptRow = CkptRow(parent: Option<Uuid>, run: string, checkpoint: Object, metadata: Object)

  datatype BlobKey = BlobKey(thread: string, ns: string, channel: string, version: string)

  datatype Position = Position(task: Uuid, idx: int)

  datatype WriteKey = WriteKey(thread: string, ns: string, id: Uuid, at: Position)

  datatype WriteRow = WriteRow(channel: string, value: Payload, taskPath: string)

  datatype Tables = Tables(
    checkpoints: map<CkptKey, CkptRow>, blobs: map<BlobKey, Payload>, writes: map<WriteKey, WriteRow>)

  const NO_ROWS := Tables(map[], map[], map[])

  /**
    Libraries the service calls: the text of a uuid, protobuf marshalling, JSON text, base64,
    and the conversions of a JSON number read as a float64.
  */
  datatype Host = Host(
    text: Uuid -> string,
    marshal: ChannelValue -> Bytes, unmarshal: Bytes -> Option<ChannelValue>,
    parse: Bytes -> Option<Json>, render: Json -> Bytes, base64: Bytes -> string,
    toUint64: real -> nat, toInt32: real -> int)

  /** Integers up to this bound survive a float64. */
  const EXACT: nat := 0x20_0000_0000_0000

  /** What is relied on: unmarshalling inverts marshalling, and small integers read back exactly. */
  ghost predicate Faithful(host: Host) {
    && (forall cv: ChannelValue :: host.unmarshal(host.marshal(cv)) == Some(cv))
    && (forall r: real | r == r.Floor as real && 0 <= r.Floor <= EXACT :: host.toUint64(r) == r.Floor)
    && (forall r: real | r == r.Floor as real && -0x8000_0000 <= r.Floor < 0x8000_0000 :: host.toInt32(r) == r.Floor)
  }

  // ------------------------------------------------------- values as payloads

  const TASKS := "__pregel_tasks"
  const MARKER := "__lsd_channel_value_pb__"
  const EMPTY_TYPE := "empty"

  /** How a written value is stored: serialized values verbatim, the others as marked protobuf. */
  function Encode(cv: ChannelValue, host: Host): Payload {
    match cv
    case Serialized(p) => p
    case Unset => Payload("", [])
    case _ => Payload(MARKER, host.marshal(cv))
  }

  /** How a stored pair is read; bytes under the marker that do not unmarshal are an error. */
  function Decode(p: Payload, host: Host): Option<ChannelValue> {
    if p.encoding == MARKER then host.unmarshal(p.bytes) else Some(Serialized(p))
  }

  // ----------------------------------------------------- documents of a row

  function Strings(m: map<string, string>): Json {
    JObj(map k | k in m :: JStr(m[k]))
  }

  function StringList(s: seq<string>): seq<Json> {
    if s == [] then [] else [JStr(s[0])] + StringList(s[1..])
  }

  /** The checkpoint document: everything but the channel values. */
  function CheckpointDoc(cp: Checkpoint, host: Host): Object {
    map["v" := JNum(cp.v as real),
        "id" := JStr(host.text(cp.id)),
        "ts" := JStr(cp.ts),
        "channel_versions" := Strings(cp.channelVersions),
        "versions_seen" := JObj(map n | n in cp.versionsSeen :: Strings(cp.versionsSeen[n])),
        "updated_channels" := if cp.updatedChannels == [] then JNull
                              else JArr(StringList(cp.updatedChannels))]
  }

  /** Metadata extras as JSON; bytes that are no JSON become their base64 text. */
  function ExtrasDoc(extras: map<string, Bytes>, host: Host): Object {
    map k | k in extras :: var j := host.parse(extras[k]); if j.Some? then j.value else JStr(host.base64(extras[k]))
  }

  function SourceName(source: int): Option<string> {
    match source
    case 1 => Some("loop")
    case 2 => Some("input")
    case 3 => Some("update")
    case 4 => Some("fork")
    case _ => None
  }

  /** The standard keys: source only when known, run_id only when present. */
  function StandardDoc(m: Metadata): Object {
    var step := map["step" := JNum(m.step as real)];
    var parents := step["parents" := if m.parents == map[] then JNull else Strings(m.parents)];
    var source := if SourceName(m.source).Some? then parents["source" := JStr(SourceName(m.source).value)] else parents;
    if m.runId != "" then source["run_id" := JStr(m.runId)] else source
  }

  /** The metadata document; extras overwrite the standard keys. */
  function MetadataDoc(md: Option<Metadata>, host: Host): Object {
    match md
    case None => map[]
    case Some(m) => StandardDoc(m) + ExtrasDoc(m.extras, host)
  }

  function StringsOf(j: Json): map<string, string> {
    if j.JObj? then map k | k in j.fields && j.fields[k].JStr? :: j.fields[k].s else map[]
  }

  function Field(doc: Object, key: string): Json {
    if key in doc then doc[key] else JNull
  }

  /** The versions a stored checkpoint lists; they select its blobs. */
  function VersionsIn(doc: Object): map<string, string> {
    StringsOf(Field(doc, "channel_versions"))
  }

  function StringItems(js: seq<Json>): seq<string> {
    if js == [] then [] else (if js[0].JStr? then [js[0].s] else []) + StringItems(js[1..])
  }

  /** The checkpoint message read from a document, with the channel values still to be added. */
  function ReadCheckpoint(doc: Object, id: Uuid, host: Host): Checkpoint {
    var v, ts, vs, uc := Field(doc, "v"), Field(doc, "ts"), Field(doc, "versions_seen"), Field(doc, "updated_channels");
    Checkpoint(
      if v.JNum? then host.toUint64(v.n) else 0,
      id,
      if ts.JStr? then ts.s else "",
      VersionsIn(doc),
      if vs.JObj? then map n | n in vs.fields && vs.fields[n].JObj? :: StringsOf(vs.fields[n]) else map[],
      if uc.JArr? then StringItems(uc.items) else [],
      map[])
  }

  function SourceNumber(name: string): Option<int> {
    if name == "loop" then Some(1)
    else if name == "input" then Some(2)
    else if name == "update" then Some(3)
    else if name == "fork" then Some(4)
    else None
  }

  const KNOWN_METADATA := {"source", "step", "parents", "run_id"}

  /** A source is stored by name; a number is the legacy form. */
  function ReadSource(source: Json, host: Host): int {
    if source.JStr? then (if SourceNumber(source.s).Some? then SourceNumber(source.s).value else 0)
    else if source.JNum? then host.toInt32(source.n) else 0
  }

  function ReadMetadata(doc: Object, host: Host): Metadata {
    var source, step, parents, runId := Field(doc, "source"), Field(doc, "step"), Field(doc, "parents"), Field(doc, "run_id");
    Metadata(
      ReadSource(source, host),
      if step.JNum? then host.toInt32(step.n) else 0,
      StringsOf(parents),
      if runId.JStr? then runId.s else "",
      map k | k in doc && k !in KNOWN_METADATA :: host.render(doc[k]))
  }

  // ---------------------------------------------------------------- requests

  /** The blobs of a put: one per serialized channel, under the channel's new version. */
  function NewBlobs(req: PutRequest): map<BlobKey, Payload> {
    map k: BlobKey | k in (set c | c in req.checkpoint.channelValues && req.checkpoint.channelValues[c].Serialized? :: NewBlobKey(req, c))
      :: req.checkpoint.channelValues[k.channel].payload
  }

  function NewBlobKey(req: PutRequest, channel: string): BlobKey {
    BlobKey(req.thread, req.ns, channel, if channel in req.newVersions then req.newVersions[channel] else "")
  }

  function PutKey(req: PutRequest): CkptKey {
    CkptKey(req.thread, req.ns, req.checkpoint.id)
  }

  function PutRun(req: PutRequest): string {
    if req.configRun != "" then req.configRun else if req.metadata.Some? then req.metadata.value.runId else ""
  }

  /** On conflict only the two documents are replaced: the first parent and run id stay. */
  function PutRow(t: Tables, req: PutRequest, host: Host): CkptRow {
    var doc, md := CheckpointDoc(req.checkpoint, host), MetadataDoc(req.metadata, host);
    if PutKey(req) in t.checkpoints then t.checkpoints[PutKey(req)].(checkpoint := doc, metadata := md)
    else CkptRow(req.configId, PutRun(req), doc, md)
  }

  /** A stored blob is never replaced. */
  function Put(t: Tables, req: PutRequest, host: Host): Tables {
    Tables(t.checkpoints[PutKey(req) := PutRow(t, req, host)], NewBlobs(req) + t.blobs, t.writes)
  }

  const SENTINELS: map<string, int> := map["__error__" := -1, "__scheduled__" := -2, "__interrupt__" := -3, "__resume__" := -4]

  /** Sentinel channels have a fixed negative index; the others use their place in the batch. */
  function IndexOf(channel: string, i: nat): int {
    if channel in SENTINELS then SENTINELS[channel] else i
  }

  function WriteKeyAt(req: WritesRequest, i: nat): WriteKey
    requires i < |req.writes|
  {
    WriteKey(req.thread, req.ns, req.id, Position(req.task, IndexOf(req.writes[i].channel, i)))
  }

  function WriteRowAt(req: WritesRequest, i: nat, host: Host): WriteRow
    requires i < |req.writes|
  {
    WriteRow(req.writes[i].channel, Encode(req.writes[i].value, host), req.taskPath)
  }

  /** One INSERT: a negative index overwrites, a non-negative one keeps the first row. */
  function InsertWrite(ws: map<WriteKey, WriteRow>, k: WriteKey, row: WriteRow): map<WriteKey, WriteRow> {
    if k.at.idx >= 0 && k in ws then ws else ws[k := row]
  }

  /** The writes table after the first n writes of a batch. */
  function InsertWrites(ws: map<WriteKey, WriteRow>, req: WritesRequest, n: nat, host: Host): map<WriteKey, WriteRow>
    requires n <= |req.writes|
  {
    if n == 0 then ws
    else InsertWrite(InsertWrites(ws, req, n - 1, host), WriteKeyAt(req, n - 1), WriteRowAt(req, n - 1, host))
  }

  function PutWrites(t: Tables, req: WritesRequest, host: Host): Tables {
    t.(writes := InsertWrites(t.writes, req, |req.writes|, host))
  }

  /** The INSERT ... SELECT of one table: rows of `from` under the new thread id, existing rows kept. */
  function CopyCheckpoints(m: map<CkptKey, CkptRow>, from: string, to: string): map<CkptKey, CkptRow> {
    (map k | k in (set c | c in m && c.thread == from :: c.(thread := to)) :: Rebased(m[k.(thread := from)], to)) + m
  }

  function CopyBlobs(m: map<BlobKey, Payload>, from: string, to: string): map<BlobKey, Payload> {
    (map k | k in (set b | b in m && b.thread == from :: b.(thread := to)) :: m[k.(thread := from)]) + m
  }

  function CopyWrites(m: map<WriteKey, WriteRow>, from: string, to: string): map<WriteKey, WriteRow> {
    (map k | k in (set w | w in m && w.thread == from :: w.(thread := to)) :: m[k.(thread := from)]) + m
  }

  function CopyThread(t: Tables, from: string, to: string): Tables {
    Tables(CopyCheckpoints(t.checkpoints, from, to), CopyBlobs(t.blobs, from, to), CopyWrites(t.writes, from, to))
  }

  function Rebased(row: CkptRow, to: string): CkptRow {
    row.(metadata := row.metadata["thread_id" := JStr(to)])
  }

  /** Only checkpoint rows go: blobs and writes refer to the thread, not to a checkpoint. */
  function DeleteThread(t: Tables, thread: string): Tables {
    t.(checkpoints := map k | k in t.checkpoints && k.thread != thread :: t.checkpoints[k])
  }

  function DeleteForRuns(t: Tables, runs: seq<string>): Tables {
    t.(checkpoints := map k | k in t.checkpoints && !(t.checkpoints[k].run != "" && t.checkpoints[k].run in runs) :: t.checkpoints[k])
  }

  const KEEP_LATEST := 1
  const DELETE_ALL := 2

  /** No checkpoint of the same thread and namespace has a greater id. */
  predicate Latest(t: Tables, k: CkptKey) {
    forall o | o in t.checkpoints && o.thread == k.thread && o.ns == k.ns :: o.id <= k.id
  }

  function KeepLatest(t: Tables, threads: seq<string>): Tables {
    t.(checkpoints := map k | k in t.checkpoints && (k.thread in threads ==> Latest(t, k)) :: t.checkpoints[k])
  }

  function DeleteAll(t: Tables, threads: seq<string>): Tables {
    t.(checkpoints := map k | k in t.checkpoints && k.thread !in threads :: t.checkpoints[k])
  }

  /** With no threads any strategy is a no-op; otherwise an unknown strategy is an error. */
  function Prune(t: Tables, threads: seq<string>, strategy: int): (Tables, bool) {
    if threads == [] then (t, true)
    else if strategy == DELETE_ALL then (DeleteAll(t, threads), true)
    else if strategy == KEEP_LATEST then (KeepLatest(t, threads), true)
    else (t, false)
  }

  // ----------------------------------------------------------------- reading

  predicate Descending(a: Uuid, b: Uuid) {
    a > b
  }

  predicate ByTaskAndIndex(a: Position, b: Position) {
    a.task < b.task || (a.task == b.task && a.idx < b.idx)
  }

  lemma Orders()
    ensures StrictOrder(Descending) && StrictOrder(ByTaskAndIndex)
  {
  }

  /** The ids of a namespace whose metadata contains the filter, below `before`. */
  function Ids(t: Tables, thread: string, ns: string, before: Option<Uuid>, filter: Option<Json>): set<Uuid> {
    set k | k in t.checkpoints && k.thread == thread && k.ns == ns
            && (before.Some? ==> k.id < before.value)
            && (filter.Some? ==> Contains(JObj(t.checkpoints[k].metadata), filter.value))
      :: k.id
  }

  /** Newest first. */
  function Listing(t: Tables, thread: string, ns: string, before: Option<Uuid>, filter: Option<Json>): seq<Uuid> {
    Orders();
    Sorted(Ids(t, thread, ns, before, filter), Descending)
  }

  function Limited<T>(s: seq<T>, limit: Option<nat>): seq<T> {
    if limit.Some? && limit.value < |s| then s[..limit.value] else s
  }

  /** Where a checkpoint has writes, in (task, idx) order; `channel` narrows to one channel. */
  function Positions(t: Tables, thread: string, ns: string, id: Uuid, channel: Option<string>): set<Position> {
    set k | k in t.writes && k.thread == thread && k.ns == ns && k.id == id
            && (channel.Some? ==> t.writes[k].channel == channel.value)
      :: k.at
  }

  function OrderedWrites(t: Tables, thread: string, ns: string, id: Uuid, channel: Option<string>): seq<Position> {
    Orders();
    Sorted(Positions(t, thread, ns, id, channel), ByTaskAndIndex)
  }

  /** The blob a checkpoint reads for a channel: the one at its listed version, unless typed "empty". */
  function BlobOf(t: Tables, k: CkptKey, c: string): Option<Payload>
    requires k in t.checkpoints
  {
    var versions := VersionsIn(t.checkpoints[k].checkpoint);
    if c !in versions then None
    else
      var b := BlobKey(k.thread, k.ns, c, versions[c]);
      if b in t.blobs && t.blobs[b].encoding != EMPTY_TYPE then Some(t.blobs[b]) else None
  }

  /** The channel value a checkpoint reads from its blob, if there is one and it decodes. */
  function BlobValue(t: Tables, k: CkptKey, c: string, host: Host): Option<ChannelValue>
    requires k in t.checkpoints
  {
    match BlobOf(t, k, c)
    case None => None
    case Some(p) => Decode(p, host)
  }

  function BlobValues(t: Tables, k: CkptKey, host: Host): map<string, ChannelValue>
    requires k in t.checkpoints
  {
    map c | c in VersionsIn(t.checkpoints[k].checkpoint) && BlobValue(t, k, c, host).Some? :: BlobValue(t, k, c, host).value
  }

  /** Every blob the checkpoint selects decodes. */
  predicate BlobsDecode(t: Tables, k: CkptKey, host: Host)
    requires k in t.checkpoints
  {
    forall c | c in VersionsIn(t.checkpoints[k].checkpoint) :: BlobOf(t, k, c).Some? ==> BlobValue(t, k, c, host).Some?
  }

  /** The sends a task write stands for: a list of sends, or one synthetic send without a node. */
  function SendsOf(cv: ChannelValue): seq<Send> {
    match cv
    case Sends(ss) => ss
    case Serialized(p) => [Send("", Some(p))]
    case _ => []
  }

  /** The `__pregel_tasks` writes of the parent checkpoint, in order. */
  function PendingSends(t: Tables, k: CkptKey): seq<Payload>
    requires k in t.checkpoints
  {
    match t.checkpoints[k].parent
    case None => []
    case Some(parent) =>
      SendPayloads(t, k.thread, k.ns, parent, OrderedWrites(t, k.thread, k.ns, parent, Some(TASKS)))
  }

  function SendPayloads(t: Tables, thread: string, ns: string, id: Uuid, at: seq<Position>): seq<Payload> {
    if at == [] then []
    else
      (if WriteKey(thread, ns, id, at[0]) in t.writes then [t.writes[WriteKey(thread, ns, id, at[0])].value] else [])
      + SendPayloads(t, thread, ns, id, at[1..])
  }

  predicate AllDecode(ps: seq<Payload>, host: Host) {
    forall p | p in ps :: Decode(p, host).Some?
  }

  function FlatSends(ps: seq<Payload>, host: Host): seq<Send> {
    if ps == [] then []
    else (var cv := Decode(ps[0], host); if cv.Some? then SendsOf(cv.value) else []) + FlatSends(ps[1..], host)
  }

  /** Channel values as returned: blobs, with any pending sends under `__pregel_tasks`. */
  function ChannelValues(t: Tables, k: CkptKey, host: Host): map<string, ChannelValue>
    requires k in t.checkpoints
  {
    var sends := FlatSends(PendingSends(t, k), host);
    if sends == [] then BlobValues(t, k, host) else BlobValues(t, k, host)[TASKS := Sends(sends)]
  }

  function WriteOf(p: Position, row: WriteRow, host: Host): PendingWrite {
    var cv := Decode(row.value, host);
    PendingWrite(p.task, row.channel, if cv.Some? then cv.value else Unset)
  }

  function PendingWrites(t: Tables, k: CkptKey, at: seq<Position>, host: Host): seq<PendingWrite> {
    if at == [] then []
    else
      (if WriteKey(k.thread, k.ns, k.id, at[0]) in t.writes then [WriteOf(at[0], t.writes[WriteKey(k.thread, k.ns, k.id, at[0])], host)] else [])
      + PendingWrites(t, k, at[1..], host)
  }

  predicate WritesDecode(t: Tables, k: CkptKey, host: Host) {
    forall w | w in t.writes && w.thread == k.thread && w.ns == k.ns && w.id == k.id :: Decode(t.writes[w].value, host).Some?
  }

  /** A tuple is readable when everything joined into it decodes. */
  predicate Readable(t: Tables, k: CkptKey, host: Host)
    requires k in t.checkpoints
  {
    BlobsDecode(t, k, host) && AllDecode(PendingSends(t, k), host) && WritesDecode(t, k, host)
  }

  /** The tuple of a stored checkpoint. */
  function TupleOf(t: Tables, k: CkptKey, host: Host): Tuple
    requires k in t.checkpoints
  {
    var row := t.checkpoints[k];
    Tuple(k.thread, k.ns,
          ReadCheckpoint(row.checkpoint, k.id, host).(channelValues := ChannelValues(t, k, host)),
          ReadMetadata(row.metadata, host),
          PendingWrites(t, k, OrderedWrites(t, k.thread, k.ns, k.id, None), host),
          row.parent)
  }

  datatype Reply = NoCheckpoint | DecodeError | Got(tuple: Tuple)

  function ReplyFor(t: Tables, k: CkptKey, host: Host): Reply
    requires k in t.checkpoints
  {
    if Readable(t, k, host) then Got(TupleOf(t, k, host)) else DecodeError
  }

  /** The key a lookup selects: the given id, or the newest one. */
  function Lookup(t: Tables, thread: string, ns: string, id: Option<Uuid>): (k: Option<CkptKey>)
    ensures k.Some? ==> k.value in t.checkpoints && k.value.thread == thread && k.value.ns == ns
  {
    match id
    case Some(i) => (var k := CkptKey(thread, ns, i); if k in t.checkpoints then Some(k) else None)
    case None =>
      var all := Listing(t, thread, ns, None, None);
      if all == [] then None
      else
        assert all[0] in all;
        Some(CkptKey(thread, ns, all[0]))
  }

  function GetTuple(t: Tables, thread: string, ns: string, id: Option<Uuid>, host: Host): Reply {
    match Lookup(t, thread, ns, id)
    case None => NoCheckpoint
    case Some(k) => ReplyFor(t, k, host)
  }

  datatype ListReply = ListFailed | Listed(tuples: seq<Tuple>)

  function Replies(t: Tables, thread: string, ns: string, ids: seq<Uuid>, host: Host): seq<Reply> {
    if ids == [] then [] else [GetTuple(t, thread, ns, Some(ids[0]), host)] + Replies(t, thread, ns, ids[1..], host)
  }

  /** All tuples, or a failure when one of them could not be read. */
  function Collect(rs: seq<Reply>): ListReply {
    if rs == [] then Listed([])
    else
      match (rs[0], Collect(rs[1..]))
      case (Got(tuple), Listed(more)) => Listed([tuple] + more)
      case _ => ListFailed
  }

  /** The tuples of some ids; one that cannot be decoded fails the whole list. */
  function Tuples(t: Tables, thread: string, ns: string, ids: seq<Uuid>, host: Host): ListReply {
    Collect(Replies(t, thread, ns, ids, host))
  }

  /** A negative limit is refused by the database. */
  function List(t: Tables, thread: string, ns: string, before: Option<Uuid>, limit: Option<int>, filter: Option<Json>, host: Host): ListReply {
    if limit.Some? && limit.value < 0 then ListFailed
    else Tuples(t, thread, ns, Page(t, thread, ns, before, if limit.Some? then Some(limit.value) else None, filter), host)
  }

  function Page(t: Tables, thread: string, ns: string, before: Option<Uuid>, limit: Option<nat>, filter: Option<Json>): seq<Uuid> {
    Limited(Listing(t, thread, ns, before, filter), limit)
  }
}
