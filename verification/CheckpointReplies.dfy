/**
  What replies are, row by row: the pending writes, the rebuilt sends and the channel values of a
  tuple, and the tuples of a listing, each said of the stored rows themselves.
*/
module CheckpointReplies {
  import opened Json
  import opened Ordering
  import opened Checkpoints
  import opened CheckpointHistory
  import opened CheckpointReadability

  /** What a stored payload reads as: bytes under the reserved encoding are unmarshalled, others are the value. */
  ghost predicate ReadsTo(p: Payload, cv: ChannelValue, host: Host) {
    if p.encoding == "__lsd_channel_value_pb__" then host.unmarshal(p.bytes) == Some(cv) else cv == Serialized(p)
  }

  lemma DecodeReads(p: Payload, host: Host)
    ensures Decode(p, host).Some? ==> ReadsTo(p, Decode(p, host).value, host)
    ensures forall cv :: ReadsTo(p, cv, host) <==> Decode(p, host) == Some(cv)
  {
  }

  /** The stored checkpoint a reply is about, and that the reply is its tuple. */
  lemma GotIs(t: Tables, thread: string, ns: string, id: Option<Uuid>, host: Host)
    requires GetTuple(t, thread, ns, id, host).Got?
    ensures var tuple := GetTuple(t, thread, ns, id, host).tuple;
            var k := CkptKey(thread, ns, tuple.checkpoint.id);
            && tuple.thread == thread && tuple.ns == ns
            && k in t.checkpoints && Readable(t, k, host) && tuple == TupleOf(t, k, host)
            && (id.Some? ==> tuple.checkpoint.id == id.value)
  {
  }

  // ------------------------------------------------------------------ positions

  predicate Before(a: Position, b: Position) {
    a.task < b.task || (a.task == b.task && a.idx < b.idx)
  }

  ghost predicate InOrder(at: seq<Position>) {
    forall i, j | 0 <= i < j < |at| :: Before(at[i], at[j])
  }

  /** The rows of a checkpoint's writes, or of those on one channel, lie at `at`. */
  ghost predicate RowsAt(t: Tables, thread: string, ns: string, id: Uuid, channel: Option<string>, at: seq<Position>) {
    forall p :: p in at <==>
      var w := WriteKey(thread, ns, id, p);
      w in t.writes && (channel.Some? ==> t.writes[w].channel == channel.value)
  }

  lemma OrderedAre(t: Tables, thread: string, ns: string, id: Uuid, channel: Option<string>)
    ensures var at := OrderedWrites(t, thread, ns, id, channel);
            InOrder(at) && RowsAt(t, thread, ns, id, channel, at)
  {
    Orders();
    var s, at := Positions(t, thread, ns, id, channel), OrderedWrites(t, thread, ns, id, channel);
    forall i, j | 0 <= i < j < |at| ensures Before(at[i], at[j]) {
      SortedAscends(s, ByTaskAndIndex, i, j);
    }
    forall p
      ensures p in at <==> var w := WriteKey(thread, ns, id, p); w in t.writes && (channel.Some? ==> t.writes[w].channel == channel.value)
    {
      assert p in at <==> p in s;
      var w := WriteKey(thread, ns, id, p);
      assert p in s <==> w in t.writes && (channel.Some? ==> t.writes[w].channel == channel.value);
    }
  }

  // ------------------------------------------------------------- pending writes

  /** A pending write shows the row at a position: its task, its channel and the value it reads as. */
  ghost predicate Shows(t: Tables, k: CkptKey, p: Position, w: PendingWrite, host: Host) {
    var key := WriteKey(k.thread, k.ns, k.id, p);
    && key in t.writes && w.task == p.task && w.channel == t.writes[key].channel
    && ReadsTo(t.writes[key].value, w.value, host)
  }

  ghost predicate AllShow(t: Tables, k: CkptKey, at: seq<Position>, ws: seq<PendingWrite>, host: Host) {
    |ws| == |at| && forall i | 0 <= i < |ws| :: Shows(t, k, at[i], ws[i], host)
  }

  lemma {:induction false} PendingShow(t: Tables, k: CkptKey, at: seq<Position>, host: Host)
    requires WritesDecode(t, k, host) && forall i | 0 <= i < |at| :: WriteKey(k.thread, k.ns, k.id, at[i]) in t.writes
    ensures AllShow(t, k, at, PendingWrites(t, k, at, host), host)
    decreases |at|
  {
    if at != [] {
      PendingShow(t, k, at[1..], host);
      var row := t.writes[WriteKey(k.thread, k.ns, k.id, at[0])];
      DecodeReads(row.value, host);
      assert PendingWrites(t, k, at, host) == [WriteOf(at[0], row, host)] + PendingWrites(t, k, at[1..], host);
    }
  }

  /**
    The writes of any reply are the write rows of its checkpoint, one for one, in ascending order
    of task and index, each with its row's task, channel and value.
  */
  lemma ReplyWrites(t: Tables, thread: string, ns: string, id: Option<Uuid>, host: Host) returns (at: seq<Position>)
    requires GetTuple(t, thread, ns, id, host).Got?
    ensures var tuple := GetTuple(t, thread, ns, id, host).tuple;
            && InOrder(at) && RowsAt(t, thread, ns, tuple.checkpoint.id, None, at)
            && AllShow(t, CkptKey(thread, ns, tuple.checkpoint.id), at, tuple.writes, host)
  {
    GotIs(t, thread, ns, id, host);
    var k := CkptKey(thread, ns, GetTuple(t, thread, ns, id, host).tuple.checkpoint.id);
    at := OrderedWrites(t, k.thread, k.ns, k.id, None);
    OrderedAre(t, k.thread, k.ns, k.id, None);
    forall i | 0 <= i < |at| ensures WriteKey(k.thread, k.ns, k.id, at[i]) in t.writes {
      assert at[i] in at;
    }
    PendingShow(t, k, at, host);
  }

  // ------------------------------------------------------- a batch, read back

  /** The pending writes of one task, in order. */
  function OfTask(ws: seq<PendingWrite>, task: Uuid): seq<PendingWrite> {
    if ws == [] then [] else (if ws[0].task == task then [ws[0]] else []) + OfTask(ws[1..], task)
  }

  function At(at: seq<Position>, task: Uuid): seq<Position> {
    if at == [] then [] else (if at[0].task == task then [at[0]] else []) + At(at[1..], task)
  }

  lemma {:induction false} OfTaskShow(t: Tables, k: CkptKey, at: seq<Position>, ws: seq<PendingWrite>, task: Uuid, host: Host)
    requires AllShow(t, k, at, ws, host)
    ensures AllShow(t, k, At(at, task), OfTask(ws, task), host)
    decreases |at|
  {
    if at != [] {
      assert AllShow(t, k, at[1..], ws[1..], host) by {
        forall i | 0 <= i < |at[1..]| ensures Shows(t, k, at[1..][i], ws[1..][i], host) {
          assert Shows(t, k, at[i + 1], ws[i + 1], host);
        }
      }
      assert Shows(t, k, at[0], ws[0], host);
      OfTaskShow(t, k, at[1..], ws[1..], task, host);
    }
  }

  lemma {:induction false} AtMembers(at: seq<Position>, task: Uuid, p: Position)
    ensures p in At(at, task) <==> p in at && p.task == task
    decreases |at|
  {
    if at != [] {
      AtMembers(at[1..], task, p);
      assert p in at <==> p == at[0] || p in at[1..];
    }
  }

  lemma {:induction false} AtInOrder(at: seq<Position>, task: Uuid)
    requires InOrder(at)
    ensures InOrder(At(at, task))
    decreases |at|
  {
    if at != [] {
      var rest := At(at[1..], task);
      assert InOrder(at[1..]);
      AtInOrder(at[1..], task);
      forall p | p in rest ensures Before(at[0], p) {
        AtMembers(at[1..], task, p);
        var i :| 0 <= i < |at[1..]| && at[1..][i] == p;
        assert p == at[i + 1];
      }
      InOrderCons(at[0], rest);
    }
  }

  lemma InOrderCons(p: Position, rest: seq<Position>)
    requires InOrder(rest) && forall q | q in rest :: Before(p, q)
    ensures InOrder([p] + rest)
  {
    var at := [p] + rest;
    forall i, j | 0 <= i < j < |at| ensures Before(at[i], at[j]) {
      assert at[j] == rest[j - 1] && rest[j - 1] in rest;
      assert i > 0 ==> at[i] == rest[i - 1];
    }
  }

  /** Positions of one task in order, holding exactly the places 0 .. n - 1, are those places in turn. */
  lemma {:induction false} Enumerates(at: seq<Position>, task: Uuid, n: nat)
    requires InOrder(at) && forall p :: p in at <==> p.task == task && 0 <= p.idx < n
    ensures |at| == n && forall i | 0 <= i < n :: at[i] == Position(task, i)
    decreases n
  {
    if n > 0 {
      var top := Position(task, n - 1);
      assert top in at;
      var j :| 0 <= j < |at| && at[j] == top;
      LastIs(at, j, task, n);
      var front := at[..|at| - 1];
      forall p ensures p in front <==> p.task == task && 0 <= p.idx < n - 1 {
        FrontMembers(at, p);
      }
      Enumerates(front, task, n - 1);
      assert forall i | 0 <= i < |front| :: at[i] == front[i];
    } else {
      NoMembers(at);
    }
  }

  lemma NoMembers(at: seq<Position>)
    requires forall p :: p !in at
    ensures at == []
  {
    FirstIn(at);
  }

  lemma FirstIn(at: seq<Position>)
    ensures at != [] ==> at[0] in at
  {
  }

  lemma InOrderAt(at: seq<Position>, i: nat, j: nat)
    requires InOrder(at)
    ensures i < j < |at| ==> Before(at[i], at[j])
  {
  }

  /** The greatest place stands last. */
  lemma LastIs(at: seq<Position>, j: nat, task: Uuid, n: nat)
    requires InOrder(at) && n > 0 && forall p :: p in at <==> p.task == task && 0 <= p.idx < n
    requires j < |at| && at[j] == Position(task, n - 1)
    ensures j == |at| - 1
  {
    var last := |at| - 1;
    assert at[last] in at;
    InOrderAt(at, j, last);
  }

  lemma FrontMembers(at: seq<Position>, p: Position)
    requires InOrder(at) && at != []
    ensures p in at[..|at| - 1] <==> p in at && p != at[|at| - 1]
  {
    var front, last := at[..|at| - 1], at[|at| - 1];
    assert at == front + [last];
    if p in front {
      var i :| 0 <= i < |front| && front[i] == p;
      assert Before(at[i], last);
    }
  }

  /** The channels that have a place of their own and so overwrite. */
  predicate Ordinary(channel: string) {
    channel !in {"__error__", "__scheduled__", "__interrupt__", "__resume__"}
  }

  /** A value that was sent reads back: itself, an empty one if unset, unmarshalled under the reserved encoding. */
  ghost predicate ComesBackAs(sent: ChannelValue, read: ChannelValue, host: Host) {
    if sent.Unset? then read == Serialized(Payload("", []))
    else if sent.Serialized? && sent.payload.encoding == "__lsd_channel_value_pb__" then host.unmarshal(sent.payload.bytes) == Some(read)
    else read == sent
  }

  lemma OrdinaryKeys(req: WritesRequest, i: nat)
    requires i < |req.writes| && Ordinary(req.writes[i].channel)
    ensures WriteKeyAt(req, i) == WriteKey(req.thread, req.ns, req.id, Position(req.task, i))
  {
  }

  /** The rows of an ordinary batch for a task that had none. */
  lemma {:induction false} OrdinaryRows(ws: map<WriteKey, WriteRow>, req: WritesRequest, n: nat, host: Host)
    requires n <= |req.writes| && forall i | 0 <= i < |req.writes| :: Ordinary(req.writes[i].channel)
    requires forall w | w in ws :: !(w.thread == req.thread && w.ns == req.ns && w.id == req.id && w.at.task == req.task)
    ensures var ws' := InsertWrites(ws, req, n, host);
            && (forall j: int :: WriteKey(req.thread, req.ns, req.id, Position(req.task, j)) in ws' <==> 0 <= j < n)
            && (forall j | 0 <= j < n :: ws'[WriteKey(req.thread, req.ns, req.id, Position(req.task, j))] == WriteRowAt(req, j, host))
  {
    if n > 0 {
      OrdinaryRows(ws, req, n - 1, host);
      OrdinaryKeys(req, n - 1);
    }
  }

  lemma TaskAt(t: Tables, req: WritesRequest, host: Host, at: seq<Position>)
    requires forall i | 0 <= i < |req.writes| :: Ordinary(req.writes[i].channel)
    requires forall w | w in t.writes :: !(w.thread == req.thread && w.ns == req.ns && w.id == req.id && w.at.task == req.task)
    requires InOrder(at) && RowsAt(PutWrites(t, req, host), req.thread, req.ns, req.id, None, at)
    ensures |At(at, req.task)| == |req.writes|
    ensures forall i | 0 <= i < |req.writes| :: At(at, req.task)[i] == Position(req.task, i)
  {
    OrdinaryRows(t.writes, req, |req.writes|, host);
    AtInOrder(at, req.task);
    forall p ensures p in At(at, req.task) <==> p.task == req.task && 0 <= p.idx < |req.writes| {
      AtMembers(at, req.task, p);
      assert p == Position(p.task, p.idx);
    }
    Enumerates(At(at, req.task), req.task, |req.writes|);
  }

  /**
    After a batch of ordinary channels for a task that had no writes, a reply shows for that task
    exactly the batch: its channels and values, in batch order.
  */
  lemma BatchComesBack(t: Tables, req: WritesRequest, host: Host)
    requires Faithful(host)
    requires forall i | 0 <= i < |req.writes| :: Ordinary(req.writes[i].channel)
    requires forall w | w in t.writes :: !(w.thread == req.thread && w.ns == req.ns && w.id == req.id && w.at.task == req.task)
    requires GetTuple(PutWrites(t, req, host), req.thread, req.ns, Some(req.id), host).Got?
    ensures var ws := OfTask(GetTuple(PutWrites(t, req, host), req.thread, req.ns, Some(req.id), host).tuple.writes, req.task);
            && |ws| == |req.writes|
            && forall i | 0 <= i < |ws| :: ws[i].channel == req.writes[i].channel && ComesBackAs(req.writes[i].value, ws[i].value, host)
  {
    var t' := PutWrites(t, req, host);
    var k := CkptKey(req.thread, req.ns, req.id);
    var at := ReplyWrites(t', req.thread, req.ns, Some(req.id), host);
    var all := GetTuple(t', req.thread, req.ns, Some(req.id), host).tuple.writes;
    GotIs(t', req.thread, req.ns, Some(req.id), host);
    OfTaskShow(t', k, at, all, req.task, host);
    TaskAt(t, req, host, at);
    OrdinaryRows(t.writes, req, |req.writes|, host);
    forall i | 0 <= i < |req.writes|
      ensures OfTask(all, req.task)[i].channel == req.writes[i].channel && ComesBackAs(req.writes[i].value, OfTask(all, req.task)[i].value, host)
    {
      assert Shows(t', k, At(at, req.task)[i], OfTask(all, req.task)[i], host);
      EncodedReads(req.writes[i].value, OfTask(all, req.task)[i].value, host);
    }
  }

  lemma EncodedReads(sent: ChannelValue, read: ChannelValue, host: Host)
    requires Faithful(host) && ReadsTo(Encode(sent, host), read, host)
    ensures ComesBackAs(sent, read, host)
  {
    DecodeReads(Encode(sent, host), host);
    EncodedDecodes(sent, host);
  }

  /** What one write of a batch does: four channels overwrite at their own place, any other keeps what is there. */
  lemma OneWrite(t: Tables, req: WritesRequest, host: Host)
    requires |req.writes| == 1
    ensures var c, row := req.writes[0].channel, WriteRow(req.writes[0].channel, Encode(req.writes[0].value, host), req.taskPath);
            var place := if c == "__error__" then -1 else if c == "__scheduled__" then -2
                         else if c == "__interrupt__" then -3 else if c == "__resume__" then -4 else 0;
            var w := WriteKey(req.thread, req.ns, req.id, Position(req.task, place));
            PutWrites(t, req, host) == if place == 0 && w in t.writes then t else t.(writes := t.writes[w := row])
  {
    assert InsertWrites(t.writes, req, 0, host) == t.writes;
  }

  // ------------------------------------------------------------ channel values

  /** The blob stored for a channel at the version the checkpoint document lists, unless it is an empty one. */
  ghost predicate ListedBlob(t: Tables, k: CkptKey, c: string, p: Payload)
    requires k in t.checkpoints
  {
    var doc := t.checkpoints[k].checkpoint;
    && "channel_versions" in doc && doc["channel_versions"].JObj?
    && c in doc["channel_versions"].fields && doc["channel_versions"].fields[c].JStr?
    && var b := BlobKey(k.thread, k.ns, c, doc["channel_versions"].fields[c].s);
       b in t.blobs && t.blobs[b] == p && p.encoding != "empty"
  }

  lemma BlobOfIs(t: Tables, k: CkptKey, c: string)
    requires k in t.checkpoints
    ensures forall p :: BlobOf(t, k, c) == Some(p) <==> ListedBlob(t, k, c, p)
  {
  }

  /** A channel shows what its listed blob reads as, and is absent when it has none. */
  ghost predicate ShowsBlob(t: Tables, k: CkptKey, c: string, values: map<string, ChannelValue>, host: Host)
    requires k in t.checkpoints
  {
    && (c in values <==> exists p :: ListedBlob(t, k, c, p))
    && (forall p | ListedBlob(t, k, c, p) :: c in values && ReadsTo(p, values[c], host))
  }

  lemma BlobShown(t: Tables, k: CkptKey, c: string, host: Host)
    requires k in t.checkpoints && Readable(t, k, host) && NotOverlaid(t, k, c, host)
    ensures ShowsBlob(t, k, c, ChannelValues(t, k, host), host)
  {
    BlobOfIs(t, k, c);
    ValueRead(t, k, c, host);
    if BlobOf(t, k, c).Some? {
      assert ListedBlob(t, k, c, BlobOf(t, k, c).value);
      DecodeReads(BlobOf(t, k, c).value, host);
      assert c in VersionsIn(t.checkpoints[k].checkpoint);
    }
  }

  /** The value any reply shows for a channel other than the sends' is its blob's. */
  lemma ReplyValue(t: Tables, thread: string, ns: string, id: Option<Uuid>, host: Host, c: string)
    requires GetTuple(t, thread, ns, id, host).Got? && c != "__pregel_tasks"
    ensures var tuple := GetTuple(t, thread, ns, id, host).tuple;
            var k := CkptKey(thread, ns, tuple.checkpoint.id);
            k in t.checkpoints && ShowsBlob(t, k, c, tuple.checkpoint.channelValues, host)
  {
    GotIs(t, thread, ns, id, host);
    BlobShown(t, CkptKey(thread, ns, GetTuple(t, thread, ns, id, host).tuple.checkpoint.id), c, host);
  }

  // -------------------------------------------------------------- rebuilt sends

  function Concat(chunks: seq<seq<Send>>): seq<Send> {
    if chunks == [] then [] else chunks[0] + Concat(chunks[1..])
  }

  /** What one stored task write contributes: its list of sends, or one send without a node for a plain value. */
  ghost predicate Contributes(p: Payload, chunk: seq<Send>, host: Host) {
    exists cv :: ReadsTo(p, cv, host) &&
      match cv
      case Sends(ss) => chunk == ss
      case Serialized(v) => chunk == [Send("", Some(v))]
      case Unset => chunk == []
      case MissingValue => chunk == []
  }

  ghost predicate AllContribute(t: Tables, thread: string, ns: string, id: Uuid, at: seq<Position>, chunks: seq<seq<Send>>, host: Host) {
    && |chunks| == |at|
    && forall i | 0 <= i < |at| ::
         var w := WriteKey(thread, ns, id, at[i]);
         w in t.writes && Contributes(t.writes[w].value, chunks[i], host)
  }

  lemma {:induction false} SendsAreChunks(t: Tables, thread: string, ns: string, id: Uuid, at: seq<Position>, host: Host) returns (chunks: seq<seq<Send>>)
    requires AllDecode(SendPayloads(t, thread, ns, id, at), host)
    requires forall i | 0 <= i < |at| :: WriteKey(thread, ns, id, at[i]) in t.writes
    ensures AllContribute(t, thread, ns, id, at, chunks, host)
    ensures FlatSends(SendPayloads(t, thread, ns, id, at), host) == Concat(chunks)
    decreases |at|
  {
    if at == [] {
      chunks := [];
    } else {
      var p := t.writes[WriteKey(thread, ns, id, at[0])].value;
      var all, tail := SendPayloads(t, thread, ns, id, at), SendPayloads(t, thread, ns, id, at[1..]);
      assert all == [p] + tail;
      assert p in all && forall q | q in tail :: q in all;
      var rest := SendsAreChunks(t, thread, ns, id, at[1..], host);
      var chunk := SendsOf(Decode(p, host).value);
      ChunkIs(p, host);
      chunks := [chunk] + rest;
      assert all[1..] == tail && chunks[1..] == rest;
      AllContributeCons(t, thread, ns, id, at, chunk, rest, host);
    }
  }

  lemma AllContributeCons(t: Tables, thread: string, ns: string, id: Uuid, at: seq<Position>, chunk: seq<Send>, rest: seq<seq<Send>>, host: Host)
    requires at != [] && AllContribute(t, thread, ns, id, at[1..], rest, host)
    requires var w := WriteKey(thread, ns, id, at[0]); w in t.writes && Contributes(t.writes[w].value, chunk, host)
    ensures AllContribute(t, thread, ns, id, at, [chunk] + rest, host)
  {
    forall i | 0 <= i < |at|
      ensures var w := WriteKey(thread, ns, id, at[i]); w in t.writes && Contributes(t.writes[w].value, ([chunk] + rest)[i], host)
    {
      if i > 0 {
        assert at[i] == at[1..][i - 1] && ([chunk] + rest)[i] == rest[i - 1];
      }
    }
  }

  lemma ChunkIs(p: Payload, host: Host)
    requires Decode(p, host).Some?
    ensures Contributes(p, SendsOf(Decode(p, host).value), host)
  {
    DecodeReads(p, host);
    var cv := Decode(p, host).value;
    assert ReadsTo(p, cv, host);
  }

  /**
    The sends of any reply: the contributions of the parent's `__pregel_tasks` rows, in ascending
    order of task and index, put together. If there are any, they are what the reply shows for
    that channel; otherwise it shows the channel's blob.
  */
  lemma ReplySends(t: Tables, thread: string, ns: string, id: Option<Uuid>, host: Host) returns (at: seq<Position>, chunks: seq<seq<Send>>)
    requires GetTuple(t, thread, ns, id, host).Got?
    ensures var tuple := GetTuple(t, thread, ns, id, host).tuple;
            var values := tuple.checkpoint.channelValues;
            && (tuple.parent == None ==> at == [])
            && (tuple.parent.Some? ==> InOrder(at) && RowsAt(t, thread, ns, tuple.parent.value, Some("__pregel_tasks"), at)
                                       && AllContribute(t, thread, ns, tuple.parent.value, at, chunks, host))
            && (at == [] ==> chunks == [])
            && CkptKey(thread, ns, tuple.checkpoint.id) in t.checkpoints
            && (if Concat(chunks) != [] then "__pregel_tasks" in values && values["__pregel_tasks"] == Sends(Concat(chunks))
                else ShowsBlob(t, CkptKey(thread, ns, tuple.checkpoint.id), "__pregel_tasks", values, host))
  {
    GotIs(t, thread, ns, id, host);
    var tuple := GetTuple(t, thread, ns, id, host).tuple;
    var k := CkptKey(thread, ns, tuple.checkpoint.id);
    match tuple.parent {
      case None => at, chunks := [], [];
      case Some(parent) =>
        at := OrderedWrites(t, thread, ns, parent, Some(TASKS));
        OrderedAre(t, thread, ns, parent, Some(TASKS));
        forall i | 0 <= i < |at| ensures WriteKey(thread, ns, parent, at[i]) in t.writes {
          assert at[i] in at;
        }
        assert PendingSends(t, k) == SendPayloads(t, thread, ns, parent, at);
        chunks := SendsAreChunks(t, thread, ns, parent, at, host);
    }
    if Concat(chunks) == [] {
      BlobShown(t, k, "__pregel_tasks", host);
    }
  }

  // ------------------------------------------------------------------- listings

  /** The checkpoint is one the listing asks for. */
  predicate Asked(t: Tables, thread: string, ns: string, before: Option<Uuid>, filter: Option<Json>, i: Uuid) {
    var k := CkptKey(thread, ns, i);
    && k in t.checkpoints
    && (before.Some? ==> i < before.value)
    && (filter.Some? ==> Contains(JObj(t.checkpoints[k].metadata), filter.value))
  }

  lemma IdsAre(t: Tables, thread: string, ns: string, before: Option<Uuid>, filter: Option<Json>, i: Uuid)
    ensures i in Ids(t, thread, ns, before, filter) <==> Asked(t, thread, ns, before, filter, i)
  {
    var k := CkptKey(thread, ns, i);
    assert i in Ids(t, thread, ns, before, filter) <==>
             k in t.checkpoints && (before.Some? ==> i < before.value)
             && (filter.Some? ==> Contains(JObj(t.checkpoints[k].metadata), filter.value));
  }

  /** The tuples are those of the ids, one by one. */
  ghost predicate TuplesAt(t: Tables, thread: string, ns: string, ids: seq<Uuid>, tuples: seq<Tuple>, host: Host) {
    |tuples| == |ids| && forall i | 0 <= i < |ids| :: GetTuple(t, thread, ns, Some(ids[i]), host) == Got(tuples[i])
  }

  lemma {:induction false} TuplesAre(t: Tables, thread: string, ns: string, ids: seq<Uuid>, host: Host)
    ensures var r := Tuples(t, thread, ns, ids, host);
            && (r.Listed? <==> forall i | 0 <= i < |ids| :: GetTuple(t, thread, ns, Some(ids[i]), host).Got?)
            && (r.Listed? ==> TuplesAt(t, thread, ns, ids, r.tuples, host))
    decreases |ids|
  {
    if ids != [] {
      TuplesAre(t, thread, ns, ids[1..], host);
      RepliesCons(t, thread, ns, ids, host);
      assert forall i | 0 < i < |ids| :: ids[i] == ids[1..][i - 1];
    }
  }

  /** One more id in front. */
  lemma RepliesCons(t: Tables, thread: string, ns: string, ids: seq<Uuid>, host: Host)
    requires ids != []
    ensures var one, more := GetTuple(t, thread, ns, Some(ids[0]), host), Tuples(t, thread, ns, ids[1..], host);
            Tuples(t, thread, ns, ids, host) == if one.Got? && more.Listed? then Listed([one.tuple] + more.tuples) else ListFailed
  {
    assert Replies(t, thread, ns, ids, host)[1..] == Replies(t, thread, ns, ids[1..], host);
  }

  /**
    A listing without limit holds the tuple of every checkpoint asked for, newest first, each as
    a lookup by its id answers it; it fails exactly when one of those lookups does.
  */
  lemma ListAnswers(t: Tables, thread: string, ns: string, before: Option<Uuid>, filter: Option<Json>, host: Host) returns (ids: seq<Uuid>)
    ensures forall i, j | 0 <= i < j < |ids| :: ids[i] > ids[j]
    ensures forall i :: i in ids <==> Asked(t, thread, ns, before, filter, i)
    ensures var r := List(t, thread, ns, before, None, filter, host);
            && (r.Listed? <==> forall i | i in ids :: GetTuple(t, thread, ns, Some(i), host).Got?)
            && (r.Listed? ==> TuplesAt(t, thread, ns, ids, r.tuples, host))
  {
    ids := Listing(t, thread, ns, before, filter);
    ListingDescends(t, thread, ns, before, filter);
    TuplesAre(t, thread, ns, ids, host);
  }

  lemma ListingDescends(t: Tables, thread: string, ns: string, before: Option<Uuid>, filter: Option<Json>)
    ensures var ids := Listing(t, thread, ns, before, filter);
            && (forall i, j | 0 <= i < j < |ids| :: ids[i] > ids[j])
            && (forall i :: i in ids <==> Asked(t, thread, ns, before, filter, i))
  {
    Orders();
    var s, ids := Ids(t, thread, ns, before, filter), Listing(t, thread, ns, before, filter);
    forall i, j | 0 <= i < j < |ids| ensures ids[i] > ids[j] {
      SortedAscends(s, Descending, i, j);
    }
    forall i ensures i in ids <==> Asked(t, thread, ns, before, filter, i) {
      IdsAre(t, thread, ns, before, filter, i);
    }
  }

  lemma LimitIs(t: Tables, thread: string, ns: string, before: Option<Uuid>, filter: Option<Json>, limit: nat)
    ensures var ids := Listing(t, thread, ns, before, filter);
            Page(t, thread, ns, before, Some(limit), filter) == ids[..if limit < |ids| then limit else |ids|]
  {
  }

  /**
    A limited listing answers the first tuples of the unlimited one, as many as the limit allows;
    a negative limit is refused.
  */
  lemma LimitedList(t: Tables, thread: string, ns: string, before: Option<Uuid>, filter: Option<Json>, host: Host, limit: int)
    ensures var all, r := List(t, thread, ns, before, None, filter, host), List(t, thread, ns, before, Some(limit), filter, host);
            && (limit < 0 ==> r == ListFailed)
            && (limit >= 0 && all.Listed? ==> r == Listed(all.tuples[..if limit < |all.tuples| then limit else |all.tuples|]))
  {
    if limit >= 0 {
      var ids := Listing(t, thread, ns, before, filter);
      var n := if limit < |ids| then limit else |ids|;
      LimitIs(t, thread, ns, before, filter, limit);
      TuplesAre(t, thread, ns, ids, host);
      TuplesAre(t, thread, ns, ids[..n], host);
      if List(t, thread, ns, before, None, filter, host).Listed? {
        SameTuples(t, thread, ns, ids, n, host);
      }
    }
  }

  lemma SameTuples(t: Tables, thread: string, ns: string, ids: seq<Uuid>, n: nat, host: Host)
    requires n <= |ids| && Tuples(t, thread, ns, ids, host).Listed?
    ensures |Tuples(t, thread, ns, ids, host).tuples| == |ids|
    ensures Tuples(t, thread, ns, ids[..n], host) == Listed(Tuples(t, thread, ns, ids, host).tuples[..n])
  {
    TuplesAre(t, thread, ns, ids, host);
    TuplesAre(t, thread, ns, ids[..n], host);
    var all, some := Tuples(t, thread, ns, ids, host).tuples, Tuples(t, thread, ns, ids[..n], host);
    assert forall i | 0 <= i < n :: ids[..n][i] == ids[i];
    assert forall i | 0 <= i < n :: GetTuple(t, thread, ns, Some(ids[i]), host) == Got(all[i]);
    assert some.tuples == all[..n];
  }

  function Greater(s: set<Uuid>, x: Uuid): set<Uuid> {
    set j | j in s && j > x
  }

  /** How many checkpoints asked for are newer. */
  ghost function Newer(t: Tables, thread: string, ns: string, before: Option<Uuid>, filter: Option<Json>, i: Uuid): nat {
    |Greater(Ids(t, thread, ns, before, filter), i)|
  }

  lemma NewerIs(t: Tables, thread: string, ns: string, before: Option<Uuid>, filter: Option<Json>, n: nat)
    requires n < |Listing(t, thread, ns, before, filter)|
    ensures Newer(t, thread, ns, before, filter, Listing(t, thread, ns, before, filter)[n]) == n
  {
    ListingDescends(t, thread, ns, before, filter);
    forall i ensures i in Ids(t, thread, ns, before, filter) <==> i in Listing(t, thread, ns, before, filter) {
      IdsAre(t, thread, ns, before, filter, i);
    }
    Rank(Listing(t, thread, ns, before, filter), Ids(t, thread, ns, before, filter), n);
  }

  /** In a descending listing of a set, n elements are greater than the one at place n. */
  lemma Rank(ids: seq<Uuid>, s: set<Uuid>, n: nat)
    requires (forall i, j | 0 <= i < j < |ids| :: ids[i] > ids[j]) && (forall i :: i in s <==> i in ids) && n < |ids|
    ensures |Greater(s, ids[n])| == n
  {
    var first := ids[..n];
    var greater := Greater(s, ids[n]);
    forall j ensures j in greater <==> j in first {
      if j in greater {
        var m :| 0 <= m < |ids| && ids[m] == j;
        assert m < n;
        assert first[m] == j;
      }
      if j in first {
        var m :| 0 <= m < n && first[m] == j;
        assert ids[m] == j;
      }
    }
    DistinctCount(first, greater);
  }

  lemma {:induction false} DistinctCount(ids: seq<Uuid>, s: set<Uuid>)
    requires forall i, j | 0 <= i < j < |ids| :: ids[i] > ids[j]
    requires forall i :: i in s <==> i in ids
    ensures |s| == |ids|
    decreases |ids|
  {
    if ids == [] {
      assert s == {};
    } else {
      var rest := ids[1..];
      forall i ensures i in s - {ids[0]} <==> i in rest {
        assert i in ids <==> i == ids[0] || i in rest;
        assert ids[0] !in rest;
      }
      DistinctCount(rest, s - {ids[0]});
      assert ids[0] in s;
    }
  }

  /** A checkpoint asked for, among the first `limit`, that cannot be read. */
  ghost predicate Spoils(t: Tables, thread: string, ns: string, before: Option<Uuid>, filter: Option<Json>, host: Host, limit: nat, i: Uuid) {
    && Asked(t, thread, ns, before, filter, i) && Newer(t, thread, ns, before, filter, i) < limit
    && !GetTuple(t, thread, ns, Some(i), host).Got?
  }

  /** A checkpoint asked for is within the limit exactly when it is on the page. */
  lemma OnPage(t: Tables, thread: string, ns: string, before: Option<Uuid>, filter: Option<Json>, limit: nat, i: Uuid)
    ensures i in Page(t, thread, ns, before, Some(limit), filter) <==>
            Asked(t, thread, ns, before, filter, i) && Newer(t, thread, ns, before, filter, i) < limit
  {
    var ids, page := Listing(t, thread, ns, before, filter), Page(t, thread, ns, before, Some(limit), filter);
    LimitIs(t, thread, ns, before, filter, limit);
    ListingDescends(t, thread, ns, before, filter);
    if i in ids {
      var n :| 0 <= n < |ids| && ids[n] == i;
      NewerIs(t, thread, ns, before, filter, n);
      assert n < limit ==> page[n] == i;
      if i in page {
        var m :| 0 <= m < |page| && page[m] == i;
        assert ids[m] == ids[n];
      }
    }
  }

  /** A limited listing fails exactly when one of the first checkpoints asked for, within the limit, cannot be read. */
  lemma LimitedListFails(t: Tables, thread: string, ns: string, before: Option<Uuid>, filter: Option<Json>, host: Host, limit: nat)
    ensures List(t, thread, ns, before, Some(limit), filter, host) == ListFailed <==>
            exists i :: Spoils(t, thread, ns, before, filter, host, limit, i)
  {
    var page := Page(t, thread, ns, before, Some(limit), filter);
    TuplesAre(t, thread, ns, page, host);
    if n :| 0 <= n < |page| && !GetTuple(t, thread, ns, Some(page[n]), host).Got? {
      OnPage(t, thread, ns, before, filter, limit, page[n]);
      assert Spoils(t, thread, ns, before, filter, host, limit, page[n]);
    }
    if i :| Spoils(t, thread, ns, before, filter, host, limit, i) {
      OnPage(t, thread, ns, before, filter, limit, i);
    }
  }

  // ---------------------------------------------------------------- puts by key

  /** The put sends a serialized value for the channel, under its new version, or "" if it has none. */
  predicate SentAs(req: PutRequest, k: BlobKey) {
    && k.thread == req.thread && k.ns == req.ns
    && k.channel in req.checkpoint.channelValues && req.checkpoint.channelValues[k.channel].Serialized?
    && k.version == if k.channel in req.newVersions then req.newVersions[k.channel] else ""
  }

  lemma SentBlobs(req: PutRequest)
    ensures forall k :: k in NewBlobs(req) <==> SentAs(req, k)
    ensures forall k | k in NewBlobs(req) :: NewBlobs(req)[k] == req.checkpoint.channelValues[k.channel].payload
  {
    forall k: BlobKey | SentAs(req, k) ensures k in NewBlobs(req) {
      assert k == NewBlobKey(req, k.channel);
    }
  }

  /** What a put leaves, key by key: one checkpoint row, the blobs sent under free keys, and all else as it was. */
  lemma PutOutcome(t: Tables, req: PutRequest, host: Host, k: CkptKey, b: BlobKey)
    ensures var t', put := Put(t, req, host), CkptKey(req.thread, req.ns, req.checkpoint.id);
            && (k in t'.checkpoints <==> k in t.checkpoints || k == put)
            && (k in t.checkpoints && k != put ==> t'.checkpoints[k] == t.checkpoints[k])
            && (b in t'.blobs <==> b in t.blobs || SentAs(req, b))
            && (b in t'.blobs ==> t'.blobs[b] == if b in t.blobs then t.blobs[b] else req.checkpoint.channelValues[b.channel].payload)
            && t'.writes == t.writes
  {
    SentBlobs(req);
  }

  // ------------------------------------------------------------- recorded runs

  /** The run a first put records is in `runs`: the config's, or if that is empty the metadata's; an empty one is none. */
  predicate RecordedRunIn(req: PutRequest, runs: seq<string>) {
    if req.configRun != "" then req.configRun in runs
    else req.metadata.Some? && req.metadata.value.runId != "" && req.metadata.value.runId in runs
  }

  /**
    From the first put of a checkpoint on, through any puts, writes and copies, and puts of it
    again, deleting by runs removes it exactly when the run the first put recorded is listed.
  */
  lemma FirstRunDecides(t: Tables, req: PutRequest, ops: seq<Op>, runs: seq<string>, host: Host)
    requires CkptKey(req.thread, req.ns, req.checkpoint.id) !in t.checkpoints
    requires forall op | op in ops :: Grows(op)
    ensures var t' := Run(Put(t, req, host), ops, host);
            CkptKey(req.thread, req.ns, req.checkpoint.id) in DeleteForRuns(t', runs).checkpoints <==> !RecordedRunIn(req, runs)
  {
    RunExtends(Put(t, req, host), ops, host);
    FirstRun(t, req, host);
  }

  lemma FirstRun(t: Tables, req: PutRequest, host: Host)
    requires CkptKey(req.thread, req.ns, req.checkpoint.id) !in t.checkpoints
    ensures var k, t' := CkptKey(req.thread, req.ns, req.checkpoint.id), Put(t, req, host);
            && k in t'.checkpoints
            && t'.checkpoints[k].run == if req.configRun != "" then req.configRun
                                        else if req.metadata.Some? then req.metadata.value.runId else ""
  {
  }

  /** For a checkpoint already stored, the run recorded before decides. */
  lemma StoredRunDecides(t: Tables, req: PutRequest, runs: seq<string>, host: Host)
    requires CkptKey(req.thread, req.ns, req.checkpoint.id) in t.checkpoints
    ensures var k := CkptKey(req.thread, req.ns, req.checkpoint.id);
            k in DeleteForRuns(Put(t, req, host), runs).checkpoints <==>
            !(t.checkpoints[k].run != "" && t.checkpoints[k].run in runs)
  {
    PutExtends(t, req, host);
  }
}
