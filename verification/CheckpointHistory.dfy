/** What a reader of the checkpoint tables can rely on across every later run of requests. */
module CheckpointHistory {
  import opened Json
  import opened Ordering
  import opened Checkpoints

  datatype Op =
    | PutOp(put: PutRequest)
    | WritesOp(batch: WritesRequest)
    | CopyOp(from: string, to: string)
    | DeleteThreadOp(thread: string)
    | DeleteRunsOp(runs: seq<string>)
    | PruneOp(threads: seq<string>, strategy: int)

  function Step(t: Tables, op: Op, host: Host): Tables {
    match op
    case PutOp(req) => Put(t, req, host)
    case WritesOp(req) => PutWrites(t, req, host)
    case CopyOp(from, to) => CopyThread(t, from, to)
    case DeleteThreadOp(thread) => DeleteThread(t, thread)
    case DeleteRunsOp(runs) => DeleteForRuns(t, runs)
    case PruneOp(threads, strategy) => Prune(t, threads, strategy).0
  }

  function Run(t: Tables, ops: seq<Op>, host: Host): Tables
    decreases |ops|
  {
    if ops == [] then t else Run(Step(t, ops[0], host), ops[1..], host)
  }

  /** Requests that add checkpoints and writes, and delete nothing. */
  predicate Grows(op: Op) {
    op.PutOp? || op.WritesOp? || op.CopyOp?
  }

  // -------------------------------------------------- the index of a write row

  /** A sentinel channel has its fixed negative index; any other channel a non-negative one. */
  predicate Proper(idx: int, channel: string) {
    if channel in SENTINELS then idx == SENTINELS[channel] else idx >= 0
  }

  ghost predicate ProperWrites(ws: map<WriteKey, WriteRow>) {
    forall k | k in ws :: Proper(k.at.idx, ws[k].channel)
  }

  lemma {:induction false} InsertWritesProper(ws: map<WriteKey, WriteRow>, req: WritesRequest, n: nat, host: Host)
    requires ProperWrites(ws) && n <= |req.writes|
    ensures ProperWrites(InsertWrites(ws, req, n, host))
  {
    if n > 0 {
      InsertWritesProper(ws, req, n - 1, host);
    }
  }

  lemma StepProper(t: Tables, op: Op, host: Host)
    requires ProperWrites(t.writes)
    ensures ProperWrites(Step(t, op, host).writes)
  {
    match op
    case WritesOp(req) => InsertWritesProper(t.writes, req, |req.writes|, host);
    case _ =>
  }

  /** In every reachable state the index of a write row fits its channel. */
  lemma {:induction false} RunProper(t: Tables, ops: seq<Op>, host: Host)
    requires ProperWrites(t.writes)
    ensures ProperWrites(Run(t, ops, host).writes)
    decreases |ops|
  {
    if ops != [] {
      StepProper(t, ops[0], host);
      RunProper(Step(t, ops[0], host), ops[1..], host);
    }
  }

  /** Hence a negative index belongs to one sentinel channel, whatever task or checkpoint wrote it. */
  lemma NegativeIndexNamesItsChannel(ws: map<WriteKey, WriteRow>, k: WriteKey, k': WriteKey)
    requires ProperWrites(ws) && k in ws && k' in ws && k.at.idx == k'.at.idx && k.at.idx < 0
    ensures ws[k].channel in SENTINELS && SENTINELS[ws[k].channel] == k.at.idx && ws[k'].channel == ws[k].channel
  {
    assert Proper(k.at.idx, ws[k].channel) && Proper(k'.at.idx, ws[k'].channel);
    SentinelsDiffer(ws[k].channel, ws[k'].channel);
  }

  lemma SentinelsDiffer(c: string, c': string)
    requires c in SENTINELS && c' in SENTINELS && SENTINELS[c] == SENTINELS[c']
    ensures c == c'
  {
    assert SENTINELS.Keys == {"__error__", "__scheduled__", "__interrupt__", "__resume__"};
  }

  // --------------------------------------------------------- what never changes

  /** What a step or run keeps of a table state. */
  ghost predicate Extends(t: Tables, t': Tables) {
    && (forall b | b in t.blobs :: b in t'.blobs && t'.blobs[b] == t.blobs[b])
    && (forall w | w in t.writes :: w in t'.writes && (w.at.idx >= 0 ==> t'.writes[w] == t.writes[w]))
    && (forall k | k in t.checkpoints ::
          k in t'.checkpoints && t'.checkpoints[k].parent == t.checkpoints[k].parent && t'.checkpoints[k].run == t.checkpoints[k].run)
  }

  lemma {:induction false} InsertWritesKeeps(ws: map<WriteKey, WriteRow>, req: WritesRequest, n: nat, host: Host, w: WriteKey)
    requires n <= |req.writes| && w in ws
    ensures var ws' := InsertWrites(ws, req, n, host);
            w in ws' && (w.at.idx >= 0 ==> ws'[w] == ws[w])
  {
    if n > 0 {
      InsertWritesKeeps(ws, req, n - 1, host, w);
    }
  }

  lemma PutExtends(t: Tables, req: PutRequest, host: Host)
    ensures Extends(t, Put(t, req, host))
  {
  }

  lemma WritesExtend(t: Tables, req: WritesRequest, host: Host)
    ensures Extends(t, PutWrites(t, req, host))
  {
    forall w | w in t.writes
      ensures w in PutWrites(t, req, host).writes && (w.at.idx >= 0 ==> PutWrites(t, req, host).writes[w] == t.writes[w])
    {
      InsertWritesKeeps(t.writes, req, |req.writes|, host, w);
    }
  }

  lemma CopyExtends(t: Tables, from: string, to: string)
    ensures Extends(t, CopyThread(t, from, to))
  {
  }

  lemma StepExtends(t: Tables, op: Op, host: Host)
    requires Grows(op)
    ensures Extends(t, Step(t, op, host))
  {
    match op
    case PutOp(req) => PutExtends(t, req, host);
    case WritesOp(req) => WritesExtend(t, req, host);
    case CopyOp(from, to) => CopyExtends(t, from, to);
  }

  /**
    Along any run of puts, writes and copies: stored blobs and non-sentinel writes are final,
    sentinel writes stay present, and a checkpoint keeps its first parent and run id.
  */
  lemma {:induction false} RunExtends(t: Tables, ops: seq<Op>, host: Host)
    requires forall op | op in ops :: Grows(op)
    ensures Extends(t, Run(t, ops, host))
    decreases |ops|
  {
    if ops != [] {
      assert ops[0] in ops;
      StepExtends(t, ops[0], host);
      RunExtends(Step(t, ops[0], host), ops[1..], host);
    }
  }

  predicate Reputs(op: Op, k: CkptKey) {
    op.PutOp? && PutKey(op.put) == k
  }

  lemma {:induction false} UntouchedRow(t: Tables, ops: seq<Op>, host: Host, k: CkptKey)
    requires k in t.checkpoints
    requires forall op | op in ops :: Grows(op) && !Reputs(op, k)
    ensures k in Run(t, ops, host).checkpoints && Run(t, ops, host).checkpoints[k] == t.checkpoints[k]
    decreases |ops|
  {
    if ops != [] {
      assert ops[0] in ops;
      var t' := Step(t, ops[0], host);
      assert k in t'.checkpoints && t'.checkpoints[k] == t.checkpoints[k];
      UntouchedRow(t', ops[1..], host, k);
    }
  }

  /**
    While a checkpoint is not itself put again, every channel value it can read from a blob
    stays readable with the same bytes.
  */
  lemma {:induction false} BlobsAreFinal(t: Tables, ops: seq<Op>, host: Host, k: CkptKey, c: string)
    requires k in t.checkpoints && BlobOf(t, k, c).Some?
    requires forall op | op in ops :: Grows(op) && !Reputs(op, k)
    ensures k in Run(t, ops, host).checkpoints && BlobOf(Run(t, ops, host), k, c) == BlobOf(t, k, c)
    ensures c in ChannelValues(t, k, host) && c != TASKS ==>
              var t' := Run(t, ops, host);
              c in ChannelValues(t', k, host) && ChannelValues(t', k, host)[c] == ChannelValues(t, k, host)[c]
  {
    RunExtends(t, ops, host);
    UntouchedRow(t, ops, host, k);
    ValueStays(t, Run(t, ops, host), host, k, c);
  }

  /** The channel is not the one under which pending sends are shown, or there are none. */
  predicate NotOverlaid(t: Tables, k: CkptKey, c: string, host: Host)
    requires k in t.checkpoints
  {
    c != TASKS || FlatSends(PendingSends(t, k), host) == []
  }

  /** What a tuple shows for a channel without sends is what its blob reads as. */
  lemma ValueRead(t: Tables, k: CkptKey, c: string, host: Host)
    requires k in t.checkpoints && NotOverlaid(t, k, c, host)
    ensures c in ChannelValues(t, k, host) <==> BlobValue(t, k, c, host).Some?
    ensures c in ChannelValues(t, k, host) ==> ChannelValues(t, k, host)[c] == BlobValue(t, k, c, host).value
  {
    assert BlobValue(t, k, c, host).Some? ==> c in VersionsIn(t.checkpoints[k].checkpoint);
  }

  lemma BlobStays(t: Tables, t': Tables, k: CkptKey, c: string)
    requires k in t.checkpoints && BlobOf(t, k, c).Some? && Extends(t, t')
    requires k in t'.checkpoints && t'.checkpoints[k] == t.checkpoints[k]
    ensures BlobOf(t', k, c) == BlobOf(t, k, c)
  {
  }

  lemma ValueStays(t: Tables, t': Tables, host: Host, k: CkptKey, c: string)
    requires k in t.checkpoints && BlobOf(t, k, c).Some? && Extends(t, t')
    requires k in t'.checkpoints && t'.checkpoints[k] == t.checkpoints[k]
    ensures BlobOf(t', k, c) == BlobOf(t, k, c)
    ensures c in ChannelValues(t, k, host) && c != TASKS ==>
              c in ChannelValues(t', k, host) && ChannelValues(t', k, host)[c] == ChannelValues(t, k, host)[c]
  {
    BlobStays(t, t', k, c);
    if c != TASKS {
      ValueRead(t, k, c, host);
      ValueRead(t', k, c, host);
    }
  }

  // ------------------------------------------------------------- pending sends

  lemma {:induction false} SendPayloadsSub(t: Tables, t': Tables, thread: string, ns: string, id: Uuid, at: seq<Position>, at': seq<Position>)
    requires Sub(at, at')
    requires forall p | p in at ::
               var w := WriteKey(thread, ns, id, p); w in t.writes && w in t'.writes && t'.writes[w] == t.writes[w]
    ensures Sub(SendPayloads(t, thread, ns, id, at), SendPayloads(t', thread, ns, id, at'))
    decreases |at'|
  {
    if at != [] {
      assert at[0] in at;
      var rest := SendPayloads(t', thread, ns, id, at'[1..]);
      if at[0] == at'[0] && Sub(at[1..], at'[1..]) {
        SendPayloadsSub(t, t', thread, ns, id, at[1..], at'[1..]);
        var p := [t.writes[WriteKey(thread, ns, id, at[0])].value];
        SubPrepend(p, SendPayloads(t, thread, ns, id, at[1..]), rest);
      } else {
        SendPayloadsSub(t, t', thread, ns, id, at, at'[1..]);
        var w := WriteKey(thread, ns, id, at'[0]);
        SubPrepend(if w in t'.writes then [t'.writes[w].value] else [], SendPayloads(t, thread, ns, id, at), rest);
      }
    }
  }

  lemma {:induction false} FlatSendsSub(ps: seq<Payload>, qs: seq<Payload>, host: Host)
    requires Sub(ps, qs)
    ensures Sub(FlatSends(ps, host), FlatSends(qs, host))
    decreases |qs|
  {
    if ps != [] {
      var cv := Decode(qs[0], host);
      var head := if cv.Some? then SendsOf(cv.value) else [];
      if ps[0] == qs[0] && Sub(ps[1..], qs[1..]) {
        FlatSendsSub(ps[1..], qs[1..], host);
        SubPrepend(head, FlatSends(ps[1..], host), FlatSends(qs[1..], host));
      } else {
        FlatSendsSub(ps, qs[1..], host);
        SubPrepend(head, FlatSends(ps, host), FlatSends(qs[1..], host));
      }
    }
  }

  /**
    The sends rebuilt for a checkpoint only ever gain entries: along any run of puts, writes
    and copies, the earlier list is a subsequence of the later one.
  */
  lemma {:induction false} SendsOnlyGrow(t: Tables, ops: seq<Op>, host: Host, k: CkptKey)
    requires ProperWrites(t.writes) && k in t.checkpoints
    requires forall op | op in ops :: Grows(op)
    ensures k in Run(t, ops, host).checkpoints
    ensures Sub(PendingSends(t, k), PendingSends(Run(t, ops, host), k))
    ensures Sub(FlatSends(PendingSends(t, k), host), FlatSends(PendingSends(Run(t, ops, host), k), host))
  {
    RunExtends(t, ops, host);
    var t' := Run(t, ops, host);
    match t.checkpoints[k].parent
    case None =>
    case Some(parent) =>
      var s, s' := Positions(t, k.thread, k.ns, parent, Some(TASKS)), Positions(t', k.thread, k.ns, parent, Some(TASKS));
      forall p | p in s
        ensures p in s'
        ensures var w := WriteKey(k.thread, k.ns, parent, p); w in t.writes && w in t'.writes && t'.writes[w] == t.writes[w]
      {
        var w := WriteKey(k.thread, k.ns, parent, p);
        assert w in t.writes && Proper(w.at.idx, t.writes[w].channel);
      }
      Orders();
      SortedSub(s, s', ByTaskAndIndex);
      SendPayloadsSub(t, t', k.thread, k.ns, parent, Sorted(s, ByTaskAndIndex), Sorted(s', ByTaskAndIndex));
      FlatSendsSub(PendingSends(t, k), PendingSends(t', k), host);
  }

  // ------------------------------------------------------ repeating a batch

  /** The place in a batch that a key is last written from, or -1. */
  function LastIndex(req: WritesRequest, n: nat, k: WriteKey): int
    requires n <= |req.writes|
  {
    if n == 0 then -1 else if WriteKeyAt(req, n - 1) == k then n - 1 else LastIndex(req, n - 1, k)
  }

  /**
    A batch as a whole: a sentinel key ends with the batch's last row for it, any other key
    with the row it already had, or else the batch's own.
  */
  lemma {:induction false} BatchLookup(ws: map<WriteKey, WriteRow>, req: WritesRequest, n: nat, host: Host, k: WriteKey)
    requires n <= |req.writes|
    ensures -1 <= LastIndex(req, n, k) < n
    ensures var ws', i := InsertWrites(ws, req, n, host), LastIndex(req, n, k);
            && (k in ws' <==> k in ws || i >= 0)
            && (k in ws' ==> ws'[k] == if i < 0 || (k.at.idx >= 0 && k in ws) then ws[k] else WriteRowAt(req, i, host))
  {
    if n > 0 {
      BatchLookup(ws, req, n - 1, host, k);
      if LastIndex(req, n - 1, k) >= 0 {
        LastIndexHits(req, n - 1, k);
      }
    }
  }

  lemma {:induction false} LastIndexHits(req: WritesRequest, n: nat, k: WriteKey)
    requires n <= |req.writes| && LastIndex(req, n, k) >= 0
    ensures LastIndex(req, n, k) < n && WriteKeyAt(req, LastIndex(req, n, k)) == k
  {
    if WriteKeyAt(req, n - 1) != k {
      LastIndexHits(req, n - 1, k);
    }
  }

  /** Repeating a batch immediately changes nothing, even when it repeats a sentinel channel. */
  lemma RepeatedBatch(t: Tables, req: WritesRequest, host: Host)
    ensures PutWrites(PutWrites(t, req, host), req, host) == PutWrites(t, req, host)
  {
    var n := |req.writes|;
    var once := InsertWrites(t.writes, req, n, host);
    var twice := InsertWrites(once, req, n, host);
    forall k: WriteKey ensures (k in twice <==> k in once) && (k in once ==> twice[k] == once[k]) {
      BatchLookup(t.writes, req, n, host, k);
      BatchLookup(once, req, n, host, k);
    }
    assert twice == once;
  }
}
