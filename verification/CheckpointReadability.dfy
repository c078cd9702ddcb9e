/**
  When a lookup answers with a tuple rather than a decode error: everything joined into the
  tuple must decode, and only a payload sent under the reserved encoding can fail to.
*/
module CheckpointReadability {
  import opened Json
  import opened Checkpoints
  import opened CheckpointHistory

  // ------------------------------------------------------ what a tuple joins

  /** A write row under `w` on `channel` is joined into the tuple of `k`: its own writes, and its parent's sends. */
  predicate Joins(t: Tables, k: CkptKey, w: WriteKey, channel: string)
    requires k in t.checkpoints
  {
    w.thread == k.thread && w.ns == k.ns && (w.id == k.id || (t.checkpoints[k].parent == Some(w.id) && channel == TASKS))
  }

  ghost predicate JoinedDecode(t: Tables, k: CkptKey, host: Host)
    requires k in t.checkpoints
  {
    forall w | w in t.writes && Joins(t, k, w, t.writes[w].channel) :: Decode(t.writes[w].value, host).Some?
  }

  lemma {:induction false} SendPayloadsAre(t: Tables, thread: string, ns: string, id: Uuid, at: seq<Position>, p: Payload)
    requires forall x | x in at :: WriteKey(thread, ns, id, x) in t.writes
    ensures p in SendPayloads(t, thread, ns, id, at) <==> exists x | x in at :: t.writes[WriteKey(thread, ns, id, x)].value == p
    decreases |at|
  {
    if at != [] {
      assert at[0] in at;
      assert forall x :: x in at <==> x == at[0] || x in at[1..];
      SendPayloadsAre(t, thread, ns, id, at[1..], p);
      var head := [t.writes[WriteKey(thread, ns, id, at[0])].value];
      assert SendPayloads(t, thread, ns, id, at) == head + SendPayloads(t, thread, ns, id, at[1..]);
    }
  }

  /** The pending sends are exactly the stored payloads of the parent's `__pregel_tasks` writes. */
  lemma PendingSendsAre(t: Tables, k: CkptKey, p: Payload)
    requires k in t.checkpoints
    ensures p in PendingSends(t, k) <==>
            exists w | w in t.writes :: w.thread == k.thread && w.ns == k.ns && t.checkpoints[k].parent == Some(w.id)
                                        && t.writes[w].channel == TASKS && t.writes[w].value == p
  {
    match t.checkpoints[k].parent
    case None =>
    case Some(parent) =>
      var s, at := Positions(t, k.thread, k.ns, parent, Some(TASKS)), OrderedWrites(t, k.thread, k.ns, parent, Some(TASKS));
      assert forall x :: x in at <==> x in s;
      SendPayloadsAre(t, k.thread, k.ns, parent, at, p);
      if w :| w in t.writes && w.thread == k.thread && w.ns == k.ns && w.id == parent && t.writes[w].channel == TASKS && t.writes[w].value == p {
        assert w.at in s && w.at in at;
        assert w == WriteKey(k.thread, k.ns, parent, w.at);
      }
  }

  /** A tuple is readable exactly when its selected blobs and its joined writes decode. */
  lemma ReadableExactly(t: Tables, k: CkptKey, host: Host)
    requires k in t.checkpoints
    ensures Readable(t, k, host) <==> BlobsDecode(t, k, host) && JoinedDecode(t, k, host)
  {
    if AllDecode(PendingSends(t, k), host) {
      forall w | w in t.writes && w.thread == k.thread && w.ns == k.ns && t.checkpoints[k].parent == Some(w.id) && t.writes[w].channel == TASKS
        ensures Decode(t.writes[w].value, host).Some?
      {
        PendingSendsAre(t, k, t.writes[w].value);
      }
    }
    if JoinedDecode(t, k, host) {
      forall p | p in PendingSends(t, k) ensures Decode(p, host).Some? {
        PendingSendsAre(t, k, p);
      }
    }
  }

  // ------------------------------------------------------------ sound requests

  /** A value that will decode: only bytes under the reserved encoding that do not unmarshal will not. */
  predicate Sound(cv: ChannelValue, host: Host) {
    cv.Serialized? && cv.payload.encoding == MARKER ==> host.unmarshal(cv.payload.bytes).Some?
  }

  /**
    Decoding what was encoded: an unset value becomes an empty serialized one, bytes sent under
    the reserved encoding are taken for marked protobuf, and everything else comes back as sent.
  */
  lemma EncodedDecodes(cv: ChannelValue, host: Host)
    requires Faithful(host)
    ensures Decode(Encode(cv, host), host) ==
            if cv.Unset? then Some(Serialized(Payload("", [])))
            else if cv.Serialized? && cv.payload.encoding == MARKER then host.unmarshal(cv.payload.bytes)
            else Some(cv)
    ensures Decode(Encode(cv, host), host).Some? <==> Sound(cv, host)
  {
    assert host.unmarshal(host.marshal(cv)) == Some(cv);
  }

  /** Every serialized value in the request that uses the reserved encoding unmarshals. */
  predicate Clean(op: Op, host: Host) {
    match op
    case PutOp(req) =>
      forall c | c in req.checkpoint.channelValues :: Sound(req.checkpoint.channelValues[c], host)
    case WritesOp(req) =>
      forall i | 0 <= i < |req.writes| :: Sound(req.writes[i].value, host)
    case _ => true
  }

  /** The i-th write of a batch is what its key holds afterwards. */
  predicate Lands(t: Tables, req: WritesRequest, i: nat)
    requires i < |req.writes|
  {
    var w := WriteKeyAt(req, i);
    LastIndex(req, |req.writes|, w) == i && (w.at.idx < 0 || w !in t.writes)
  }

  /** After a batch, a row is an old one or one that landed; and what landed is there. */
  lemma BatchRows(t: Tables, req: WritesRequest, host: Host, w: WriteKey)
    ensures var ws := PutWrites(t, req, host).writes;
            && (w in ws ==> (w in t.writes && ws[w] == t.writes[w])
                            || exists i | 0 <= i < |req.writes| :: Lands(t, req, i) && w == WriteKeyAt(req, i) && ws[w] == WriteRowAt(req, i, host))
            && (forall i | 0 <= i < |req.writes| && Lands(t, req, i) && w == WriteKeyAt(req, i) :: w in ws && ws[w] == WriteRowAt(req, i, host))
  {
    BatchLookup(t.writes, req, |req.writes|, host, w);
    var i := LastIndex(req, |req.writes|, w);
    if i >= 0 {
      LastIndexHits(req, |req.writes|, w);
    }
  }

  /** The channel `c` of a put lands: it is serialized, and its blob key was free. */
  predicate BlobLands(t: Tables, req: PutRequest, c: string) {
    c in req.checkpoint.channelValues && req.checkpoint.channelValues[c].Serialized? && NewBlobKey(req, c) !in t.blobs
  }

  /** After a put, a blob is an old one or one that landed; and what landed is there. */
  lemma PutBlobs(t: Tables, req: PutRequest, b: BlobKey)
    ensures var bs := NewBlobs(req) + t.blobs;
            && (b in bs ==> (b in t.blobs && bs[b] == t.blobs[b])
                            || (BlobLands(t, req, b.channel) && b == NewBlobKey(req, b.channel) && bs[b] == req.checkpoint.channelValues[b.channel].payload))
            && (b in t.blobs ==> b in bs && bs[b] == t.blobs[b])
            && (BlobLands(t, req, b.channel) && b == NewBlobKey(req, b.channel) ==>
                  b in bs && bs[b] == req.checkpoint.channelValues[b.channel].payload)
  {
  }

  // ----------------------------------------------------------------- over runs

  /** Every stored payload decodes. */
  ghost predicate Decodable(t: Tables, host: Host) {
    (forall b | b in t.blobs :: Decode(t.blobs[b], host).Some?) && (forall w | w in t.writes :: Decode(t.writes[w].value, host).Some?)
  }

  /** What a request stores decodes: the exact condition for keeping everything stored decodable. */
  ghost predicate LandsSoundly(t: Tables, op: Op, host: Host) {
    match op
    case PutOp(req) => forall c | BlobLands(t, req, c) :: Sound(req.checkpoint.channelValues[c], host)
    case WritesOp(req) => forall i | 0 <= i < |req.writes| && Lands(t, req, i) :: Sound(req.writes[i].value, host)
    case _ => true
  }

  lemma BatchDecodable(t: Tables, req: WritesRequest, host: Host)
    requires Faithful(host) && Decodable(t, host)
    ensures Decodable(PutWrites(t, req, host), host) <==> LandsSoundly(t, WritesOp(req), host)
  {
    var t' := PutWrites(t, req, host);
    if LandsSoundly(t, WritesOp(req), host) {
      forall w | w in t'.writes ensures Decode(t'.writes[w].value, host).Some? {
        BatchRows(t, req, host, w);
        if !(w in t.writes && t'.writes[w] == t.writes[w]) {
          var i :| 0 <= i < |req.writes| && Lands(t, req, i) && w == WriteKeyAt(req, i) && t'.writes[w] == WriteRowAt(req, i, host);
          EncodedDecodes(req.writes[i].value, host);
        }
      }
    }
    if Decodable(t', host) {
      forall i | 0 <= i < |req.writes| && Lands(t, req, i) ensures Sound(req.writes[i].value, host) {
        BatchRows(t, req, host, WriteKeyAt(req, i));
        EncodedDecodes(req.writes[i].value, host);
      }
    }
  }

  lemma PutDecodable(t: Tables, req: PutRequest, host: Host)
    requires Decodable(t, host)
    ensures Decodable(Put(t, req, host), host) <==> LandsSoundly(t, PutOp(req), host)
  {
    var t' := Put(t, req, host);
    if LandsSoundly(t, PutOp(req), host) {
      forall b | b in t'.blobs ensures Decode(t'.blobs[b], host).Some? {
        PutBlobs(t, req, b);
      }
    }
    if Decodable(t', host) {
      forall c | BlobLands(t, req, c) ensures Sound(req.checkpoint.channelValues[c], host) {
        PutBlobs(t, req, NewBlobKey(req, c));
      }
    }
  }

  lemma CopyDecodable(t: Tables, from: string, to: string, host: Host)
    requires Decodable(t, host)
    ensures Decodable(CopyThread(t, from, to), host)
  {
  }

  /** A request keeps everything stored decodable exactly when what it stores is sound. */
  lemma StepDecodable(t: Tables, op: Op, host: Host)
    requires Faithful(host) && Decodable(t, host)
    ensures Decodable(Step(t, op, host), host) <==> LandsSoundly(t, op, host)
    ensures Clean(op, host) ==> LandsSoundly(t, op, host)
  {
    match op
    case WritesOp(req) => BatchDecodable(t, req, host);
    case PutOp(req) => PutDecodable(t, req, host);
    case CopyOp(from, to) => CopyDecodable(t, from, to, host);
    case _ =>
  }

  lemma {:induction false} RunDecodable(t: Tables, ops: seq<Op>, host: Host)
    requires Faithful(host) && Decodable(t, host)
    requires forall op | op in ops :: Clean(op, host)
    ensures Decodable(Run(t, ops, host), host)
    decreases |ops|
  {
    if ops != [] {
      assert ops[0] in ops;
      StepDecodable(t, ops[0], host);
      RunDecodable(Step(t, ops[0], host), ops[1..], host);
    }
  }

  lemma DecodableReads(t: Tables, host: Host, k: CkptKey)
    requires Decodable(t, host)
    ensures GetTuple(t, k.thread, k.ns, Some(k.id), host).Got? <==> k in t.checkpoints
  {
    if k in t.checkpoints {
      ReadableExactly(t, k, host);
    }
  }

  /**
    After any run of requests whose reserved-encoding values unmarshal, every stored checkpoint
    reads back: a lookup answers with a tuple exactly when the checkpoint exists.
  */
  lemma {:induction false} CleanRunsRead(ops: seq<Op>, host: Host, k: CkptKey)
    requires Faithful(host) && forall op | op in ops :: Clean(op, host)
    ensures var t := Run(NO_ROWS, ops, host);
            GetTuple(t, k.thread, k.ns, Some(k.id), host).Got? <==> k in t.checkpoints
  {
    RunDecodable(NO_ROWS, ops, host);
    DecodableReads(Run(NO_ROWS, ops, host), host, k);
  }

  // -------------------------------------------------- and what breaks a reader

  /**
    A batch of writes leaves a readable checkpoint readable exactly when every write that lands
    among the rows joined into its tuple is sound, whichever checkpoint the batch is for.
  */
  lemma BatchKeepsReadable(t: Tables, req: WritesRequest, k: CkptKey, host: Host)
    requires Faithful(host) && GetTuple(t, k.thread, k.ns, Some(k.id), host).Got?
    ensures k in t.checkpoints
    ensures GetTuple(PutWrites(t, req, host), k.thread, k.ns, Some(k.id), host).Got? <==>
            forall i | 0 <= i < |req.writes| && Lands(t, req, i) && Joins(t, k, WriteKeyAt(req, i), req.writes[i].channel) ::
              Sound(req.writes[i].value, host)
  {
    var t' := PutWrites(t, req, host);
    ReadableExactly(t, k, host);
    ReadableExactly(t', k, host);
    SameBlobs(t, t', k, host);
    JoinedAfterBatch(t, req, k, host);
  }

  lemma JoinedAfterBatch(t: Tables, req: WritesRequest, k: CkptKey, host: Host)
    requires Faithful(host) && k in t.checkpoints && JoinedDecode(t, k, host)
    ensures JoinedDecode(PutWrites(t, req, host), k, host) <==>
            forall i | 0 <= i < |req.writes| && Lands(t, req, i) && Joins(t, k, WriteKeyAt(req, i), req.writes[i].channel) ::
              Sound(req.writes[i].value, host)
  {
    var t' := PutWrites(t, req, host);
    if JoinedDecode(t', k, host) {
      forall i | 0 <= i < |req.writes| && Lands(t, req, i) && Joins(t, k, WriteKeyAt(req, i), req.writes[i].channel)
        ensures Sound(req.writes[i].value, host)
      {
        BatchRows(t, req, host, WriteKeyAt(req, i));
        EncodedDecodes(req.writes[i].value, host);
      }
    } else {
      var w :| w in t'.writes && Joins(t', k, w, t'.writes[w].channel) && Decode(t'.writes[w].value, host).None?;
      BatchRows(t, req, host, w);
      var i :| 0 <= i < |req.writes| && Lands(t, req, i) && w == WriteKeyAt(req, i) && t'.writes[w] == WriteRowAt(req, i, host);
      EncodedDecodes(req.writes[i].value, host);
    }
  }

  lemma SameBlobs(t: Tables, t': Tables, k: CkptKey, host: Host)
    requires k in t.checkpoints && t'.checkpoints == t.checkpoints && t'.blobs == t.blobs
    ensures BlobsDecode(t', k, host) == BlobsDecode(t, k, host)
  {
    assert forall c :: BlobOf(t', k, c) == BlobOf(t, k, c);
  }

  /** One write of one serialized value to a free place breaks its checkpoint exactly when it is not sound. */
  lemma ReservedEncodingBreaksReads(t: Tables, k: CkptKey, task: Uuid, path: string, channel: string, bytes: Bytes, host: Host)
    requires Faithful(host) && GetTuple(t, k.thread, k.ns, Some(k.id), host).Got?
    requires WriteKey(k.thread, k.ns, k.id, Position(task, IndexOf(channel, 0))) !in t.writes
    ensures var req := WritesRequest(k.thread, k.ns, k.id, task, path, [Write(channel, Serialized(Payload(MARKER, bytes)))]);
            GetTuple(PutWrites(t, req, host), k.thread, k.ns, Some(k.id), host).Got? <==> host.unmarshal(bytes).Some?
  {
    var req := WritesRequest(k.thread, k.ns, k.id, task, path, [Write(channel, Serialized(Payload(MARKER, bytes)))]);
    BatchKeepsReadable(t, req, k, host);
    assert Lands(t, req, 0);
    assert req.writes[0].value == Serialized(Payload(MARKER, bytes));
  }

  /** A checkpoint selects the blob that a put stores for `c`: it lists that version, and the blob is not an empty one. */
  predicate Selects(t: Tables, k: CkptKey, req: PutRequest, c: string)
    requires k in t.checkpoints && c in req.checkpoint.channelValues && req.checkpoint.channelValues[c].Serialized?
  {
    var b, versions := NewBlobKey(req, c), VersionsIn(t.checkpoints[k].checkpoint);
    && b.thread == k.thread && b.ns == k.ns && c in versions && versions[c] == b.version
    && req.checkpoint.channelValues[c].payload.encoding != EMPTY_TYPE
  }

  /** The blobs that `versions` selects for a checkpoint among those stored, the empty ones apart, decode. */
  predicate SelectedDecode(t: Tables, k: CkptKey, versions: map<string, string>, host: Host) {
    forall c | c in versions ::
      var b := BlobKey(k.thread, k.ns, c, versions[c]);
      b in t.blobs && t.blobs[b].encoding != EMPTY_TYPE ==> Decode(t.blobs[b], host).Some?
  }

  lemma BlobsAfterPut(t: Tables, req: PutRequest, t': Tables, k: CkptKey, host: Host)
    requires t'.blobs == NewBlobs(req) + t.blobs && k in t'.checkpoints
    ensures BlobsDecode(t', k, host) <==>
            && SelectedDecode(t, k, VersionsIn(t'.checkpoints[k].checkpoint), host)
            && forall c | BlobLands(t, req, c) && Selects(t', k, req, c) :: Sound(req.checkpoint.channelValues[c], host)
  {
    var versions := VersionsIn(t'.checkpoints[k].checkpoint);
    if BlobsDecode(t', k, host) {
      forall c | BlobLands(t, req, c) && Selects(t', k, req, c) ensures Sound(req.checkpoint.channelValues[c], host) {
        PutBlobs(t, req, NewBlobKey(req, c));
        assert BlobOf(t', k, c) == Some(req.checkpoint.channelValues[c].payload);
        assert BlobValue(t', k, c, host).Some?;
      }
      OldBlobsDecode(t, req, t', k, host);
    } else {
      var c :| c in versions && BlobOf(t', k, c).Some? && BlobValue(t', k, c, host).None?;
      PutBlobs(t, req, BlobKey(k.thread, k.ns, c, versions[c]));
      assert !(BlobKey(k.thread, k.ns, c, versions[c]) in t.blobs) ==> BlobLands(t, req, c) && Selects(t', k, req, c);
    }
  }

  lemma OldBlobsDecode(t: Tables, req: PutRequest, t': Tables, k: CkptKey, host: Host)
    requires t'.blobs == NewBlobs(req) + t.blobs && k in t'.checkpoints && BlobsDecode(t', k, host)
    ensures SelectedDecode(t, k, VersionsIn(t'.checkpoints[k].checkpoint), host)
  {
    var versions := VersionsIn(t'.checkpoints[k].checkpoint);
    forall c | c in versions && BlobKey(k.thread, k.ns, c, versions[c]) in t.blobs && t.blobs[BlobKey(k.thread, k.ns, c, versions[c])].encoding != EMPTY_TYPE
      ensures Decode(t.blobs[BlobKey(k.thread, k.ns, c, versions[c])], host).Some?
    {
      PutBlobs(t, req, BlobKey(k.thread, k.ns, c, versions[c]));
      assert BlobOf(t', k, c) == Some(t.blobs[BlobKey(k.thread, k.ns, c, versions[c])]);
      assert BlobValue(t', k, c, host).Some?;
    }
  }

  /**
    After a put, a lookup of any stored checkpoint, the put one or another, answers with a tuple
    exactly when the writes joined into it decode, the blobs stored before that it selects
    decode, and every new blob it selects is sound. Nothing else in the tables matters.
  */
  lemma PutKeepsReadable(t: Tables, req: PutRequest, k: CkptKey, host: Host)
    requires k in Put(t, req, host).checkpoints
    ensures var t' := Put(t, req, host);
            GetTuple(t', k.thread, k.ns, Some(k.id), host).Got? <==>
            && JoinedDecode(t', k, host)
            && SelectedDecode(t, k, VersionsIn(t'.checkpoints[k].checkpoint), host)
            && forall c | BlobLands(t, req, c) && Selects(t', k, req, c) :: Sound(req.checkpoint.channelValues[c], host)
  {
    var t' := Put(t, req, host);
    ReadableExactly(t', k, host);
    BlobsAfterPut(t, req, t', k, host);
  }

  /** So a checkpoint that was readable, and is not itself put, stays so exactly when the new blobs it selects are sound. */
  lemma PutSparesOthers(t: Tables, req: PutRequest, k: CkptKey, host: Host)
    requires GetTuple(t, k.thread, k.ns, Some(k.id), host).Got? && k != PutKey(req)
    ensures k in Put(t, req, host).checkpoints
    ensures var t' := Put(t, req, host);
            GetTuple(t', k.thread, k.ns, Some(k.id), host).Got? <==>
            forall c | BlobLands(t, req, c) && Selects(t', k, req, c) :: Sound(req.checkpoint.channelValues[c], host)
  {
    var t' := Put(t, req, host);
    assert t'.checkpoints[k] == t.checkpoints[k];
    ReadableExactly(t, k, host);
    PutKeepsReadable(t, req, k, host);
    SelectedBefore(t, k, host);
  }

  lemma SelectedBefore(t: Tables, k: CkptKey, host: Host)
    requires k in t.checkpoints && BlobsDecode(t, k, host)
    ensures SelectedDecode(t, k, VersionsIn(t.checkpoints[k].checkpoint), host)
  {
    var versions := VersionsIn(t.checkpoints[k].checkpoint);
    forall c | c in versions && BlobKey(k.thread, k.ns, c, versions[c]) in t.blobs && t.blobs[BlobKey(k.thread, k.ns, c, versions[c])].encoding != EMPTY_TYPE
      ensures Decode(t.blobs[BlobKey(k.thread, k.ns, c, versions[c])], host).Some?
    {
      assert BlobOf(t, k, c) == Some(t.blobs[BlobKey(k.thread, k.ns, c, versions[c])]);
      assert BlobValue(t, k, c, host).Some?;
    }
  }

  // ------------------------------------------------------------- final replies

  /** A tuple read later shows every channel value that an earlier one showed, sends apart. */
  ghost predicate KeepsValues(r: Reply, r': Reply) {
    r.Got? && r'.Got? ==>
      forall c | c in r.tuple.checkpoint.channelValues && c != TASKS ::
        c in r'.tuple.checkpoint.channelValues && r'.tuple.checkpoint.channelValues[c] == r.tuple.checkpoint.channelValues[c]
  }

  /**
    Along a run of puts, writes and copies that does not put a checkpoint again, a lookup that
    answers later shows the same channel values and parent; and with clean requests it does answer.
  */
  lemma {:induction false} ValuesAreFinal(t: Tables, ops: seq<Op>, host: Host, k: CkptKey)
    requires forall op | op in ops :: Grows(op) && !Reputs(op, k)
    ensures var r, r' := GetTuple(t, k.thread, k.ns, Some(k.id), host), GetTuple(Run(t, ops, host), k.thread, k.ns, Some(k.id), host);
            && KeepsValues(r, r')
            && (r.Got? ==> !r'.NoCheckpoint?)
            && (r.Got? && r'.Got? ==> r'.tuple.parent == r.tuple.parent && r'.tuple.metadata == r.tuple.metadata)
            && (Faithful(host) && Decodable(t, host) && k in t.checkpoints && (forall op | op in ops :: Clean(op, host)) ==> r'.Got?)
  {
    var t' := Run(t, ops, host);
    if k in t.checkpoints {
      UntouchedRow(t, ops, host, k);
      forall c | c in ChannelValues(t, k, host) && c != TASKS
        ensures c in ChannelValues(t', k, host) && ChannelValues(t', k, host)[c] == ChannelValues(t, k, host)[c]
      {
        assert BlobValue(t, k, c, host).Some?;
        BlobsAreFinal(t, ops, host, k, c);
      }
      if Faithful(host) && Decodable(t, host) && forall op | op in ops :: Clean(op, host) {
        RunDecodable(t, ops, host);
        DecodableReads(t', host, k);
      }
    }
  }
}
