/** The checkpoint store and service as written: loops over blobs, writes and rows, one transaction a call. */
module CheckpointStore {
  import opened Json
  import opened Checkpoints

  datatype BlobInput = BlobInput(channel: string, version: string, payload: Payload)

  datatype PutInput = PutInput(
    key: CkptKey, parent: Option<Uuid>, run: string, checkpoint: Object, metadata: Object, blobs: seq<BlobInput>)

  datatype WriteInput = WriteInput(idx: int, row: WriteRow)

  // ------------------------------------------------------------ blob inserts

  function KeyOf(thread: string, ns: string, b: BlobInput): BlobKey {
    BlobKey(thread, ns, b.channel, b.version)
  }

  /** Blob inserts in list order; a row already there stays. */
  function InsertBlobs(m: map<BlobKey, Payload>, thread: string, ns: string, bs: seq<BlobInput>): map<BlobKey, Payload> {
    if bs == [] then m
    else
      var before := InsertBlobs(m, thread, ns, bs[..|bs| - 1]);
      var k := KeyOf(thread, ns, bs[|bs| - 1]);
      if k in before then before else before[k := bs[|bs| - 1].payload]
  }

  lemma {:induction false} InsertBlobsLookup(m: map<BlobKey, Payload>, thread: string, ns: string, bs: seq<BlobInput>)
    ensures var m' := InsertBlobs(m, thread, ns, bs);
            && (forall k | k in m :: k in m' && m'[k] == m[k])
            && (forall b | b in bs :: KeyOf(thread, ns, b) in m')
            && (forall k | k in m' && k !in m :: exists b | b in bs :: KeyOf(thread, ns, b) == k && m'[k] == b.payload)
    decreases |bs|
  {
    if bs != [] {
      InsertBlobsLookup(m, thread, ns, bs[..|bs| - 1]);
      assert bs == bs[..|bs| - 1] + [bs[|bs| - 1]];
    }
  }

  predicate SentBlob(req: PutRequest, b: BlobInput) {
    && b.channel in req.checkpoint.channelValues
    && req.checkpoint.channelValues[b.channel] == Serialized(b.payload)
    && b.version == NewBlobKey(req, b.channel).version
  }

  /** Any list of exactly the sent blobs, in any order, has the effect of adding them all at once. */
  lemma AnyOrder(m: map<BlobKey, Payload>, req: PutRequest, bs: seq<BlobInput>)
    requires forall b | b in bs :: SentBlob(req, b)
    requires forall c | c in req.checkpoint.channelValues && req.checkpoint.channelValues[c].Serialized? ::
               exists b | b in bs :: b.channel == c
    ensures InsertBlobs(m, req.thread, req.ns, bs) == NewBlobs(req) + m
  {
    InsertBlobsLookup(m, req.thread, req.ns, bs);
    var m', new_ := InsertBlobs(m, req.thread, req.ns, bs), NewBlobs(req);
    forall k | k in new_ ensures k in m' {
      var b :| b in bs && b.channel == k.channel;
      assert KeyOf(req.thread, req.ns, b) == NewBlobKey(req, b.channel) == k;
    }
    forall k | k in m' && k !in m ensures k in new_ && m'[k] == new_[k] {
      var b :| b in bs && KeyOf(req.thread, req.ns, b) == k && m'[k] == b.payload;
      assert k == NewBlobKey(req, b.channel);
    }
  }

  // ------------------------------------------------------------------- store

  lemma {:induction false} FlatSendsSnoc(ps: seq<Payload>, p: Payload, host: Host)
    ensures FlatSends(ps + [p], host) ==
            FlatSends(ps, host) + (var cv := Decode(p, host); if cv.Some? then SendsOf(cv.value) else [])
    decreases |ps|
  {
    if ps == [] {
      assert ([] + [p])[1..] == [];
    } else {
      assert (ps + [p])[1..] == ps[1..] + [p];
      FlatSendsSnoc(ps[1..], p, host);
    }
  }

  lemma {:induction false} PendingWritesSnoc(t: Tables, k: CkptKey, at: seq<Position>, p: Position, host: Host)
    requires WriteKey(k.thread, k.ns, k.id, p) in t.writes
    ensures PendingWrites(t, k, at + [p], host) ==
            PendingWrites(t, k, at, host) + [WriteOf(p, t.writes[WriteKey(k.thread, k.ns, k.id, p)], host)]
    decreases |at|
  {
    if at == [] {
      assert ([] + [p])[1..] == [];
    } else {
      assert (at + [p])[1..] == at[1..] + [p];
      PendingWritesSnoc(t, k, at[1..], p, host);
    }
  }

  lemma {:induction false} CollectSnoc(rs: seq<Reply>, r: Reply)
    ensures Collect(rs + [r]) ==
            match (Collect(rs), r)
            case (Listed(before), Got(tuple)) => Listed(before + [tuple])
            case _ => ListFailed
    decreases |rs|
  {
    if rs == [] {
      assert (rs + [r])[1..] == [];
    } else {
      assert (rs + [r])[1..] == rs[1..] + [r];
      CollectSnoc(rs[1..], r);
    }
  }

  lemma {:induction false} CollectFailsEarly(rs: seq<Reply>, more: seq<Reply>)
    requires Collect(rs).ListFailed?
    ensures Collect(rs + more).ListFailed?
    decreases |rs|
  {
    assert (rs + more)[1..] == rs[1..] + more;
    if Collect(rs[1..]).ListFailed? {
      CollectFailsEarly(rs[1..], more);
    }
  }

  /** The replies are those of lookups of the ids. */
  ghost predicate Answers(t: Tables, thread: string, ns: string, ids: seq<Uuid>, rs: seq<Reply>, host: Host) {
    |rs| == |ids| && forall i | 0 <= i < |ids| :: rs[i] == Checkpoints.GetTuple(t, thread, ns, Some(ids[i]), host)
  }

  lemma AnswersSnoc(t: Tables, thread: string, ns: string, ids: seq<Uuid>, rs: seq<Reply>, id: Uuid, r: Reply, host: Host)
    requires Answers(t, thread, ns, ids, rs, host) && r == Checkpoints.GetTuple(t, thread, ns, Some(id), host)
    ensures Answers(t, thread, ns, ids + [id], rs + [r], host)
  {
  }

  lemma {:induction false} RepliesAre(t: Tables, thread: string, ns: string, ids: seq<Uuid>, rs: seq<Reply>, host: Host)
    requires Answers(t, thread, ns, ids, rs, host)
    ensures rs == Replies(t, thread, ns, ids, host)
    decreases |ids|
  {
    if ids != [] {
      RepliesAre(t, thread, ns, ids[1..], rs[1..], host);
      assert rs == [rs[0]] + rs[1..];
    }
  }

  /** The ordered positions of a checkpoint are exactly where it has writes. */
  lemma WritePositions(t: Tables, k: CkptKey)
    ensures var at := OrderedWrites(t, k.thread, k.ns, k.id, None);
            && (forall i | 0 <= i < |at| :: WriteKey(k.thread, k.ns, k.id, at[i]) in t.writes)
            && (forall w | w in t.writes && w.thread == k.thread && w.ns == k.ns && w.id == k.id :: w.at in at)
  {
    var at, s := OrderedWrites(t, k.thread, k.ns, k.id, None), Positions(t, k.thread, k.ns, k.id, None);
    assert forall p :: p in at <==> p in s;
    forall i | 0 <= i < |at| ensures WriteKey(k.thread, k.ns, k.id, at[i]) in t.writes {
      assert at[i] in at && at[i] in s;
    }
  }

  lemma AllPositionsDecode(t: Tables, k: CkptKey, host: Host)
    requires var at := OrderedWrites(t, k.thread, k.ns, k.id, None);
             forall i | 0 <= i < |at| :: var w := WriteKey(k.thread, k.ns, k.id, at[i]); w in t.writes && Decode(t.writes[w].value, host).Some?
    ensures WritesDecode(t, k, host)
  {
    WritePositions(t, k);
    var at := OrderedWrites(t, k.thread, k.ns, k.id, None);
    forall w | w in t.writes && w.thread == k.thread && w.ns == k.ns && w.id == k.id ensures Decode(t.writes[w].value, host).Some? {
      assert w == WriteKey(k.thread, k.ns, k.id, w.at);
      var i :| 0 <= i < |at| && at[i] == w.at;
    }
  }

  /** Collects the tuples of a page, failing at the first that could not be read. */
  method CollectReplies(rs: seq<Reply>) returns (r: ListReply)
    ensures r == Collect(rs)
  {
    var out: seq<Tuple> := [];
    for i := 0 to |rs|
      invariant Collect(rs[..i]) == Listed(out)
    {
      assert rs[..i + 1] == rs[..i] + [rs[i]] && rs == rs[..i + 1] + rs[i + 1..];
      CollectSnoc(rs[..i], rs[i]);
      if !rs[i].Got? {
        CollectFailsEarly(rs[..i + 1], rs[i + 1..]);
        return ListFailed;
      }
      out := out + [rs[i].tuple];
    }
    assert rs[..|rs|] == rs;
    r := Listed(out);
  }

  /** What a copied table holds, key by key. */
  lemma CheckpointKeys(m: map<CkptKey, CkptRow>, from: string, to: string)
    ensures var c := CopyCheckpoints(m, from, to);
            && (forall k :: k in c <==> k in m || (k.thread == to && k.(thread := from) in m))
            && (forall k | k in c :: c[k] == if k in m then m[k] else Rebased(m[k.(thread := from)], to))
  {
    forall k: CkptKey | k.thread == to && k.(thread := from) in m ensures k in CopyCheckpoints(m, from, to) {
      assert k.(thread := from).(thread := to) == k;
    }
  }

  lemma BlobKeys(m: map<BlobKey, Payload>, from: string, to: string)
    ensures var c := CopyBlobs(m, from, to);
            && (forall k :: k in c <==> k in m || (k.thread == to && k.(thread := from) in m))
            && (forall k | k in c :: c[k] == if k in m then m[k] else m[k.(thread := from)])
  {
    forall k: BlobKey | k.thread == to && k.(thread := from) in m ensures k in CopyBlobs(m, from, to) {
      assert k.(thread := from).(thread := to) == k;
    }
  }

  lemma WriteKeys(m: map<WriteKey, WriteRow>, from: string, to: string)
    ensures var c := CopyWrites(m, from, to);
            && (forall k :: k in c <==> k in m || (k.thread == to && k.(thread := from) in m))
            && (forall k | k in c :: c[k] == if k in m then m[k] else m[k.(thread := from)])
  {
    forall k: WriteKey | k.thread == to && k.(thread := from) in m ensures k in CopyWrites(m, from, to) {
      assert k.(thread := from).(thread := to) == k;
    }
  }

  /** The blobs of a put, collected by ranging over a map in no particular order. */
  method CollectBlobs(req: PutRequest) returns (list: seq<BlobInput>)
    ensures forall b | b in list :: SentBlob(req, b)
    ensures forall c | c in req.checkpoint.channelValues && req.checkpoint.channelValues[c].Serialized? :: exists b | b in list :: b.channel == c
  {
    var values := req.checkpoint.channelValues;
    list := [];
    var todo := values.Keys;
    while todo != {}
      invariant todo <= values.Keys
      invariant forall b | b in list :: SentBlob(req, b)
      invariant forall c | c in values && c !in todo && values[c].Serialized? :: exists b | b in list :: b.channel == c
      decreases |todo|
    {
      var c :| c in todo;
      ghost var before := list;
      if values[c].Serialized? {
        list := list + [BlobInput(c, NewBlobKey(req, c).version, values[c].payload)];
        assert list[|before|].channel == c;
      }
      forall d | d in values && d !in todo - {c} && values[d].Serialized? ensures exists b | b in list :: b.channel == d {
        if d != c {
          var b :| b in before && b.channel == d;
          assert b in list;
        }
      }
      todo := todo - {c};
    }
  }

  class Store {
    var checkpoints: map<CkptKey, CkptRow>
    var blobs: map<BlobKey, Payload>
    var writes: map<WriteKey, WriteRow>

    ghost function Value(): Tables
      reads this
    {
      Tables(checkpoints, blobs, writes)
    }

    constructor ()
      ensures Value() == NO_ROWS
    {
      checkpoints, blobs, writes := map[], map[], map[];
    }

    /** The transaction of a put: upsert the row, then insert the blobs one by one. */
    method PutRows(in_: PutInput)
      modifies this`checkpoints, this`blobs
      ensures checkpoints == old(checkpoints)[in_.key :=
                if in_.key in old(checkpoints) then old(checkpoints)[in_.key].(checkpoint := in_.checkpoint, metadata := in_.metadata)
                else CkptRow(in_.parent, in_.run, in_.checkpoint, in_.metadata)]
      ensures blobs == InsertBlobs(old(blobs), in_.key.thread, in_.key.ns, in_.blobs)
    {
      if in_.key in checkpoints {
        checkpoints := checkpoints[in_.key := checkpoints[in_.key].(checkpoint := in_.checkpoint, metadata := in_.metadata)];
      } else {
        checkpoints := checkpoints[in_.key := CkptRow(in_.parent, in_.run, in_.checkpoint, in_.metadata)];
      }
      label upserted:
      for i := 0 to |in_.blobs|
        invariant checkpoints == old@upserted(checkpoints)
        invariant blobs == InsertBlobs(old(blobs), in_.key.thread, in_.key.ns, in_.blobs[..i])
      {
        var b := in_.blobs[i];
        var k := KeyOf(in_.key.thread, in_.key.ns, b);
        assert in_.blobs[..i + 1][..i] == in_.blobs[..i];
        if k !in blobs {
          blobs := blobs[k := b.payload];
        }
      }
      assert in_.blobs[..|in_.blobs|] == in_.blobs;
    }

    /** A put request: one checkpoint row, and the blobs sent. */
    method Put(req: PutRequest, host: Host)
      modifies this`checkpoints, this`blobs
      ensures Value() == Checkpoints.Put(old(Value()), req, host)
    {
      var list := CollectBlobs(req);
      AnyOrder(blobs, req, list);
      PutRows(PutInput(PutKey(req), req.configId, PutRun(req), CheckpointDoc(req.checkpoint, host), MetadataDoc(req.metadata, host), list));
    }

    /** The rows of a batch, each with its sentinel or positional index. */
    method EncodeBatch(req: WritesRequest, host: Host) returns (ws: seq<WriteInput>)
      ensures |ws| == |req.writes|
      ensures forall i | 0 <= i < |ws| :: ws[i] == WriteInput(WriteKeyAt(req, i).at.idx, WriteRowAt(req, i, host))
    {
      ws := [];
      for i := 0 to |req.writes|
        invariant |ws| == i
        invariant forall j | 0 <= j < i :: ws[j] == WriteInput(WriteKeyAt(req, j).at.idx, WriteRowAt(req, j, host))
      {
        var w := req.writes[i];
        var idx: int := i;
        if w.channel in SENTINELS {
          idx := SENTINELS[w.channel];
        }
        ws := ws + [WriteInput(idx, WriteRow(w.channel, Encode(w.value, host), req.taskPath))];
      }
    }

    /** The transaction of a batch: one insert per write, overwriting only at negative indices. */
    method PutWrites(req: WritesRequest, host: Host)
      modifies this`writes
      ensures Value() == Checkpoints.PutWrites(old(Value()), req, host)
    {
      var ws := EncodeBatch(req, host);
      for i := 0 to |ws|
        invariant writes == InsertWrites(old(writes), req, i, host)
      {
        var k := WriteKey(req.thread, req.ns, req.id, Position(req.task, ws[i].idx));
        if ws[i].idx < 0 {
          writes := writes[k := ws[i].row];
        } else if k !in writes {
          writes := writes[k := ws[i].row];
        }
      }
    }

    /** Three INSERT ... SELECT statements in one transaction. */
    method CopyThread(from: string, to: string)
      modifies this
      ensures Value() == Checkpoints.CopyThread(old(Value()), from, to)
      ensures forall k :: k in checkpoints <==> k in old(checkpoints) || (k.thread == to && k.(thread := from) in old(checkpoints))
      ensures forall k | k in checkpoints ::
                checkpoints[k] == if k in old(checkpoints) then old(checkpoints)[k]
                                  else var row := old(checkpoints)[k.(thread := from)];
                                       CkptRow(row.parent, row.run, row.checkpoint, row.metadata["thread_id" := JStr(to)])
      ensures forall k :: k in blobs <==> k in old(blobs) || (k.thread == to && k.(thread := from) in old(blobs))
      ensures forall k | k in blobs :: blobs[k] == if k in old(blobs) then old(blobs)[k] else old(blobs)[k.(thread := from)]
      ensures forall k :: k in writes <==> k in old(writes) || (k.thread == to && k.(thread := from) in old(writes))
      ensures forall k | k in writes :: writes[k] == if k in old(writes) then old(writes)[k] else old(writes)[k.(thread := from)]
    {
      CheckpointKeys(checkpoints, from, to);
      BlobKeys(blobs, from, to);
      WriteKeys(writes, from, to);
      checkpoints := CopyCheckpoints(checkpoints, from, to);
      blobs := CopyBlobs(blobs, from, to);
      writes := CopyWrites(writes, from, to);
    }

    method DeleteThread(thread: string)
      modifies this`checkpoints
      ensures Value() == Checkpoints.DeleteThread(old(Value()), thread)
      ensures forall k :: k in checkpoints <==> k in old(checkpoints) && k.thread != thread
      ensures forall k | k in checkpoints :: checkpoints[k] == old(checkpoints)[k]
    {
      checkpoints := map k | k in checkpoints && k.thread != thread :: checkpoints[k];
    }

    method DeleteForRuns(runs: seq<string>)
      modifies this`checkpoints
      ensures Value() == Checkpoints.DeleteForRuns(old(Value()), runs)
      ensures forall k :: k in checkpoints <==> k in old(checkpoints) && (old(checkpoints)[k].run == "" || old(checkpoints)[k].run !in runs)
      ensures forall k | k in checkpoints :: checkpoints[k] == old(checkpoints)[k]
    {
      if |runs| == 0 {
        assert checkpoints == map k | k in checkpoints :: checkpoints[k];
        return;
      }
      checkpoints := map k | k in checkpoints && !(checkpoints[k].run != "" && checkpoints[k].run in runs) :: checkpoints[k];
    }

    /** Deletes all or all but the latest checkpoints of the threads; an unknown strategy fails. */
    method Prune(threads: seq<string>, strategy: int) returns (ok: bool)
      modifies this`checkpoints
      ensures (Value(), ok) == Checkpoints.Prune(old(Value()), threads, strategy)
      ensures ok <==> threads == [] || strategy == 1 || strategy == 2
      ensures forall k | k in checkpoints :: k in old(checkpoints) && checkpoints[k] == old(checkpoints)[k]
      ensures forall k | k in old(checkpoints) ::
                k in checkpoints <==>
                || k.thread !in threads
                || (strategy != 1 && strategy != 2)
                || (strategy == 1 && forall o | o in old(checkpoints) && o.thread == k.thread && o.ns == k.ns :: o.id <= k.id)
    {
      if |threads| == 0 {
        return true;
      }
      if strategy == DELETE_ALL {
        checkpoints := map k | k in checkpoints && k.thread !in threads :: checkpoints[k];
        return true;
      }
      if strategy == KEEP_LATEST {
        ghost var t := Value();
        var kept := set k | k in checkpoints && k.thread in threads && Latest(Tables(checkpoints, blobs, writes), k);
        checkpoints := map k | k in checkpoints && !(k.thread in threads && k !in kept) :: checkpoints[k];
        assert checkpoints == KeepLatest(t, threads).checkpoints;
        return true;
      }
      ok := false;
    }

    /** SELECT without ORDER BY: the blobs of a namespace in whatever order they come. */
    method LoadBlobs(thread: string, ns: string) returns (rows: seq<BlobKey>)
      ensures forall b :: b in rows <==> b in blobs && b.thread == thread && b.ns == ns
    {
      rows := [];
      var todo := set b | b in blobs && b.thread == thread && b.ns == ns;
      ghost var all := todo;
      while todo != {}
        invariant todo <= all
        invariant forall b :: b in rows <==> b in all - todo
        decreases |todo|
      {
        var b :| b in todo;
        rows := rows + [b];
        todo := todo - {b};
      }
    }

    /** Channel values from blob rows in any order, or None when one does not decode. */
    method BlobsToValues(k: CkptKey, rows: seq<BlobKey>, host: Host) returns (r: Option<map<string, ChannelValue>>)
      requires k in checkpoints
      requires forall b :: b in rows <==> b in blobs && b.thread == k.thread && b.ns == k.ns
      ensures r.Some? <==> BlobsDecode(Value(), k, host)
      ensures r.Some? ==> r.value == BlobValues(Value(), k, host)
    {
      var versions := VersionsIn(checkpoints[k].checkpoint);
      var values: map<string, ChannelValue> := map[];
      for i := 0 to |rows|
        invariant forall c :: c in values <==>
                    c in versions && BlobOf(Value(), k, c).Some? && BlobKey(k.thread, k.ns, c, versions[c]) in rows[..i]
        invariant forall c | c in values :: BlobValue(Value(), k, c, host) == Some(values[c])
      {
        var b := rows[i];
        assert b in rows;
        assert rows[..i + 1] == rows[..i] + [b];
        if b.channel !in versions || b.version != versions[b.channel] {
          continue;
        }
        assert b == BlobKey(k.thread, k.ns, b.channel, versions[b.channel]);
        if blobs[b].encoding == EMPTY_TYPE {
          continue;
        }
        var cv := Decode(blobs[b], host);
        if cv.None? {
          assert BlobOf(Value(), k, b.channel).Some? && BlobValue(Value(), k, b.channel, host).None?;
          return None;
        }
        values := values[b.channel := cv.value];
      }
      assert rows[..|rows|] == rows;
      assert values == BlobValues(Value(), k, host);
      r := Some(values);
    }

    /** The pending sends flattened in order, or None when one does not decode. */
    method CollectSends(ps: seq<Payload>, host: Host) returns (r: Option<seq<Send>>)
      ensures r.Some? <==> AllDecode(ps, host)
      ensures r.Some? ==> r.value == FlatSends(ps, host)
    {
      var sends: seq<Send> := [];
      for i := 0 to |ps|
        invariant AllDecode(ps[..i], host) && sends == FlatSends(ps[..i], host)
      {
        assert ps[..i + 1] == ps[..i] + [ps[i]];
        FlatSendsSnoc(ps[..i], ps[i], host);
        var cv := Decode(ps[i], host);
        if cv.None? {
          assert ps[i] in ps;
          return None;
        }
        sends := sends + SendsOf(cv.value);
      }
      assert ps[..|ps|] == ps;
      r := Some(sends);
    }

    /** The writes at some positions, in order, or None when one does not decode. */
    method CollectAt(k: CkptKey, at: seq<Position>, host: Host) returns (r: Option<seq<PendingWrite>>)
      requires forall i | 0 <= i < |at| :: WriteKey(k.thread, k.ns, k.id, at[i]) in writes
      ensures r.Some? <==> forall i | 0 <= i < |at| :: Decode(writes[WriteKey(k.thread, k.ns, k.id, at[i])].value, host).Some?
      ensures r.Some? ==> r.value == PendingWrites(Value(), k, at, host)
    {
      var out: seq<PendingWrite> := [];
      for i := 0 to |at|
        invariant out == PendingWrites(Value(), k, at[..i], host)
        invariant forall j | 0 <= j < i :: Decode(writes[WriteKey(k.thread, k.ns, k.id, at[j])].value, host).Some?
      {
        var row := writes[WriteKey(k.thread, k.ns, k.id, at[i])];
        var cv := Decode(row.value, host);
        if cv.None? {
          return None;
        }
        assert at[..i + 1] == at[..i] + [at[i]];
        PendingWritesSnoc(Value(), k, at[..i], at[i], host);
        out := out + [PendingWrite(at[i].task, row.channel, cv.value)];
      }
      assert at[..|at|] == at;
      r := Some(out);
    }

    /** The pending writes of a checkpoint in (task, idx) order, or None when one does not decode. */
    method CollectWrites(k: CkptKey, host: Host) returns (r: Option<seq<PendingWrite>>)
      ensures r.Some? <==> WritesDecode(Value(), k, host)
      ensures r.Some? ==> r.value == PendingWrites(Value(), k, OrderedWrites(Value(), k.thread, k.ns, k.id, None), host)
    {
      var t := Tables(checkpoints, blobs, writes);
      WritePositions(t, k);
      r := CollectAt(k, OrderedWrites(t, k.thread, k.ns, k.id, None), host);
      if r.Some? {
        AllPositionsDecode(t, k, host);
      }
    }

    /** Rebuilds a tuple from a row and the rows joined to it. */
    method RowToTuple(k: CkptKey, host: Host) returns (r: Reply)
      requires k in checkpoints
      ensures r == Checkpoints.GetTuple(Value(), k.thread, k.ns, Some(k.id), host)
    {
      var t := Tables(checkpoints, blobs, writes);
      var row := checkpoints[k];
      var rows := LoadBlobs(k.thread, k.ns);
      var values := BlobsToValues(k, rows, host);
      if values.None? { return DecodeError; }
      var sends := CollectSends(PendingSends(t, k), host);
      if sends.None? { return DecodeError; }
      var channels := values.value;
      if |sends.value| > 0 {
        channels := channels[TASKS := Sends(sends.value)];
      }
      var pending := CollectWrites(k, host);
      if pending.None? { return DecodeError; }
      r := Got(Tuple(k.thread, k.ns, ReadCheckpoint(row.checkpoint, k.id, host).(channelValues := channels),
                     ReadMetadata(row.metadata, host), pending.value, row.parent));
    }

    method GetTuple(thread: string, ns: string, id: Option<Uuid>, host: Host) returns (r: Reply)
      ensures r == Checkpoints.GetTuple(Value(), thread, ns, id, host)
    {
      var k := Lookup(Tables(checkpoints, blobs, writes), thread, ns, id);
      if k.None? { return NoCheckpoint; }
      r := RowToTuple(k.value, host);
    }

    method List(thread: string, ns: string, before: Option<Uuid>, limit: Option<int>, filter: Option<Json>, host: Host) returns (r: ListReply)
      ensures r == Checkpoints.List(Value(), thread, ns, before, limit, filter, host)
    {
      if limit.Some? && limit.value < 0 { return ListFailed; }
      var t := Tables(checkpoints, blobs, writes);
      var ids := Page(t, thread, ns, before, if limit.Some? then Some(limit.value) else None, filter);
      forall i | i in ids ensures CkptKey(thread, ns, i) in checkpoints {
        PageHasIds(t, thread, ns, before, limit, filter, i);
      }
      var rs := ReadRows(thread, ns, ids, host);
      RepliesAre(t, thread, ns, ids, rs, host);
      r := CollectReplies(rs);
    }

    /** The tuple of one more row. */
    method ReadNext(thread: string, ns: string, ids: seq<Uuid>, rs: seq<Reply>, id: Uuid, host: Host) returns (r: seq<Reply>)
      requires CkptKey(thread, ns, id) in checkpoints && Answers(Value(), thread, ns, ids, rs, host)
      ensures Answers(Value(), thread, ns, ids + [id], r, host)
    {
      var one := RowToTuple(CkptKey(thread, ns, id), host);
      AnswersSnoc(Value(), thread, ns, ids, rs, id, one, host);
      r := rs + [one];
    }

    /** The tuples of a page, row by row. */
    method ReadRows(thread: string, ns: string, ids: seq<Uuid>, host: Host) returns (rs: seq<Reply>)
      requires forall i | i in ids :: CkptKey(thread, ns, i) in checkpoints
      ensures Answers(Value(), thread, ns, ids, rs, host)
    {
      rs := [];
      for i := 0 to |ids|
        invariant Answers(Value(), thread, ns, ids[..i], rs, host)
      {
        assert ids[..i + 1] == ids[..i] + [ids[i]];
        rs := ReadNext(thread, ns, ids[..i], rs, ids[i], host);
      }
      assert ids[..|ids|] == ids;
    }
  }

  lemma PageHasIds(t: Tables, thread: string, ns: string, before: Option<Uuid>, limit: Option<int>, filter: Option<Json>, i: Uuid)
    requires limit.Some? ==> limit.value >= 0
    requires i in Page(t, thread, ns, before, if limit.Some? then Some(limit.value) else None, filter)
    ensures i in Ids(t, thread, ns, before, filter) && CkptKey(thread, ns, i) in t.checkpoints
  {
    assert i in Listing(t, thread, ns, before, filter);
  }
}
