/** Copying a thread: the copy reads like the original, the original is untouched, and copying again is a no-op. */
module CheckpointCopy {
  import opened Json
  import opened Checkpoints
  import opened CheckpointHistory

  ghost predicate NoRows(t: Tables, thread: string) {
    && (forall k | k in t.checkpoints :: k.thread != thread)
    && (forall b | b in t.blobs :: b.thread != thread)
    && (forall w | w in t.writes :: w.thread != thread)
  }

  /** A table state seen as another: thread `b` holds exactly the rows of thread `a` of `t`. */
  ghost predicate Mirrors(t: Tables, a: string, t': Tables, b: string) {
    && (forall ns, i ::
          && (CkptKey(b, ns, i) in t'.checkpoints <==> CkptKey(a, ns, i) in t.checkpoints)
          && (CkptKey(a, ns, i) in t.checkpoints ==> t'.checkpoints[CkptKey(b, ns, i)] == Rebased(t.checkpoints[CkptKey(a, ns, i)], b)))
    && (forall ns, c, v ::
          && (BlobKey(b, ns, c, v) in t'.blobs <==> BlobKey(a, ns, c, v) in t.blobs)
          && (BlobKey(a, ns, c, v) in t.blobs ==> t'.blobs[BlobKey(b, ns, c, v)] == t.blobs[BlobKey(a, ns, c, v)]))
    && (forall ns, i, p ::
          && (WriteKey(b, ns, i, p) in t'.writes <==> WriteKey(a, ns, i, p) in t.writes)
          && (WriteKey(a, ns, i, p) in t.writes ==> t'.writes[WriteKey(b, ns, i, p)] == t.writes[WriteKey(a, ns, i, p)]))
  }

  lemma CopyMirrors(t: Tables, a: string, b: string)
    requires a != b && NoRows(t, b)
    ensures Mirrors(t, a, CopyThread(t, a, b), b)
  {
    CopiedCheckpoints(t, a, b);
    CopiedBlobs(t, a, b);
    CopiedWrites(t, a, b);
  }

  lemma CopiedCheckpoints(t: Tables, a: string, b: string)
    requires a != b && NoRows(t, b)
    ensures var m := CopyThread(t, a, b).checkpoints;
            forall ns, i ::
              && (CkptKey(b, ns, i) in m <==> CkptKey(a, ns, i) in t.checkpoints)
              && (CkptKey(a, ns, i) in t.checkpoints ==> m[CkptKey(b, ns, i)] == Rebased(t.checkpoints[CkptKey(a, ns, i)], b))
  {
    var m := CopyThread(t, a, b).checkpoints;
    forall ns, i
      ensures CkptKey(b, ns, i) in m <==> CkptKey(a, ns, i) in t.checkpoints
      ensures CkptKey(a, ns, i) in t.checkpoints ==> m[CkptKey(b, ns, i)] == Rebased(t.checkpoints[CkptKey(a, ns, i)], b)
    {
      var ka, kb := CkptKey(a, ns, i), CkptKey(b, ns, i);
      assert kb !in t.checkpoints && kb.(thread := a) == ka && ka.(thread := b) == kb;
    }
  }

  lemma CopiedBlobs(t: Tables, a: string, b: string)
    requires a != b && NoRows(t, b)
    ensures var m := CopyThread(t, a, b).blobs;
            forall ns, c, v ::
              && (BlobKey(b, ns, c, v) in m <==> BlobKey(a, ns, c, v) in t.blobs)
              && (BlobKey(a, ns, c, v) in t.blobs ==> m[BlobKey(b, ns, c, v)] == t.blobs[BlobKey(a, ns, c, v)])
  {
    var m := CopyThread(t, a, b).blobs;
    forall ns, c, v
      ensures BlobKey(b, ns, c, v) in m <==> BlobKey(a, ns, c, v) in t.blobs
      ensures BlobKey(a, ns, c, v) in t.blobs ==> m[BlobKey(b, ns, c, v)] == t.blobs[BlobKey(a, ns, c, v)]
    {
      var ka, kb := BlobKey(a, ns, c, v), BlobKey(b, ns, c, v);
      assert kb !in t.blobs && kb.(thread := a) == ka && ka.(thread := b) == kb;
    }
  }

  lemma CopiedWrites(t: Tables, a: string, b: string)
    requires a != b && NoRows(t, b)
    ensures var m := CopyThread(t, a, b).writes;
            forall ns, i, p ::
              && (WriteKey(b, ns, i, p) in m <==> WriteKey(a, ns, i, p) in t.writes)
              && (WriteKey(a, ns, i, p) in t.writes ==> m[WriteKey(b, ns, i, p)] == t.writes[WriteKey(a, ns, i, p)])
  {
    var m := CopyThread(t, a, b).writes;
    forall ns, i, p
      ensures WriteKey(b, ns, i, p) in m <==> WriteKey(a, ns, i, p) in t.writes
      ensures WriteKey(a, ns, i, p) in t.writes ==> m[WriteKey(b, ns, i, p)] == t.writes[WriteKey(a, ns, i, p)]
    {
      var ka, kb := WriteKey(a, ns, i, p), WriteKey(b, ns, i, p);
      assert kb !in t.writes && kb.(thread := a) == ka && ka.(thread := b) == kb;
    }
  }

  // ------------------------------------------------------- reading the mirror

  lemma MirroredPositions(t: Tables, a: string, t': Tables, b: string, ns: string, i: Uuid, channel: Option<string>)
    requires Mirrors(t, a, t', b)
    ensures Positions(t', b, ns, i, channel) == Positions(t, a, ns, i, channel)
  {
    var s, s' := Positions(t, a, ns, i, channel), Positions(t', b, ns, i, channel);
    forall p ensures p in s <==> p in s' {
      var w, w' := WriteKey(a, ns, i, p), WriteKey(b, ns, i, p);
      assert p in s <==> w in t.writes && (channel.Some? ==> t.writes[w].channel == channel.value);
      assert p in s' <==> w' in t'.writes && (channel.Some? ==> t'.writes[w'].channel == channel.value);
    }
  }

  lemma {:induction false} MirroredSends(t: Tables, a: string, t': Tables, b: string, ns: string, i: Uuid, at: seq<Position>)
    requires Mirrors(t, a, t', b)
    ensures SendPayloads(t', b, ns, i, at) == SendPayloads(t, a, ns, i, at)
    decreases |at|
  {
    if at != [] {
      MirroredSends(t, a, t', b, ns, i, at[1..]);
    }
  }

  lemma {:induction false} MirroredWrites(t: Tables, a: string, t': Tables, b: string, ns: string, i: Uuid, at: seq<Position>, host: Host)
    requires Mirrors(t, a, t', b)
    ensures PendingWrites(t', CkptKey(b, ns, i), at, host) == PendingWrites(t, CkptKey(a, ns, i), at, host)
    decreases |at|
  {
    if at != [] {
      MirroredWrites(t, a, t', b, ns, i, at[1..], host);
    }
  }

  lemma MirroredBlobs(t: Tables, a: string, t': Tables, b: string, ns: string, i: Uuid, host: Host)
    requires Mirrors(t, a, t', b) && CkptKey(a, ns, i) in t.checkpoints
    ensures var ka, kb := CkptKey(a, ns, i), CkptKey(b, ns, i);
            kb in t'.checkpoints && BlobValues(t', kb, host) == BlobValues(t, ka, host) && BlobsDecode(t', kb, host) == BlobsDecode(t, ka, host)
  {
    var ka, kb := CkptKey(a, ns, i), CkptKey(b, ns, i);
    assert forall c :: BlobOf(t', kb, c) == BlobOf(t, ka, c);
    assert forall c :: BlobValue(t', kb, c, host) == BlobValue(t, ka, c, host);
  }

  lemma MirroredPendingSends(t: Tables, a: string, t': Tables, b: string, ns: string, i: Uuid)
    requires Mirrors(t, a, t', b) && CkptKey(a, ns, i) in t.checkpoints
    ensures CkptKey(b, ns, i) in t'.checkpoints && PendingSends(t', CkptKey(b, ns, i)) == PendingSends(t, CkptKey(a, ns, i))
  {
    match t.checkpoints[CkptKey(a, ns, i)].parent
    case None =>
    case Some(parent) =>
      MirroredPositions(t, a, t', b, ns, parent, Some(TASKS));
      MirroredSends(t, a, t', b, ns, parent, OrderedWrites(t, a, ns, parent, Some(TASKS)));
  }

  lemma MirroredDecode(t: Tables, a: string, t': Tables, b: string, ns: string, i: Uuid, host: Host)
    requires Mirrors(t, a, t', b)
    ensures WritesDecode(t', CkptKey(b, ns, i), host) == WritesDecode(t, CkptKey(a, ns, i), host)
  {
    forall w | w in t.writes && w.thread == a && w.ns == ns && w.id == i
      ensures WriteKey(b, ns, i, w.at) in t'.writes && t'.writes[WriteKey(b, ns, i, w.at)] == t.writes[w]
    {
      assert w == WriteKey(a, ns, i, w.at);
    }
    forall w | w in t'.writes && w.thread == b && w.ns == ns && w.id == i
      ensures WriteKey(a, ns, i, w.at) in t.writes && t.writes[WriteKey(a, ns, i, w.at)] == t'.writes[w]
    {
      assert w == WriteKey(b, ns, i, w.at);
    }
  }

  /** A tuple moved to another thread: the thread id in the config, and as the metadata extra. */
  function MovedTuple(tuple: Tuple, b: string, host: Host): Tuple {
    tuple.(thread := b, metadata := tuple.metadata.(extras := tuple.metadata.extras["thread_id" := host.render(JStr(b))]))
  }

  function MovedReply(r: Reply, b: string, host: Host): Reply {
    if r.Got? then Got(MovedTuple(r.tuple, b, host)) else r
  }

  lemma MovedMetadata(doc: Object, b: string, host: Host)
    ensures ReadMetadata(doc["thread_id" := JStr(b)], host) ==
            ReadMetadata(doc, host).(extras := ReadMetadata(doc, host).extras["thread_id" := host.render(JStr(b))])
  {
    var moved := doc["thread_id" := JStr(b)];
    assert forall key | key in KNOWN_METADATA :: Field(moved, key) == Field(doc, key);
    assert "source" in KNOWN_METADATA && "step" in KNOWN_METADATA && "parents" in KNOWN_METADATA && "run_id" in KNOWN_METADATA;
    assert ReadMetadata(moved, host).extras == ReadMetadata(doc, host).extras["thread_id" := host.render(JStr(b))];
  }

  lemma MirroredReply(t: Tables, a: string, t': Tables, b: string, ns: string, i: Uuid, host: Host)
    requires Mirrors(t, a, t', b) && CkptKey(a, ns, i) in t.checkpoints
    ensures CkptKey(b, ns, i) in t'.checkpoints
    ensures ReplyFor(t', CkptKey(b, ns, i), host) == MovedReply(ReplyFor(t, CkptKey(a, ns, i), host), b, host)
  {
    MirroredBlobs(t, a, t', b, ns, i, host);
    MirroredPendingSends(t, a, t', b, ns, i);
    MirroredDecode(t, a, t', b, ns, i, host);
    MirroredPositions(t, a, t', b, ns, i, None);
    MirroredWrites(t, a, t', b, ns, i, OrderedWrites(t, a, ns, i, None), host);
    MovedMetadata(t.checkpoints[CkptKey(a, ns, i)].metadata, b, host);
  }

  /** Containment in a document is not affected by a key the filter does not mention. */
  predicate IgnoresThreadId(filter: Option<Json>) {
    filter.Some? && filter.value.JObj? ==> "thread_id" !in filter.value.fields
  }

  lemma MovedContains(doc: Object, b: string, filter: Json)
    requires filter.JObj? ==> "thread_id" !in filter.fields
    ensures Contains(JObj(doc["thread_id" := JStr(b)]), filter) == Contains(JObj(doc), filter)
  {
    var moved := doc["thread_id" := JStr(b)];
    if filter.JObj? {
      forall k | k in filter.fields
        ensures (k in moved && Within(filter.fields[k], moved[k])) <==> (k in doc && Within(filter.fields[k], doc[k]))
      {
        assert k != "thread_id";
      }
    }
  }

  lemma MirroredListing(t: Tables, a: string, t': Tables, b: string, ns: string, before: Option<Uuid>, filter: Option<Json>)
    requires Mirrors(t, a, t', b) && IgnoresThreadId(filter)
    ensures Listing(t', b, ns, before, filter) == Listing(t, a, ns, before, filter)
  {
    var s, s' := Ids(t, a, ns, before, filter), Ids(t', b, ns, before, filter);
    forall i: Uuid ensures i in s <==> i in s' {
      var ka, kb := CkptKey(a, ns, i), CkptKey(b, ns, i);
      if ka in t.checkpoints && filter.Some? {
        MovedContains(t.checkpoints[ka].metadata, b, filter.value);
      }
      assert i in s <==> ka in t.checkpoints && (before.Some? ==> i < before.value)
                         && (filter.Some? ==> Contains(JObj(t.checkpoints[ka].metadata), filter.value));
      assert i in s' <==> kb in t'.checkpoints && (before.Some? ==> i < before.value)
                          && (filter.Some? ==> Contains(JObj(t'.checkpoints[kb].metadata), filter.value));
    }
    assert s == s';
  }

  // ---------------------------------------------------------------- theorems

  /**
    After copying a thread to an empty one, every lookup in the copy - by id or for the
    latest - answers what the original answers, moved to the new thread.
  */
  lemma CopyReadsAlike(t: Tables, a: string, b: string, ns: string, id: Option<Uuid>, host: Host)
    requires a != b && NoRows(t, b)
    ensures GetTuple(CopyThread(t, a, b), b, ns, id, host) == MovedReply(GetTuple(t, a, ns, id, host), b, host)
  {
    CopyMirrors(t, a, b);
    MirroredGet(t, a, CopyThread(t, a, b), b, ns, id, host);
  }

  lemma MirroredGet(t: Tables, a: string, t': Tables, b: string, ns: string, id: Option<Uuid>, host: Host)
    requires Mirrors(t, a, t', b)
    ensures GetTuple(t', b, ns, id, host) == MovedReply(GetTuple(t, a, ns, id, host), b, host)
  {
    MirroredListing(t, a, t', b, ns, None, None);
    match Lookup(t, a, ns, id)
    case Some(k) => MirroredReply(t, a, t', b, ns, k.id, host);
    case None =>
  }

  function MovedAll(ts: seq<Tuple>, b: string, host: Host): seq<Tuple> {
    if ts == [] then [] else [MovedTuple(ts[0], b, host)] + MovedAll(ts[1..], b, host)
  }

  function MovedTuples(r: ListReply, b: string, host: Host): ListReply {
    match r
    case ListFailed => ListFailed
    case Listed(ts) => Listed(MovedAll(ts, b, host))
  }

  function MovedReplies(rs: seq<Reply>, b: string, host: Host): seq<Reply> {
    if rs == [] then [] else [MovedReply(rs[0], b, host)] + MovedReplies(rs[1..], b, host)
  }

  lemma {:induction false} MirroredReplies(t: Tables, a: string, t': Tables, b: string, ns: string, ids: seq<Uuid>, host: Host)
    requires Mirrors(t, a, t', b)
    ensures Replies(t', b, ns, ids, host) == MovedReplies(Replies(t, a, ns, ids, host), b, host)
    decreases |ids|
  {
    if ids != [] {
      MirroredReplies(t, a, t', b, ns, ids[1..], host);
      MirroredGet(t, a, t', b, ns, Some(ids[0]), host);
    }
  }

  lemma {:induction false} CollectMoved(rs: seq<Reply>, b: string, host: Host)
    ensures Collect(MovedReplies(rs, b, host)) == MovedTuples(Collect(rs), b, host)
    decreases |rs|
  {
    if rs != [] {
      CollectMoved(rs[1..], b, host);
      assert MovedReplies(rs, b, host)[1..] == MovedReplies(rs[1..], b, host);
      if Collect(rs).Listed? {
        assert Collect(rs).tuples[1..] == Collect(rs[1..]).tuples;
      }
    }
  }

  /** And so does every listing, page by page, for filters that do not test thread_id. */
  lemma CopyListsAlike(t: Tables, a: string, b: string, ns: string, before: Option<Uuid>, limit: Option<int>, filter: Option<Json>, host: Host)
    requires a != b && NoRows(t, b) && IgnoresThreadId(filter)
    ensures List(CopyThread(t, a, b), b, ns, before, limit, filter, host) == MovedTuples(List(t, a, ns, before, limit, filter, host), b, host)
  {
    CopyMirrors(t, a, b);
    MirroredList(t, a, CopyThread(t, a, b), b, ns, before, limit, filter, host);
  }

  lemma MirroredList(t: Tables, a: string, t': Tables, b: string, ns: string, before: Option<Uuid>, limit: Option<int>, filter: Option<Json>, host: Host)
    requires Mirrors(t, a, t', b) && IgnoresThreadId(filter)
    ensures List(t', b, ns, before, limit, filter, host) == MovedTuples(List(t, a, ns, before, limit, filter, host), b, host)
  {
    MirroredListing(t, a, t', b, ns, before, filter);
    if limit.None? || limit.value >= 0 {
      var ids := Page(t, a, ns, before, if limit.Some? then Some(limit.value) else None, filter);
      MirroredReplies(t, a, t', b, ns, ids, host);
      CollectMoved(Replies(t, a, ns, ids, host), b, host);
    }
  }

  lemma {:induction false} WithinItself(j: Json)
    ensures Within(j, j)
    decreases j
  {
    match j
    case JObj(fields) =>
      forall k | k in fields ensures Within(fields[k], fields[k]) {
        WithinItself(fields[k]);
      }
    case JArr(items) =>
      forall i | 0 <= i < |items| ensures WithinSome(items[i], items) {
        WithinItself(items[i]);
      }
    case _ =>
  }

  ghost predicate ListsAlike(t: Tables, a: string, b: string, ns: string, filter: Option<Json>) {
    Listing(CopyThread(t, a, b), b, ns, None, filter) == Listing(t, a, ns, None, filter)
  }

  /** Some text parses to the value. */
  ghost predicate HasText(j: Json, host: Host) {
    exists text: Bytes :: host.parse(text) == Some(j)
  }

  /** Each entry of the object has a text, so that a request can send it. */
  ghost predicate EntriesHaveText(doc: Object, host: Host) {
    forall k | k in doc :: HasText(doc[k], host)
  }

  /** The filter is one a client can also store: what it asks for under each key has a text. */
  ghost predicate Storable(filter: Option<Json>, host: Host) {
    filter.Some? && filter.value.JObj? ==> EntriesHaveText(filter.value.fields, host)
  }

  ghost function TextOf(j: Json, host: Host): (text: Bytes)
    requires HasText(j, host)
    ensures host.parse(text) == Some(j)
  {
    var text: Bytes :| host.parse(text) == Some(j);
    text
  }

  /** A put of one checkpoint whose metadata extras carry the entries of `doc`. */
  ghost function PutWith(a: string, ns: string, doc: Object, host: Host): PutRequest
    requires EntriesHaveText(doc, host)
  {
    PutRequest(a, ns, None, "", Checkpoint(0, 0, "", map[], map[], [], map[]),
               Some(Metadata(0, 0, map[], "", map k | k in doc :: TextOf(doc[k], host))), map[])
  }

  /** The metadata document stored holds those entries, and a thread id only if `doc` does. */
  lemma PutStores(a: string, ns: string, doc: Object, host: Host)
    requires EntriesHaveText(doc, host)
    ensures var stored := MetadataDoc(PutWith(a, ns, doc, host).metadata, host);
            && (forall k | k in doc :: k in stored && stored[k] == doc[k])
            && ("thread_id" in stored <==> "thread_id" in doc)
  {
    var md := PutWith(a, ns, doc, host).metadata.value;
    assert ExtrasDoc(md.extras, host) == doc;
    assert "thread_id" !in StandardDoc(md);
  }

  lemma IsListed(t: Tables, thread: string, ns: string, i: Uuid, filter: Json)
    ensures i in Listing(t, thread, ns, None, Some(filter)) <==>
              var k := CkptKey(thread, ns, i); k in t.checkpoints && Contains(JObj(t.checkpoints[k].metadata), filter)
  {
    assert i in Listing(t, thread, ns, None, Some(filter)) <==> i in Ids(t, thread, ns, None, Some(filter));
    var k := CkptKey(thread, ns, i);
    assert i in Ids(t, thread, ns, None, Some(filter)) <==> k in t.checkpoints && Contains(JObj(t.checkpoints[k].metadata), filter);
  }

  /** A thread and its copy list differently when the filter tells a document from the moved one. */
  lemma ListsApart(t: Tables, a: string, b: string, ns: string, id: Uuid, filter: Json)
    requires a != b && NoRows(t, b) && CkptKey(a, ns, id) in t.checkpoints
    requires var doc := t.checkpoints[CkptKey(a, ns, id)].metadata;
             Contains(JObj(doc), filter) != Contains(JObj(doc["thread_id" := JStr(b)]), filter)
    ensures !ListsAlike(t, a, b, ns, Some(filter))
  {
    CopiedCheckpoints(t, a, b);
    IsListed(t, a, ns, id, filter);
    IsListed(CopyThread(t, a, b), b, ns, id, filter);
  }

  lemma RunOne(t: Tables, op: Op, host: Host)
    ensures Run(t, [op], host) == Step(t, op, host)
  {
    assert [op][1..] == [];
    assert Run(Step(t, op, host), [], host) == Step(t, op, host);
  }

  lemma OnePut(req: PutRequest, b: string, host: Host)
    requires b != req.thread
    ensures var t := Put(NO_ROWS, req, host);
            NoRows(t, b) && PutKey(req) in t.checkpoints && t.checkpoints[PutKey(req)].metadata == MetadataDoc(req.metadata, host)
  {
  }

  lemma SafeFilter(t: Tables, a: string, b: string, ns: string, filter: Option<Json>)
    requires a != b && NoRows(t, b) && IgnoresThreadId(filter)
    ensures ListsAlike(t, a, b, ns, filter)
  {
    CopyMirrors(t, a, b);
    MirroredListing(t, a, CopyThread(t, a, b), b, ns, None, filter);
  }

  /** For any other filter one put makes the difference. */
  lemma UnsafeFilter(a: string, b: string, ns: string, filter: Option<Json>, host: Host) returns (req: PutRequest)
    requires a != b && Storable(filter, host) && !IgnoresThreadId(filter)
    ensures var t := Run(NO_ROWS, [PutOp(req)], host);
            NoRows(t, b) && !ListsAlike(t, a, b, ns, filter)
  {
    var asked := filter.value.fields;
    var doc := if asked["thread_id"] == JStr(b) then asked - {"thread_id"} else asked;
    req := PutWith(a, ns, doc, host);
    PutStores(a, ns, doc, host);
    ThreadIdTells(asked, MetadataDoc(req.metadata, host), b);
    OnePut(req, b, host);
    RunOne(NO_ROWS, PutOp(req), host);
    ListsApart(Put(NO_ROWS, req, host), a, b, ns, 0, filter.value);
  }

  /**
    The filters under which a copy always lists like its original, in every state requests can
    reach, are exactly those that do not test thread_id.
  */
  lemma ListsAlikeExactly(a: string, b: string, ns: string, filter: Option<Json>, host: Host)
    requires a != b && Storable(filter, host)
    ensures IgnoresThreadId(filter) <==>
            forall ops | NoRows(Run(NO_ROWS, ops, host), b) :: ListsAlike(Run(NO_ROWS, ops, host), a, b, ns, filter)
  {
    if IgnoresThreadId(filter) {
      forall ops | NoRows(Run(NO_ROWS, ops, host), b) ensures ListsAlike(Run(NO_ROWS, ops, host), a, b, ns, filter) {
        SafeFilter(Run(NO_ROWS, ops, host), a, b, ns, filter);
      }
    } else {
      var req := UnsafeFilter(a, b, ns, filter, host);
    }
  }

  lemma HoldsAll(doc: Object, asked: Object)
    requires forall k | k in asked :: k in doc && doc[k] == asked[k]
    ensures Contains(JObj(doc), JObj(asked))
  {
    forall k | k in asked ensures Within(asked[k], doc[k]) {
      WithinItself(asked[k]);
    }
  }

  /** A filter with a thread id matches just one of: a document with all it asks for, and the same moved to `b`. */
  lemma ThreadIdTells(asked: Object, stored: Object, b: string)
    requires "thread_id" in asked
    requires forall k | k in asked && k != "thread_id" :: k in stored && stored[k] == asked[k]
    requires if asked["thread_id"] == JStr(b) then "thread_id" !in stored else "thread_id" in stored && stored["thread_id"] == asked["thread_id"]
    ensures Contains(JObj(stored), JObj(asked)) != Contains(JObj(stored["thread_id" := JStr(b)]), JObj(asked))
  {
    var moved := stored["thread_id" := JStr(b)];
    if asked["thread_id"] == JStr(b) {
      HoldsAll(moved, asked);
    } else {
      HoldsAll(stored, asked);
      if Contains(JObj(moved), JObj(asked)) {
        assert Within(asked["thread_id"], moved["thread_id"]);
      }
    }
  }

  /** Rows of any thread but the target are left alone. */
  lemma CopyLeavesOthers(t: Tables, a: string, b: string, other: string)
    requires other != b
    ensures var t' := CopyThread(t, a, b);
            && (forall k: CkptKey | k.thread == other :: (k in t'.checkpoints <==> k in t.checkpoints) && (k in t.checkpoints ==> t'.checkpoints[k] == t.checkpoints[k]))
            && (forall k: BlobKey | k.thread == other :: (k in t'.blobs <==> k in t.blobs) && (k in t.blobs ==> t'.blobs[k] == t.blobs[k]))
            && (forall k: WriteKey | k.thread == other :: (k in t'.writes <==> k in t.writes) && (k in t.writes ==> t'.writes[k] == t.writes[k]))
  {
  }

  /** Copying again changes nothing, whatever the target held at first. */
  lemma CopyTwice(t: Tables, a: string, b: string)
    ensures CopyThread(CopyThread(t, a, b), a, b) == CopyThread(t, a, b)
  {
    CheckpointsTwice(t.checkpoints, a, b);
    BlobsTwice(t.blobs, a, b);
    WritesTwice(t.writes, a, b);
  }

  lemma CheckpointsTwice(m: map<CkptKey, CkptRow>, a: string, b: string)
    ensures CopyCheckpoints(CopyCheckpoints(m, a, b), a, b) == CopyCheckpoints(m, a, b)
  {
    var once := CopyCheckpoints(m, a, b);
    forall k | k in once && k.thread == a ensures k.(thread := b) in once {
      assert k.(thread := a) == k;
      assert k in m;
    }
    var twice := CopyCheckpoints(once, a, b);
    assert twice.Keys == once.Keys;
    assert forall k | k in once :: twice[k] == once[k];
  }

  lemma BlobsTwice(m: map<BlobKey, Payload>, a: string, b: string)
    ensures CopyBlobs(CopyBlobs(m, a, b), a, b) == CopyBlobs(m, a, b)
  {
    var once := CopyBlobs(m, a, b);
    forall k | k in once && k.thread == a ensures k.(thread := b) in once {
      assert k.(thread := a) == k;
      assert k in m;
    }
    var twice := CopyBlobs(once, a, b);
    assert twice.Keys == once.Keys;
    assert forall k | k in once :: twice[k] == once[k];
  }

  lemma WritesTwice(m: map<WriteKey, WriteRow>, a: string, b: string)
    ensures CopyWrites(CopyWrites(m, a, b), a, b) == CopyWrites(m, a, b)
  {
    var once := CopyWrites(m, a, b);
    forall k | k in once && k.thread == a ensures k.(thread := b) in once {
      assert k.(thread := a) == k;
      assert k in m;
    }
    var twice := CopyWrites(once, a, b);
    assert twice.Keys == once.Keys;
    assert forall k | k in once :: twice[k] == once[k];
  }
}
