/** Paging, pruning, and reading back what was put. */
module CheckpointReads {
  import opened Json
  import opened Ordering
  import opened Checkpoints
  import opened CheckpointHistory
  import opened CheckpointReadability

  // ------------------------------------------------------------------ paging

  /**
    A client that asks for pages, each before the id of the last tuple of the previous one, until
    one is empty; it gives up when a page fails.
  */
  function AllPages(t: Tables, thread: string, ns: string, before: Option<Uuid>, limit: nat, filter: Option<Json>, host: Host): ListReply
    requires limit >= 1
    decreases |Ids(t, thread, ns, before, filter)|
  {
    match List(t, thread, ns, before, Some(limit), filter, host)
    case ListFailed => ListFailed
    case Listed(page) =>
      if page == [] then Listed([])
      else
        PageShrinks(t, thread, ns, before, limit, filter);
        PageTuples(t, thread, ns, before, limit, filter, host);
        Both(Listed(page), AllPages(t, thread, ns, Some(page[|page| - 1].checkpoint.id), limit, filter, host))
  }

  /** Two replies one after the other; a failure of either is a failure. */
  function Both(a: ListReply, b: ListReply): ListReply {
    match (a, b)
    case (Listed(x), Listed(y)) => Listed(x + y)
    case _ => ListFailed
  }

  /** The listing below the k-th id is what follows it in the listing. */
  lemma ListingBelow(t: Tables, thread: string, ns: string, before: Option<Uuid>, filter: Option<Json>, k: nat)
    requires k < |Listing(t, thread, ns, before, filter)|
    ensures var all := Listing(t, thread, ns, before, filter);
            Listing(t, thread, ns, Some(all[k]), filter) == all[k + 1..]
  {
    Orders();
    var ids := Ids(t, thread, ns, before, filter);
    var all := Listing(t, thread, ns, before, filter);
    SortedTail(ids, Descending, k);
    assert all[k] in ids;
    var below := Ids(t, thread, ns, Some(all[k]), filter);
    forall i: Uuid ensures i in below <==> i in After(ids, Descending, all[k]) {
      var key := CkptKey(thread, ns, i);
      assert i in below <==> key in t.checkpoints && i < all[k] && (filter.Some? ==> Contains(JObj(t.checkpoints[key].metadata), filter.value));
      assert i in ids <==> key in t.checkpoints && (before.Some? ==> i < before.value)
                           && (filter.Some? ==> Contains(JObj(t.checkpoints[key].metadata), filter.value));
    }
    assert below == After(ids, Descending, all[k]);
  }

  lemma PageShrinks(t: Tables, thread: string, ns: string, before: Option<Uuid>, limit: nat, filter: Option<Json>)
    requires limit >= 1 && Page(t, thread, ns, before, Some(limit), filter) != []
    ensures var page := Page(t, thread, ns, before, Some(limit), filter);
            |Ids(t, thread, ns, Some(page[|page| - 1]), filter)| < |Ids(t, thread, ns, before, filter)|
  {
    var page := Page(t, thread, ns, before, Some(limit), filter);
    ListingBelow(t, thread, ns, before, filter, |page| - 1);
  }

  lemma {:induction false} TuplesOfIds(t: Tables, thread: string, ns: string, ids: seq<Uuid>, host: Host)
    ensures var r := Tuples(t, thread, ns, ids, host);
            r.Listed? ==> |r.tuples| == |ids| && forall i | 0 <= i < |ids| :: r.tuples[i].checkpoint.id == ids[i]
    decreases |ids|
  {
    if ids != [] {
      TuplesOfIds(t, thread, ns, ids[1..], host);
      var rs := Replies(t, thread, ns, ids, host);
      assert rs[1..] == Replies(t, thread, ns, ids[1..], host);
    }
  }

  /** A page has a tuple for each of its ids, in order. */
  lemma PageTuples(t: Tables, thread: string, ns: string, before: Option<Uuid>, limit: nat, filter: Option<Json>, host: Host)
    ensures var ids, r := Page(t, thread, ns, before, Some(limit), filter), List(t, thread, ns, before, Some(limit), filter, host);
            r.Listed? ==> |r.tuples| == |ids| && forall i | 0 <= i < |ids| :: r.tuples[i].checkpoint.id == ids[i]
  {
    TuplesOfIds(t, thread, ns, Page(t, thread, ns, before, Some(limit), filter), host);
  }

  /** The reply for one id. */
  function OneTuple(t: Tables, thread: string, ns: string, id: Uuid, host: Host): ListReply {
    var r := GetTuple(t, thread, ns, Some(id), host);
    if r.Got? then Listed([r.tuple]) else ListFailed
  }

  lemma TuplesCons(t: Tables, thread: string, ns: string, ids: seq<Uuid>, host: Host)
    requires ids != []
    ensures Tuples(t, thread, ns, ids, host) == Both(OneTuple(t, thread, ns, ids[0], host), Tuples(t, thread, ns, ids[1..], host))
  {
    assert Replies(t, thread, ns, ids, host)[1..] == Replies(t, thread, ns, ids[1..], host);
  }

  lemma BothAssociates(a: ListReply, b: ListReply, c: ListReply)
    ensures Both(Both(a, b), c) == Both(a, Both(b, c))
  {
    if a.Listed? && b.Listed? && c.Listed? {
      assert a.tuples + b.tuples + c.tuples == a.tuples + (b.tuples + c.tuples);
    }
  }

  lemma {:induction false} TuplesAppend(t: Tables, thread: string, ns: string, a: seq<Uuid>, b: seq<Uuid>, host: Host)
    ensures Tuples(t, thread, ns, a + b, host) == Both(Tuples(t, thread, ns, a, host), Tuples(t, thread, ns, b, host))
    decreases |a|
  {
    if a == [] {
      assert a + b == b;
    } else {
      assert (a + b)[1..] == a[1..] + b;
      TuplesCons(t, thread, ns, a, host);
      TuplesCons(t, thread, ns, a + b, host);
      TuplesAppend(t, thread, ns, a[1..], b, host);
      BothAssociates(OneTuple(t, thread, ns, a[0], host), Tuples(t, thread, ns, a[1..], host), Tuples(t, thread, ns, b, host));
    }
  }

  /** One step of the client, in terms of ids. */
  lemma PagesUnfold(t: Tables, thread: string, ns: string, before: Option<Uuid>, limit: nat, filter: Option<Json>, host: Host)
    requires limit >= 1 && Page(t, thread, ns, before, Some(limit), filter) != []
    ensures var page := Page(t, thread, ns, before, Some(limit), filter);
            AllPages(t, thread, ns, before, limit, filter, host) ==
            Both(Tuples(t, thread, ns, page, host), AllPages(t, thread, ns, Some(page[|page| - 1]), limit, filter, host))
  {
    PageTuples(t, thread, ns, before, limit, filter, host);
  }

  lemma PagesStop(t: Tables, thread: string, ns: string, before: Option<Uuid>, limit: nat, filter: Option<Json>, host: Host)
    requires limit >= 1 && Page(t, thread, ns, before, Some(limit), filter) == []
    ensures AllPages(t, thread, ns, before, limit, filter, host) == Listed([])
    ensures Listing(t, thread, ns, before, filter) == []
  {
  }

  lemma PageIsPrefix(t: Tables, thread: string, ns: string, before: Option<Uuid>, limit: nat, filter: Option<Json>)
    ensures Page(t, thread, ns, before, Some(limit), filter) <= Listing(t, thread, ns, before, filter)
  {
  }

  /** A listing is its first page followed by the listing below that. */
  lemma PageSplit(t: Tables, thread: string, ns: string, before: Option<Uuid>, limit: nat, filter: Option<Json>)
    requires limit >= 1 && Page(t, thread, ns, before, Some(limit), filter) != []
    ensures var page := Page(t, thread, ns, before, Some(limit), filter);
            Listing(t, thread, ns, before, filter) == page + Listing(t, thread, ns, Some(page[|page| - 1]), filter)
  {
    var all, page := Listing(t, thread, ns, before, filter), Page(t, thread, ns, before, Some(limit), filter);
    PageIsPrefix(t, thread, ns, before, limit, filter);
    ListingBelow(t, thread, ns, before, filter, |page| - 1);
    PrefixAndRest(page, all);
  }

  lemma PrefixAndRest(page: seq<Uuid>, all: seq<Uuid>)
    requires page <= all && page != []
    ensures page[|page| - 1] == all[|page| - 1] && all == page + all[|page| - 1 + 1..]
  {
  }

  lemma {:induction false} PagesAreTuples(t: Tables, thread: string, ns: string, before: Option<Uuid>, limit: nat, filter: Option<Json>, host: Host)
    requires limit >= 1
    ensures AllPages(t, thread, ns, before, limit, filter, host) == Tuples(t, thread, ns, Listing(t, thread, ns, before, filter), host)
    decreases |Ids(t, thread, ns, before, filter)|
  {
    var page := Page(t, thread, ns, before, Some(limit), filter);
    if page == [] {
      PagesStop(t, thread, ns, before, limit, filter, host);
    } else {
      var last := page[|page| - 1];
      PageShrinks(t, thread, ns, before, limit, filter);
      PagesUnfold(t, thread, ns, before, limit, filter, host);
      PagesAreTuples(t, thread, ns, Some(last), limit, filter, host);
      PageSplit(t, thread, ns, before, limit, filter);
      TuplesAppend(t, thread, ns, page, Listing(t, thread, ns, Some(last), filter), host);
    }
  }

  /**
    Paging answers what the unlimited listing answers: the same tuples in the same order, nothing
    missing and nothing repeated, and a failure exactly when the unlimited listing fails.
  */
  lemma PagingIsExact(t: Tables, thread: string, ns: string, before: Option<Uuid>, limit: nat, filter: Option<Json>, host: Host)
    requires limit >= 1
    ensures AllPages(t, thread, ns, before, limit, filter, host) == List(t, thread, ns, before, None, filter, host)
  {
    PagesAreTuples(t, thread, ns, before, limit, filter, host);
  }

  /** A listing holds exactly the matching ids, strictly descending. */
  lemma ListingIsExact(t: Tables, thread: string, ns: string, before: Option<Uuid>, filter: Option<Json>, i: Uuid, m: nat, n: nat)
    ensures i in Listing(t, thread, ns, before, filter) <==>
            && CkptKey(thread, ns, i) in t.checkpoints
            && (before.Some? ==> i < before.value)
            && (filter.Some? ==> Contains(JObj(t.checkpoints[CkptKey(thread, ns, i)].metadata), filter.value))
    ensures m < n < |Listing(t, thread, ns, before, filter)| ==>
              Listing(t, thread, ns, before, filter)[m] > Listing(t, thread, ns, before, filter)[n]
  {
    Orders();
    var ids := Ids(t, thread, ns, before, filter);
    assert i in Listing(t, thread, ns, before, filter) <==> i in ids;
    if m < n < |ids| {
      SortedAscends(ids, Descending, m, n);
    }
  }

  /** The lookup without an id is the head of the unfiltered listing, and is the greatest id. */
  lemma LatestIsHead(t: Tables, thread: string, ns: string, k: CkptKey)
    ensures Lookup(t, thread, ns, None) == Some(k) <==>
            k in t.checkpoints && k.thread == thread && k.ns == ns && Latest(t, k)
  {
    Orders();
    var ids := Ids(t, thread, ns, None, None);
    var all := Listing(t, thread, ns, None, None);
    assert forall o | o in t.checkpoints && o.thread == thread && o.ns == ns :: o.id in ids;
    if all != [] {
      SortedHead(ids, Descending);
      assert all[0] in all;
    }
  }

  // ----------------------------------------------------------------- pruning

  /**
    KEEP_LATEST leaves, in each listed thread and namespace, exactly the row that the lookup for
    the latest selected before; other threads keep every row.
  */
  lemma KeepLatestKeepsTheLatest(t: Tables, threads: seq<string>, k: CkptKey)
    ensures var t' := KeepLatest(t, threads);
            && (k in t'.checkpoints ==> k in t.checkpoints && t'.checkpoints[k] == t.checkpoints[k])
            && (k.thread in threads ==> (k in t'.checkpoints <==> Lookup(t, k.thread, k.ns, None) == Some(k)))
            && (k.thread !in threads ==> (k in t'.checkpoints <==> k in t.checkpoints))
            && Lookup(t', k.thread, k.ns, None) == Lookup(t, k.thread, k.ns, None)
            && t'.blobs == t.blobs && t'.writes == t.writes
  {
    LatestIsHead(t, k.thread, k.ns, k);
    var t' := KeepLatest(t, threads);
    match Lookup(t, k.thread, k.ns, None)
    case Some(top) =>
      LatestIsHead(t, k.thread, k.ns, top);
      LatestIsHead(t', k.thread, k.ns, top);
    case None =>
      match Lookup(t', k.thread, k.ns, None) {
        case None =>
        case Some(top) => SomethingToLookUp(t, top);
      }
  }

  lemma SomethingToLookUp(t: Tables, k: CkptKey)
    requires k in t.checkpoints
    ensures Lookup(t, k.thread, k.ns, None).Some?
  {
    assert k.id in Ids(t, k.thread, k.ns, None, None);
  }

  lemma {:induction false} SamePayloads(t: Tables, t': Tables, thread: string, ns: string, id: Uuid, at: seq<Position>)
    requires t'.writes == t.writes
    ensures SendPayloads(t', thread, ns, id, at) == SendPayloads(t, thread, ns, id, at)
    decreases |at|
  {
    if at != [] {
      SamePayloads(t, t', thread, ns, id, at[1..]);
    }
  }

  lemma {:induction false} SamePendingWrites(t: Tables, t': Tables, k: CkptKey, at: seq<Position>, host: Host)
    requires t'.writes == t.writes
    ensures PendingWrites(t', k, at, host) == PendingWrites(t, k, at, host)
    decreases |at|
  {
    if at != [] {
      SamePendingWrites(t, t', k, at[1..], host);
    }
  }

  lemma SamePositions(t: Tables, t': Tables, thread: string, ns: string, id: Uuid, channel: Option<string>)
    requires t'.writes == t.writes
    ensures OrderedWrites(t', thread, ns, id, channel) == OrderedWrites(t, thread, ns, id, channel)
  {
    assert Positions(t', thread, ns, id, channel) == Positions(t, thread, ns, id, channel);
  }

  lemma SameSends(t: Tables, t': Tables, k: CkptKey)
    requires t'.writes == t.writes && k in t.checkpoints && k in t'.checkpoints && t'.checkpoints[k] == t.checkpoints[k]
    ensures PendingSends(t', k) == PendingSends(t, k)
  {
    match t.checkpoints[k].parent
    case None =>
    case Some(parent) =>
      SamePositions(t, t', k.thread, k.ns, parent, Some(TASKS));
      SamePayloads(t, t', k.thread, k.ns, parent, OrderedWrites(t, k.thread, k.ns, parent, Some(TASKS)));
  }

  lemma SameBlobValues(t: Tables, t': Tables, k: CkptKey, host: Host)
    requires t'.blobs == t.blobs && k in t.checkpoints && k in t'.checkpoints && t'.checkpoints[k] == t.checkpoints[k]
    ensures BlobValues(t', k, host) == BlobValues(t, k, host) && BlobsDecode(t', k, host) == BlobsDecode(t, k, host)
  {
    assert forall c :: BlobOf(t', k, c) == BlobOf(t, k, c);
    assert forall c :: BlobValue(t', k, c, host) == BlobValue(t, k, c, host);
  }

  lemma SameWritesDecode(t: Tables, t': Tables, k: CkptKey, host: Host)
    requires t'.writes == t.writes
    ensures WritesDecode(t', k, host) == WritesDecode(t, k, host)
  {
  }

  /** A reply depends on the checkpoint's own row, the blobs and the writes only. */
  lemma SameReply(t: Tables, t': Tables, k: CkptKey, host: Host)
    requires t'.blobs == t.blobs && t'.writes == t.writes
    requires k in t.checkpoints && k in t'.checkpoints && t'.checkpoints[k] == t.checkpoints[k]
    ensures ReplyFor(t', k, host) == ReplyFor(t, k, host)
  {
    SameSends(t, t', k);
    SamePositions(t, t', k.thread, k.ns, k.id, None);
    SamePendingWrites(t, t', k, OrderedWrites(t, k.thread, k.ns, k.id, None), host);
    SameBlobValues(t, t', k, host);
    SameWritesDecode(t, t', k, host);
  }

  /** So a lookup for the latest answers after pruning what it answered before, tuple or error. */
  lemma KeepLatestAnswersAlike(t: Tables, threads: seq<string>, thread: string, ns: string, host: Host)
    ensures GetTuple(KeepLatest(t, threads), thread, ns, None, host) == GetTuple(t, thread, ns, None, host)
  {
    KeepLatestKeepsTheLatest(t, threads, CkptKey(thread, ns, 0));
    match Lookup(t, thread, ns, None)
    case None =>
    case Some(k) => SameReply(t, KeepLatest(t, threads), k, host);
  }

  /** Pruning again, or naming a thread more than once, changes nothing more. */
  lemma PruneTwice(t: Tables, threads: seq<string>, strategy: int)
    ensures var once := Prune(t, threads, strategy);
            && Prune(once.0, threads, strategy) == once
            && Prune(t, threads + threads, strategy) == once
  {
    assert forall s :: s in threads + threads <==> s in threads;
    var once := KeepLatest(t, threads);
    forall k | k in once.checkpoints ensures k.thread in threads ==> Latest(once, k) {}
    assert KeepLatest(once, threads) == once;
    assert KeepLatest(t, threads + threads) == once;
    assert DeleteAll(DeleteAll(t, threads), threads) == DeleteAll(t, threads);
    assert DeleteAll(t, threads + threads) == DeleteAll(t, threads);
  }

  // -------------------------------------------------------- put, then get back

  lemma StringsRoundTrip(m: map<string, string>)
    ensures StringsOf(Strings(m)) == m
  {
  }

  lemma {:induction false} StringItemsRoundTrip(s: seq<string>)
    ensures StringItems(StringList(s)) == s
    decreases |s|
  {
    if s != [] {
      StringItemsRoundTrip(s[1..]);
      assert StringList(s)[1..] == StringList(s[1..]);
    }
  }

  /** The checkpoint document reads back as the checkpoint, channel values apart. */
  lemma CheckpointDocRoundTrip(cp: Checkpoint, host: Host)
    requires Faithful(host)
    ensures ReadCheckpoint(CheckpointDoc(cp, host), cp.id, host) ==
            cp.(v := host.toUint64(cp.v as real), channelValues := map[])
    ensures cp.v <= EXACT ==> host.toUint64(cp.v as real) == cp.v
  {
    var doc := CheckpointDoc(cp, host);
    StringsRoundTrip(cp.channelVersions);
    var seen := Field(doc, "versions_seen");
    forall n | n in cp.versionsSeen ensures StringsOf(seen.fields[n]) == cp.versionsSeen[n] {
      StringsRoundTrip(cp.versionsSeen[n]);
    }
    assert (map n | n in seen.fields && seen.fields[n].JObj? :: StringsOf(seen.fields[n])) == cp.versionsSeen;
    StringItemsRoundTrip(cp.updatedChannels);
    assert (cp.v as real).Floor == cp.v;
  }

  /** A source number the service has no name for is stored, and read, as unknown. */
  function KnownSource(n: int): int {
    if 1 <= n <= 4 then n else 0
  }

  lemma SourceRoundTrip(n: int, host: Host)
    ensures ReadSource(if SourceName(n).Some? then JStr(SourceName(n).value) else JNull, host) == KnownSource(n)
  {
  }

  lemma FieldOfUnion(a: Object, b: Object, key: string)
    requires key !in b
    ensures Field(a + b, key) == Field(a, key)
  {
  }

  lemma StandardFields(md: Metadata)
    ensures var doc := StandardDoc(md);
            && doc.Keys <= KNOWN_METADATA
            && Field(doc, "step") == JNum(md.step as real)
            && Field(doc, "parents") == (if md.parents == map[] then JNull else Strings(md.parents))
            && Field(doc, "source") == (if SourceName(md.source).Some? then JStr(SourceName(md.source).value) else JNull)
            && Field(doc, "run_id") == (if md.runId != "" then JStr(md.runId) else JNull)
  {
  }

  lemma ExtrasReadBack(md: Metadata, host: Host)
    requires md.extras.Keys !! KNOWN_METADATA
    ensures var doc := MetadataDoc(Some(md), host);
            (map k | k in doc && k !in KNOWN_METADATA :: host.render(doc[k])) == ReadExtras(md, host)
  {
    StandardFields(md);
  }

  /** Extras as they come back: the JSON text of what was stored for each. */
  function ReadExtras(md: Metadata, host: Host): map<string, Bytes> {
    map k | k in md.extras ::
      var j := host.parse(md.extras[k]);
      host.render(if j.Some? then j.value else JStr(host.base64(md.extras[k])))
  }

  lemma ExtrasApartComeBack(md: Metadata, host: Host)
    requires Faithful(host) && md.extras.Keys !! KNOWN_METADATA && -0x8000_0000 <= md.step < 0x8000_0000
    ensures ReadMetadata(MetadataDoc(Some(md), host), host) == md.(source := KnownSource(md.source), extras := ReadExtras(md, host))
  {
    var a, b := StandardDoc(md), ExtrasDoc(md.extras, host);
    StandardFields(md);
    FieldOfUnion(a, b, "source");
    FieldOfUnion(a, b, "step");
    FieldOfUnion(a, b, "parents");
    FieldOfUnion(a, b, "run_id");
    SourceRoundTrip(md.source, host);
    StringsRoundTrip(md.parents);
    ExtrasReadBack(md, host);
    assert (md.step as real).Floor == md.step;
  }

  /**
    Stored metadata reads back, its extras as JSON text, exactly when no extra is named like a
    standard key; an extra that is takes the standard key's place and is not read as an extra.
  */
  lemma MetadataDocRoundTrip(md: Metadata, host: Host)
    requires Faithful(host) && -0x8000_0000 <= md.step < 0x8000_0000
    ensures ReadMetadata(MetadataDoc(Some(md), host), host) == md.(source := KnownSource(md.source), extras := ReadExtras(md, host))
            <==> md.extras.Keys !! KNOWN_METADATA
  {
    if md.extras.Keys !! KNOWN_METADATA {
      ExtrasApartComeBack(md, host);
    } else {
      var k :| k in md.extras && k in KNOWN_METADATA;
      var read := ReadMetadata(MetadataDoc(Some(md), host), host);
      assert k !in read.extras && k in ReadExtras(md, host);
    }
  }

  /** What is stored for a checkpoint, key by key. */
  lemma StoredCheckpoint(cp: Checkpoint, host: Host)
    ensures var doc := CheckpointDoc(cp, host);
            && doc.Keys == {"v", "id", "ts", "channel_versions", "versions_seen", "updated_channels"}
            && doc["v"] == JNum(cp.v as real) && doc["id"] == JStr(host.text(cp.id)) && doc["ts"] == JStr(cp.ts)
            && (doc["updated_channels"] == JNull <==> cp.updatedChannels == [])
  {
  }

  /** What is stored for metadata: the source by name, parents or null, and a run id only if there is one; extras come over it. */
  lemma StoredMetadata(md: Metadata, host: Host)
    ensures var doc := MetadataDoc(Some(md), host);
            && (forall k | k in md.extras :: k in doc && doc[k] == var j := host.parse(md.extras[k]); if j.Some? then j.value else JStr(host.base64(md.extras[k])))
            && (forall k | k in doc && k !in md.extras :: k in {"step", "parents", "source", "run_id"})
            && ("step" !in md.extras ==> Field(doc, "step") == JNum(md.step as real))
            && ("parents" !in md.extras ==> "parents" in doc && (doc["parents"] == JNull <==> md.parents == map[]))
            && ("run_id" !in md.extras ==> Field(doc, "run_id") == if md.runId == "" then JNull else JStr(md.runId))
            && ("source" !in md.extras ==>
                 Field(doc, "source") == if md.source == 1 then JStr("loop") else if md.source == 2 then JStr("input")
                                         else if md.source == 3 then JStr("update") else if md.source == 4 then JStr("fork") else JNull)
    ensures MetadataDoc(None, host) == map[]
  {
    var a, b := StandardDoc(md), ExtrasDoc(md.extras, host);
    StandardFields(md);
    assert forall key | key !in b :: Field(a + b, key) == Field(a, key);
  }

  /**
    What any stored metadata document reads as, whatever extras or older rows put there: the
    source by name, or a number in older rows; other kinds of value read as absent.
  */
  lemma MetadataReads(doc: Object, host: Host, k: string)
    ensures var md := ReadMetadata(doc, host);
            && md.source == (if "source" !in doc then 0
                             else if doc["source"].JNum? then host.toInt32(doc["source"].n)
                             else if doc["source"] == JStr("loop") then 1 else if doc["source"] == JStr("input") then 2
                             else if doc["source"] == JStr("update") then 3 else if doc["source"] == JStr("fork") then 4 else 0)
            && md.step == (if "step" in doc && doc["step"].JNum? then host.toInt32(doc["step"].n) else 0)
            && md.runId == (if "run_id" in doc && doc["run_id"].JStr? then doc["run_id"].s else "")
            && (k in md.parents <==> "parents" in doc && doc["parents"].JObj? && k in doc["parents"].fields && doc["parents"].fields[k].JStr?)
            && (k in md.parents ==> JStr(md.parents[k]) == doc["parents"].fields[k])
            && (k in md.extras <==> k in doc && k !in {"source", "step", "parents", "run_id"})
            && (k in md.extras ==> md.extras[k] == host.render(doc[k]))
  {
  }

  /** For one, an extra "step" holding a number replaces the step of the request. */
  lemma ExtraStepOverwrites(bytes: Bytes, n: int, host: Host)
    requires Faithful(host) && host.parse(bytes) == Some(JNum(n as real)) && -0x8000_0000 <= n < 0x8000_0000
    ensures ReadMetadata(MetadataDoc(Some(Metadata(1, 0, map[], "", map["step" := bytes])), host), host) ==
            Metadata(1, n, map[], "", map[])
  {
    var md := Metadata(1, 0, map[], "", map["step" := bytes]);
    var doc := MetadataDoc(Some(md), host);
    StandardFields(md);
    FieldOfUnion(StandardDoc(md), ExtrasDoc(md.extras, host), "source");
    FieldOfUnion(StandardDoc(md), ExtrasDoc(md.extras, host), "parents");
    FieldOfUnion(StandardDoc(md), ExtrasDoc(md.extras, host), "run_id");
    assert doc["step"] == JNum(n as real);
    assert (n as real).Floor == n;
    assert doc.Keys <= KNOWN_METADATA;
  }

  /** The reply of a lookup of a checkpoint right after it was put. */
  function ReplyAfter(t: Tables, req: PutRequest, host: Host): Reply {
    GetTuple(Put(t, req, host), req.thread, req.ns, Some(req.checkpoint.id), host)
  }

  lemma PutVersions(t: Tables, req: PutRequest, host: Host)
    ensures var t' := Put(t, req, host);
            PutKey(req) in t'.checkpoints && VersionsIn(t'.checkpoints[PutKey(req)].checkpoint) == req.checkpoint.channelVersions
  {
    StringsRoundTrip(req.checkpoint.channelVersions);
  }

  /** A sent value the put checkpoint will read: newly stored, under the version listed, and not typed empty. */
  predicate ReadsNew(t: Tables, req: PutRequest, c: string) {
    && BlobLands(t, req, c)
    && c in req.checkpoint.channelVersions && req.checkpoint.channelVersions[c] == NewBlobKey(req, c).version
    && req.checkpoint.channelValues[c].payload.encoding != EMPTY_TYPE
  }

  /**
    Put, then get. The lookup answers with a tuple exactly when the checkpoint's own writes and
    its parent's sends decode, the blobs stored before under its versions decode, and every sent
    value it reads is sound; otherwise with a decode error.
  */
  lemma PutThenGet(t: Tables, req: PutRequest, host: Host)
    ensures PutKey(req) in Put(t, req, host).checkpoints && !ReplyAfter(t, req, host).NoCheckpoint?
    ensures ReplyAfter(t, req, host).Got? <==>
            && JoinedDecode(Put(t, req, host), PutKey(req), host)
            && SelectedDecode(t, PutKey(req), req.checkpoint.channelVersions, host)
            && forall c | ReadsNew(t, req, c) :: Sound(req.checkpoint.channelValues[c], host)
  {
    var t', k := Put(t, req, host), PutKey(req);
    PutVersions(t, req, host);
    PutKeepsReadable(t, req, k, host);
    assert forall c | BlobLands(t, req, c) :: Selects(t', k, req, c) <==> ReadsNew(t, req, c);
  }

  /**
    The tuple answered carries the ids, timestamp, versions and lists that were put, the version
    number when a float64 holds it, the metadata as it reads back, and the parent the first put
    of this id recorded.
  */
  lemma PutTupleIsAsPut(t: Tables, req: PutRequest, host: Host)
    requires Faithful(host) && ReplyAfter(t, req, host).Got?
    ensures var r := ReplyAfter(t, req, host).tuple;
            && r.thread == req.thread && r.ns == req.ns
            && r.checkpoint.(v := 0, channelValues := map[]) == req.checkpoint.(v := 0, channelValues := map[])
            && (req.checkpoint.v <= EXACT ==> r.checkpoint.v == req.checkpoint.v)
            && r.metadata == ReadMetadata(MetadataDoc(req.metadata, host), host)
            && r.parent == (if PutKey(req) in t.checkpoints then t.checkpoints[PutKey(req)].parent else req.configId)
  {
    CheckpointDocRoundTrip(req.checkpoint, host);
  }

  /** What a put checkpoint reads for a channel it sent: the first payload ever stored under that version. */
  lemma PutChannelThenGet(t: Tables, req: PutRequest, host: Host, c: string)
    requires c in req.checkpoint.channelValues && req.checkpoint.channelValues[c].Serialized?
    requires c in req.newVersions && c in req.checkpoint.channelVersions && req.newVersions[c] == req.checkpoint.channelVersions[c]
    ensures var t', k, key := Put(t, req, host), PutKey(req), NewBlobKey(req, c);
            var first := if key in t.blobs then t.blobs[key] else req.checkpoint.channelValues[c].payload;
            && k in t'.checkpoints
            && BlobOf(t', k, c) == (if first.encoding == EMPTY_TYPE then None else Some(first))
  {
    var t', k, key := Put(t, req, host), PutKey(req), NewBlobKey(req, c);
    StringsRoundTrip(req.checkpoint.channelVersions);
    assert VersionsIn(t'.checkpoints[k].checkpoint) == req.checkpoint.channelVersions;
    assert key in NewBlobs(req);
  }

  /** A stored payload that reads as the value `p`: itself, or marked bytes that unmarshal to it. */
  predicate ReadsAs(stored: Payload, p: Payload, host: Host) {
    && stored.encoding != EMPTY_TYPE
    && if stored.encoding == MARKER then host.unmarshal(stored.bytes) == Some(Serialized(p)) else stored == p
  }

  /**
    So in the tuple answered a channel comes back as put exactly when the payload first stored
    for its version reads as the one sent: in particular when nothing was stored for it before,
    unless the encoding sent is "empty" or the reserved one.
  */
  lemma PutChannelComesBack(t: Tables, req: PutRequest, host: Host, c: string)
    requires c in req.checkpoint.channelValues && req.checkpoint.channelValues[c].Serialized?
    requires c in req.newVersions && c in req.checkpoint.channelVersions && req.newVersions[c] == req.checkpoint.channelVersions[c]
    requires ReplyAfter(t, req, host).Got?
    ensures var t', k, key, sent := Put(t, req, host), PutKey(req), NewBlobKey(req, c), req.checkpoint.channelValues[c].payload;
            var values := ReplyAfter(t, req, host).tuple.checkpoint.channelValues;
            && k in t'.checkpoints
            && (NotOverlaid(t', k, c, host) ==>
                 (c in values && values[c] == Serialized(sent) <==> ReadsAs(if key in t.blobs then t.blobs[key] else sent, sent, host)))
            && (NotOverlaid(t', k, c, host) && key !in t.blobs && sent.encoding != EMPTY_TYPE && sent.encoding != MARKER ==>
                 c in values && values[c] == Serialized(sent))
  {
    var t', k := Put(t, req, host), PutKey(req);
    PutChannelThenGet(t, req, host, c);
    if NotOverlaid(t', k, c, host) {
      ValueRead(t', k, c, host);
    }
  }

  /**
    Deleting a thread's checkpoints does not forget its blobs: a checkpoint put afterwards under
    an old channel version still reads the old bytes.
  */
  lemma DeletedThreadRemembersBlobs(t: Tables, req: PutRequest, host: Host, c: string)
    requires c in req.checkpoint.channelValues && req.checkpoint.channelValues[c].Serialized?
    requires c in req.newVersions && c in req.checkpoint.channelVersions && req.newVersions[c] == req.checkpoint.channelVersions[c]
    requires NewBlobKey(req, c) in t.blobs && t.blobs[NewBlobKey(req, c)].encoding != EMPTY_TYPE
    ensures var t' := Put(DeleteThread(t, req.thread), req, host);
            PutKey(req) in t'.checkpoints && BlobOf(t', PutKey(req), c) == Some(t.blobs[NewBlobKey(req, c)])
  {
    PutChannelThenGet(DeleteThread(t, req.thread), req, host, c);
  }
}
