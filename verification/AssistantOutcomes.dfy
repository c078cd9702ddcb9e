/** What each request does to the assistant tables and what it answers, column by column. */
module AssistantOutcomes {
  import opened Json
  import opened Sql
  import opened AuthFilter
  import opened AssistantStore

  /** A version row with exactly the content of an assistant row. */
  predicate SameContent(v: Version, a: Assistant, now: int) {
    v == Version(a.graphId, a.name, a.config, a.context, a.metadata, a.description, now)
  }

  /**
    Creating: with bad filters that matter, an error; for a new id, a row with the given columns,
    absent documents being empty objects, and its version 1; otherwise the existing row if that
    is asked for and every filter accepts it, else a conflict.
  */
  lemma CreateOutcome(st: State, in_: CreateInput, generated: string, now: int, host: Host)
    ensures var id, (st', r) := if in_.id != "" then in_.id else generated, CreateStep(st, in_, generated, now, host);
            if in_.doNothing && in_.id != "" && !AllWellFormed(in_.filters) then st' == st && r.AuthError?
            else if id in st.assistants then
              && st' == st
              && r == if in_.doNothing && in_.id != "" && AllAccept(in_.filters, st.assistants[id].metadata, host.jsonb)
                      then Found(st.assistants[id]) else AlreadyExists
            else
              && r.Found? && CreatedRow(in_, r.row, now, host)
              && st'.assistants == st.assistants[id := r.row]
              && st'.versions.Keys == st.versions.Keys + {Key(id, 1)}
              && (forall k | k in st.versions :: st'.versions[k] == st.versions[k])
              && (Key(id, 1) !in st.versions ==> SameContent(st'.versions[Key(id, 1)], r.row, now))
  {
  }

  predicate CreatedRow(in_: CreateInput, a: Assistant, now: int, host: Host) {
    && a.graphId == in_.graphId && a.version == 1 && a.createdAt == now && a.updatedAt == now
    && a.config == host.jsonb(if in_.config.Some? then in_.config.value else "{}")
    && a.context == host.jsonb(if in_.context.Some? then in_.context.value else "{}")
    && a.metadata == host.jsonb(if in_.metadata.Some? then in_.metadata.value else "{}")
    && a.name == Some(in_.name) && a.description == in_.description
  }

  /** The columns given replace those of the row, metadata is merged, the rest stay. */
  predicate PatchedRow(in_: PatchInput, was: Assistant, a: Assistant, now: int, host: Host) {
    && a.graphId == (if in_.graphId == "" then was.graphId else in_.graphId)
    && a.config == (if in_.config == "" then was.config else host.jsonb(in_.config))
    && a.context == (if in_.context == "" then was.context else host.jsonb(in_.context))
    && a.metadata == (if in_.metadata == "" then was.metadata else host.concat(was.metadata, host.jsonb(in_.metadata)))
    && a.name == (if in_.name == None then was.name else in_.name)
    && a.description == (if in_.description == None then was.description else in_.description)
    && a.createdAt == was.createdAt && a.updatedAt == now
  }

  /** The number follows the greatest version number of the assistant. */
  ghost predicate NextNumber(vs: map<Key, Version>, id: string, n: nat) {
    && n >= 1
    && (forall k | k in vs && k.id == id :: k.number < n)
    && (n > 1 ==> Key(id, n - 1) in vs)
  }

  /**
    Patching: an error for bad filters, not found for an assistant absent or hidden; otherwise the
    row is patched, and a version with the next number and the same content is added.
  */
  lemma PatchOutcome(st: State, id: string, in_: PatchInput, fs: seq<Filter>, now: int, host: Host)
    ensures var (st', r) := PatchStep(st, id, in_, fs, now, host);
            if !AllWellFormed(fs) then st' == st && r.AuthError?
            else if id !in st.assistants || !AllAccept(fs, st.assistants[id].metadata, host.jsonb) then st' == st && r == NotFound
            else
              && r.Found? && PatchedRow(in_, st.assistants[id], r.row, now, host) && NextNumber(st.versions, id, r.row.version)
              && st'.assistants == st.assistants[id := r.row]
              && st'.versions.Keys == st.versions.Keys + {Key(id, r.row.version)}
              && (forall k | k in st.versions :: st'.versions[k] == st.versions[k])
              && SameContent(st'.versions[Key(id, r.row.version)], r.row, now)
  {
    if AllWellFormed(fs) && Visible(st, id, fs, host) {
      var number := Newest(st.versions, id) + 1;
      assert Key(id, number) !in st.versions;
    }
  }

  /** Deleting: as for patching, but the assistant and all its versions go, and nothing else. */
  lemma DeleteOutcome(st: State, id: string, fs: seq<Filter>, host: Host)
    ensures var (st', r) := DeleteStep(st, id, fs, host);
            if !AllWellFormed(fs) then st' == st && r.AuthError?
            else if id !in st.assistants || !AllAccept(fs, st.assistants[id].metadata, host.jsonb) then st' == st && r == NotFound
            else
              && r == Deleted
              && (forall o :: o in st'.assistants <==> o in st.assistants && o != id)
              && (forall o | o in st'.assistants :: st'.assistants[o] == st.assistants[o])
              && (forall k :: k in st'.versions <==> k in st.versions && k.id != id)
              && (forall k | k in st'.versions :: st'.versions[k] == st.versions[k])
  {
  }
}
