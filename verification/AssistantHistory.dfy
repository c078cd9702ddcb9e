/** What every run of Create, Patch, SetLatest and Delete keeps true of the assistant tables. */
module AssistantHistory {
  import opened Sql
  import opened AuthFilter
  import opened AssistantStore

  datatype Op =
    | Create(input: CreateInput, generated: string, now: int)
    | Patch(id: string, patch: PatchInput, filters: seq<Filter>, now: int)
    | SetLatest(id: string, number: nat)
    | Delete(id: string, filters: seq<Filter>)

  function Step(st: State, op: Op, host: Host): State {
    match op
    case Create(in_, generated, now) => CreateStep(st, in_, generated, now, host).0
    case Patch(id, in_, fs, now) => PatchStep(st, id, in_, fs, now, host).0
    case SetLatest(id, number) => SetLatestStep(st, id, number).0
    case Delete(id, fs) => DeleteStep(st, id, fs, host).0
  }

  function Run(st: State, ops: seq<Op>, host: Host): State
    decreases |ops|
  {
    if ops == [] then st else Run(Step(st, ops[0], host), ops[1..], host)
  }

  const EMPTY := State(map[], map[])

  /** The version numbers of an assistant are exactly 1..n. */
  ghost predicate Numbered(st: State, id: string, n: nat) {
    n >= 1 && forall k: nat :: Key(id, k) in st.versions <==> 1 <= k <= n
  }

  /**
    The assistant row shows config and metadata of the version it points at, and everything
    else of the newest version.
  */
  ghost predicate Points(st: State, id: string, n: nat)
    requires id in st.assistants && Numbered(st, id, n)
  {
    var a, newest := st.assistants[id], st.versions[Key(id, n)];
    && 1 <= a.version <= n
    && a.config == st.versions[Key(id, a.version)].config
    && a.metadata == st.versions[Key(id, a.version)].metadata
    && a.graphId == newest.graphId
    && a.name == newest.name
    && a.context == newest.context
    && a.description == newest.description
  }

  ghost predicate Consistent(st: State, id: string)
    requires id in st.assistants
  {
    var n := Newest(st.versions, id);
    Numbered(st, id, n) && Points(st, id, n)
  }

  ghost predicate Inv(st: State) {
    && (forall k | k in st.versions :: k.id in st.assistants)
    && (forall id | id in st.assistants :: Consistent(st, id))
  }

  /** The number n of `Numbered` is the newest one. */
  lemma NewestIs(st: State, id: string, n: nat)
    requires Numbered(st, id, n)
    ensures Newest(st.versions, id) == n
  {
    assert Key(id, n) in st.versions;
    assert Key(id, n).number <= Newest(st.versions, id);
  }

  /** An assistant whose row and versions are the same in two states is consistent in both. */
  lemma OthersConsistent(st: State, st': State, id: string)
    requires id in st.assistants && id in st'.assistants && st'.assistants[id] == st.assistants[id]
    requires forall k: nat :: Key(id, k) in st.versions <==> Key(id, k) in st'.versions
    requires forall k: nat | Key(id, k) in st.versions :: st.versions[Key(id, k)] == st'.versions[Key(id, k)]
    requires Consistent(st, id)
    ensures Consistent(st', id)
  {
    var n := Newest(st.versions, id);
    assert Numbered(st', id, n);
    NewestIs(st', id, n);
  }

  /** The assistant a version is appended to, with versions 1..n before (or none). */
  lemma AppendedSelf(st: State, id: string, a: Assistant, now: int, n: nat)
    requires forall k: nat :: Key(id, k) in st.versions <==> 1 <= k <= n
    requires a.version == n + 1
    ensures Consistent(Append(st, id, a, now), id)
  {
    var st' := Append(st, id, a, now);
    assert Numbered(st', id, n + 1);
    NewestIs(st', id, n + 1);
  }

  lemma AppendedOther(st: State, id: string, a: Assistant, now: int, other: string)
    requires other != id && other in st.assistants && Consistent(st, other)
    ensures Consistent(Append(st, id, a, now), other)
  {
    OthersConsistent(st, Append(st, id, a, now), other);
  }

  lemma Appended(st: State, id: string, a: Assistant, now: int, n: nat)
    requires Inv(st) && forall k: nat :: Key(id, k) in st.versions <==> 1 <= k <= n
    requires a.version == n + 1
    ensures Inv(Append(st, id, a, now))
  {
    AppendedSelf(st, id, a, now, n);
    forall other | other in Append(st, id, a, now).assistants && other != id ensures Consistent(Append(st, id, a, now), other) {
      AppendedOther(st, id, a, now, other);
    }
  }

  /** A create changes nothing, or appends version 1 of a new assistant. */
  lemma CreateAppends(st: State, in_: CreateInput, generated: string, now: int, host: Host)
    ensures var id, st' := if in_.id != "" then in_.id else generated, CreateStep(st, in_, generated, now, host).0;
            st' == st || (id !in st.assistants &&
                          (Key(id, 1) !in st.versions ==> st' == Append(st, id, NewAssistant(in_, now, host), now)))
  {
  }

  lemma CreateKeeps(st: State, in_: CreateInput, generated: string, now: int, host: Host)
    requires Inv(st)
    ensures Inv(CreateStep(st, in_, generated, now, host).0)
  {
    var id := if in_.id != "" then in_.id else generated;
    CreateAppends(st, in_, generated, now, host);
    if id !in st.assistants {
      NoVersions(st, id);
      Appended(st, id, NewAssistant(in_, now, host), now, 0);
    }
  }

  lemma NoVersions(st: State, id: string)
    requires Inv(st) && id !in st.assistants
    ensures forall k: nat :: Key(id, k) !in st.versions
  {
    forall k: nat ensures Key(id, k) !in st.versions {
      assert Key(id, k).id == id;
    }
  }

  lemma PatchKeeps(st: State, id: string, in_: PatchInput, fs: seq<Filter>, now: int, host: Host)
    requires Inv(st)
    ensures Inv(PatchStep(st, id, in_, fs, now, host).0)
  {
    if AllWellFormed(fs) && Visible(st, id, fs, host) {
      assert Consistent(st, id);
      Appended(st, id, Patched(st.assistants[id], in_, Newest(st.versions, id) + 1, now, host), now, Newest(st.versions, id));
    }
  }

  lemma SetLatestKeeps(st: State, id: string, number: nat)
    requires Inv(st)
    ensures Inv(SetLatestStep(st, id, number).0)
  {
    var st' := SetLatestStep(st, id, number).0;
    if id in st.assistants && Key(id, number) in st.versions {
      assert Consistent(st, id);
      forall other | other in st'.assistants ensures Consistent(st', other) {
        if other != id {
          OthersConsistent(st, st', other);
        } else {
          assert Numbered(st', id, Newest(st.versions, id));
        }
      }
    }
  }

  lemma DeleteKeeps(st: State, id: string, fs: seq<Filter>, host: Host)
    requires Inv(st)
    ensures Inv(DeleteStep(st, id, fs, host).0)
  {
    if AllWellFormed(fs) && Visible(st, id, fs, host) {
      Removed(st, id);
    }
  }

  /** Removing an assistant with its versions leaves the others as they were. */
  lemma Removed(st: State, id: string)
    requires Inv(st)
    ensures Inv(State(st.assistants - {id}, map k | k in st.versions && k.id != id :: st.versions[k]))
  {
    var st' := State(st.assistants - {id}, map k | k in st.versions && k.id != id :: st.versions[k]);
    forall other | other in st'.assistants ensures Consistent(st', other) {
      OthersConsistent(st, st', other);
    }
  }

  lemma StepKeeps(st: State, op: Op, host: Host)
    requires Inv(st)
    ensures Inv(Step(st, op, host))
  {
    match op
    case Create(in_, generated, now) => CreateKeeps(st, in_, generated, now, host);
    case Patch(id, in_, fs, now) => PatchKeeps(st, id, in_, fs, now, host);
    case SetLatest(id, number) => SetLatestKeeps(st, id, number);
    case Delete(id, fs) => DeleteKeeps(st, id, fs, host);
  }

  /** In every reachable state version numbers are gapless and the row points as described. */
  lemma {:induction false} RunKeeps(st: State, ops: seq<Op>, host: Host)
    requires Inv(st)
    ensures Inv(Run(st, ops, host))
    decreases |ops|
  {
    if ops != [] {
      StepKeeps(st, ops[0], host);
      RunKeeps(Step(st, ops[0], host), ops[1..], host);
    }
  }

  lemma ReachableConsistent(ops: seq<Op>, host: Host)
    ensures Inv(Run(EMPTY, ops, host))
  {
    RunKeeps(EMPTY, ops, host);
  }

  // ----------------------------------------------------------------- history

  ghost predicate Deletes(op: Op, id: string) {
    op.Delete? && op.id == id
  }

  lemma StepAppends(st: State, op: Op, host: Host, k: Key)
    requires k in st.versions && !Deletes(op, k.id)
    ensures k in Step(st, op, host).versions && Step(st, op, host).versions[k] == st.versions[k]
  {
    match op
    case Patch(id, in_, fs, now) =>
      if k.id == id {
        assert k.number <= Newest(st.versions, id);
      }
    case _ =>
  }

  /** Until the assistant is deleted, its version rows are never changed or removed. */
  lemma {:induction false} HistoryIsAppendOnly(st: State, ops: seq<Op>, host: Host, k: Key)
    requires k in st.versions
    requires forall op | op in ops :: !Deletes(op, k.id)
    ensures k in Run(st, ops, host).versions && Run(st, ops, host).versions[k] == st.versions[k]
    decreases |ops|
  {
    if ops != [] {
      assert ops[0] in ops;
      StepAppends(st, ops[0], host, k);
      assert forall op | op in ops[1..] :: op in ops;
      HistoryIsAppendOnly(Step(st, ops[0], host), ops[1..], host, k);
    }
  }

  // ---------------------------------------------------------------- rollback

  /** Rolling back and forward again restores everything, including the update time. */
  lemma SetLatestUndone(st: State, id: string, number: nat)
    requires Inv(st) && id in st.assistants && Key(id, number) in st.versions
    ensures var there := SetLatestStep(st, id, number).0;
            SetLatestStep(there, id, st.assistants[id].version).0 == st
  {
    assert Consistent(st, id);
    var there := SetLatestStep(st, id, number).0;
    var back := SetLatestStep(there, id, st.assistants[id].version).0;
    assert back.assistants[id] == st.assistants[id];
    assert back.assistants == st.assistants;
  }

  ghost predicate ShowsVersion(a: Assistant, v: Version) {
    a.graphId == v.graphId && a.name == v.name && a.config == v.config && a.context == v.context &&
    a.metadata == v.metadata && a.description == v.description
  }

  /**
    A rollback is only partial: after SetLatest the row shows the chosen version in full
    exactly when that version agrees with the newest one on graph, name, context and description.
  */
  lemma RollbackIsPartial(st: State, id: string, number: nat)
    requires Inv(st) && id in st.assistants && Key(id, number) in st.versions
    ensures Key(id, Newest(st.versions, id)) in st.versions
    ensures var a := SetLatestStep(st, id, number).0.assistants[id];
            var v, newest := st.versions[Key(id, number)], st.versions[Key(id, Newest(st.versions, id))];
            ShowsVersion(a, v) <==>
              v.graphId == newest.graphId && v.name == newest.name && v.context == newest.context &&
              v.description == newest.description
  {
    assert Consistent(st, id);
  }

  /** A patch after a rollback starts from the rolled-back config, never from the newest one. */
  lemma PatchBuildsOnPointedVersion(st: State, id: string, in_: PatchInput, fs: seq<Filter>, now: int, host: Host)
    requires Inv(st) && AllWellFormed(fs) && Visible(st, id, fs, host)
    requires in_.config == "" && in_.metadata == ""
    ensures var st' := PatchStep(st, id, in_, fs, now, host).0;
            var n := Newest(st.versions, id);
            var pointed := Key(id, st.assistants[id].version);
            && pointed in st.versions
            && Newest(st'.versions, id) == n + 1 && Key(id, n + 1) in st'.versions
            && st'.versions[Key(id, n + 1)].config == st.versions[pointed].config
            && st'.versions[Key(id, n + 1)].metadata == st.versions[pointed].metadata
  {
    assert Consistent(st, id);
    PatchKeeps(st, id, in_, fs, now, host);
    assert Consistent(PatchStep(st, id, in_, fs, now, host).0, id);
    NewestIs(PatchStep(st, id, in_, fs, now, host).0, id, Newest(st.versions, id) + 1);
  }
}
