/**
  The assistant and assistant_versions tables: an append-only version history per assistant,
  and an assistant row that points at one version. Each statement is one atomic step.
*/
module AssistantStore {
  import opened Json
  import opened Sql
  import opened AuthFilter
  import opened AuthMeaning
  import opened AssistantQueries

  datatype Assistant = Assistant(
    graphId: string, version: nat, createdAt: int, updatedAt: int,
    config: Json, context: Json, metadata: Json, name: Option<string>, description: Option<string>)

  datatype Version = Version(
    graphId: string, name: Option<string>, config: Json, context: Json, metadata: Json,
    description: Option<string>, createdAt: int)

  datatype Key = Key(id: string, number: nat)

  datatype State = State(assistants: map<string, Assistant>, versions: map<Key, Version>)

  /** What the database supplies: the jsonb cast, and `||` on jsonb; nothing is assumed of either. */
  datatype Host = Host(jsonb: Caster, concat: (Json, Json) -> Json)

  /** An absent JSON column is sent as an empty object. */
  datatype CreateInput = CreateInput(
    id: string, graphId: string, name: string, description: Option<string>,
    config: Option<string>, context: Option<string>, metadata: Option<string>,
    doNothing: bool, filters: seq<Filter>)

  /** Empty strings are unset, except for `name`, whose presence is tracked. */
  datatype PatchInput = PatchInput(
    name: Option<string>, description: Option<string>, graphId: string,
    config: string, context: string, metadata: string)

  datatype Result = Found(row: Assistant) | NotFound | AlreadyExists | AuthError(error: Error) | Deleted

  function RowOf(id: string, a: Assistant): AssistantRow {
    AssistantRow(id, a.graphId, a.name, a.metadata)
  }

  /** The assistant exists and no filter hides it. */
  predicate Visible(st: State, id: string, fs: seq<Filter>, host: Host) {
    id in st.assistants && AllAccept(fs, st.assistants[id].metadata, host.jsonb)
  }

  function FilterError(fs: seq<Filter>, col: string, idx: nat): Error
    requires !AllWellFormed(fs)
  {
    TopReads(fs, col, idx);
    CompileTop(fs, col, idx).error
  }

  // ------------------------------------------------------------ what is meant

  /** MAX("version") of an assistant, 0 when it has none. */
  function Newest(vs: map<Key, Version>, id: string): (n: nat)
    ensures n == 0 || Key(id, n) in vs
    ensures forall k | k in vs && k.id == id :: k.number <= n
  {
    var numbers := set k | k in vs && k.id == id :: k.number;
    if numbers == {} then
      assert forall k | k in vs && k.id == id :: k.number in numbers;
      0
    else
      MaximumExists(numbers);
      var n :| n in numbers && forall m | m in numbers :: m <= n;
      assert forall k | k in vs && k.id == id :: k.number in numbers;
      n
  }

  lemma {:induction false} MaximumExists(s: set<nat>)
    requires s != {}
    ensures exists n :: n in s && forall m | m in s :: m <= n
  {
    var x :| x in s;
    var rest := s - {x};
    if rest != {} {
      MaximumExists(rest);
      var y :| y in rest && forall m | m in rest :: m <= y;
      var n := if x <= y then y else x;
      assert forall m | m in s :: m == x || m in rest;
    } else {
      assert forall m | m in s :: m == x || m in rest;
    }
  }

  function OrEmpty(text: Option<string>): string {
    if text.Some? then text.value else "{}"
  }

  function Given(text: Option<string>, jsonb: Caster): Json {
    jsonb(OrEmpty(text))
  }

  function NewAssistant(in_: CreateInput, now: int, host: Host): Assistant {
    Assistant(in_.graphId, 1, now, now, Given(in_.config, host.jsonb), Given(in_.context, host.jsonb),
              Given(in_.metadata, host.jsonb), Some(in_.name), in_.description)
  }

  /** A version row with the content of an assistant row. */
  function Snapshot(a: Assistant, now: int): Version {
    Version(a.graphId, a.name, a.config, a.context, a.metadata, a.description, now)
  }

  /** The generated id is used when none is given; a clash with an existing row is a conflict. */
  function CreateStep(st: State, in_: CreateInput, generated: string, now: int, host: Host): (State, Result) {
    var id := if in_.id != "" then in_.id else generated;
    if in_.doNothing && in_.id != "" && !AllWellFormed(in_.filters) then
      (st, AuthError(FilterError(in_.filters, "metadata", 8)))
    else if id !in st.assistants then
      var a := NewAssistant(in_, now, host);
      var versions := if Key(id, 1) in st.versions then st.versions else st.versions[Key(id, 1) := Snapshot(a, now)];
      (State(st.assistants[id := a], versions), Found(a))
    else if in_.doNothing && in_.id != "" && Visible(st, id, in_.filters, host) then (st, Found(st.assistants[id]))
    else (st, AlreadyExists)
  }

  function Or<T>(given: Option<T>, current: T): T {
    if given.Some? then given.value else current
  }

  function Patched(a: Assistant, in_: PatchInput, number: nat, now: int, host: Host): Assistant {
    a.(version := number,
       updatedAt := now,
       graphId := if in_.graphId != "" then in_.graphId else a.graphId,
       config := if in_.config != "" then host.jsonb(in_.config) else a.config,
       context := if in_.context != "" then host.jsonb(in_.context) else a.context,
       metadata := if in_.metadata != "" then host.concat(a.metadata, host.jsonb(in_.metadata)) else a.metadata,
       name := if in_.name.Some? then in_.name else a.name,
       description := if in_.description.Some? then in_.description else a.description)
  }

  /** The assistant row moved to a new version with its content. */
  function Append(st: State, id: string, a: Assistant, now: int): State {
    State(st.assistants[id := a], st.versions[Key(id, a.version) := Snapshot(a, now)])
  }

  function PatchStep(st: State, id: string, in_: PatchInput, fs: seq<Filter>, now: int, host: Host): (State, Result) {
    if !AllWellFormed(fs) then (st, AuthError(FilterError(fs, "metadata", 2)))
    else if !Visible(st, id, fs, host) then (st, NotFound)
    else
      var a := Patched(st.assistants[id], in_, Newest(st.versions, id) + 1, now, host);
      (Append(st, id, a, now), Found(a))
  }

  /** Only config, metadata and version are copied back; updated_at stays. */
  function SetLatestStep(st: State, id: string, number: nat): (State, Result) {
    if id !in st.assistants || Key(id, number) !in st.versions then (st, NotFound)
    else
      var v := st.versions[Key(id, number)];
      var a := st.assistants[id].(config := v.config, metadata := v.metadata, version := number);
      (st.(assistants := st.assistants[id := a]), Found(a))
  }

  /** Version rows go with their assistant: the foreign key cascades. */
  function DeleteStep(st: State, id: string, fs: seq<Filter>, host: Host): (State, Result) {
    if !AllWellFormed(fs) then (st, AuthError(FilterError(fs, "metadata", 2)))
    else if !Visible(st, id, fs, host) then (st, NotFound)
    else (State(st.assistants - {id}, map k | k in st.versions && k.id != id :: st.versions[k]), Deleted)
  }

  // ----------------------------------------------------- Patch, as assembled

  /** A column expression: the current value, a placeholder, or the current value merged with one. */
  datatype ColumnExpr = Current | Take(n: nat) | Merge(n: nat)

  /** The expressions of one column list: those of the version row, or those of the SET clause. */
  datatype ColumnList = ColumnList(
    graphId: ColumnExpr, config: ColumnExpr, context: ColumnExpr, metadata: ColumnExpr,
    description: ColumnExpr, name: ColumnExpr)

  /** `e` names an argument equal to `a`, or nothing when there is none to name. */
  ghost predicate Names(e: ColumnExpr, args: seq<Arg>, given: bool, a: Arg) {
    if given then !e.Current? && 1 <= e.n <= |args| && args[e.n - 1] == a else e.Current?
  }

  /** Every column expression names the argument it was built for. */
  ghost predicate NamesAll(c: ColumnList, args: seq<Arg>, in_: PatchInput) {
    && Names(c.graphId, args, in_.graphId != "", Str(in_.graphId)) && !c.graphId.Merge?
    && Names(c.config, args, in_.config != "", Bytes(in_.config)) && !c.config.Merge?
    && Names(c.context, args, in_.context != "", Bytes(in_.context)) && !c.context.Merge?
    && Names(c.metadata, args, in_.metadata != "", Bytes(in_.metadata)) && !c.metadata.Take?
    && Names(c.description, args, in_.description.Some?, Str(Or(in_.description, ""))) && !c.description.Merge?
    && Names(c.name, args, in_.name.Some?, Str(Or(in_.name, ""))) && !c.name.Merge?
  }

  /** The reverse search for an argument already appended: the last equal one, else the length. */
  method FindArgIdx(args: seq<Arg>, val: Arg) returns (n: nat)
    ensures val in args ==> 1 <= n <= |args| && args[n - 1] == val && val !in args[n..]
    ensures val !in args ==> n == |args|
  {
    var i := |args|;
    while i > 0
      invariant 0 <= i <= |args|
      invariant val !in args[i..]
    {
      if args[i - 1] == val {
        return i;
      }
      i := i - 1;
    }
    n := |args|;
  }

  /** One optional column of the version row: a fresh placeholder when a value is given. */
  method AppendArg(args: seq<Arg>, idx: nat, given: bool, val: Arg, merge: bool)
    returns (e: ColumnExpr, args': seq<Arg>, idx': nat)
    requires idx == |args| + 1
    ensures idx' == |args'| + 1 && args <= args'
    ensures Names(e, args', given, val) && (given ==> e.Merge? == merge)
    ensures given ==> val in args'
  {
    if given {
      e := if merge then Merge(idx) else Take(idx);
      args' := args + [val];
      idx' := idx + 1;
    } else {
      e, args', idx' := Current, args, idx;
    }
  }

  /** One assignment of the SET clause, reusing the placeholder already appended. */
  method Reuse(args: seq<Arg>, given: bool, val: Arg) returns (e: ColumnExpr)
    requires given ==> val in args
    ensures Names(e, args, given, val) && !e.Merge?
  {
    if given {
      var n := FindArgIdx(args, val);
      e := Take(n);
    } else {
      e := Current;
    }
  }

  /**
    Patch appends each given value once, for the version row, and finds it again for the SET
    clause: in both column lists every placeholder names an argument equal to the value meant.
  */
  method BuildPatch(args0: seq<Arg>, in_: PatchInput) returns (args: seq<Arg>, version: ColumnList, sets: ColumnList)
    ensures args0 <= args
    ensures NamesAll(version, args, in_)
    ensures NamesAll(sets, args, in_)
  {
    var idx := |args0| + 1;
    var graphId, a1, i1 := AppendArg(args0, idx, in_.graphId != "", Str(in_.graphId), false);
    var config, a2, i2 := AppendArg(a1, i1, in_.config != "", Bytes(in_.config), false);
    var context, a3, i3 := AppendArg(a2, i2, in_.context != "", Bytes(in_.context), false);
    var metadata, a4, i4 := AppendArg(a3, i3, in_.metadata != "", Bytes(in_.metadata), true);
    var description, a5, i5 := AppendArg(a4, i4, in_.description.Some?, Str(Or(in_.description, "")), false);
    var name, a6, i6 := AppendArg(a5, i5, in_.name.Some?, Str(Or(in_.name, "")), false);
    args := a6;
    version := ColumnList(graphId, config, context, metadata, description, name);
    var setGraph := Reuse(args, in_.graphId != "", Str(in_.graphId));
    var setConfig := Reuse(args, in_.config != "", Bytes(in_.config));
    var setContext := Reuse(args, in_.context != "", Bytes(in_.context));
    var setName := Reuse(args, in_.name.Some?, Str(Or(in_.name, "")));
    var setDescription := Reuse(args, in_.description.Some?, Str(Or(in_.description, "")));
    sets := ColumnList(setGraph, setConfig, setContext, metadata, setDescription, setName);
  }

  /** A text column after the statement runs. */
  function TextColumn(e: ColumnExpr, args: seq<Arg>, current: Option<string>): Option<string> {
    if e.Current? || !(1 <= e.n <= |args|) || args[e.n - 1].Absent? then current
    else if args[e.n - 1].Str? then Some(args[e.n - 1].s) else None
  }

  /** A jsonb column after the statement runs. */
  function JsonColumn(e: ColumnExpr, args: seq<Arg>, current: Json, host: Host): Json {
    if e.Current? || !(1 <= e.n <= |args|) || !args[e.n - 1].Bytes? then current
    else if e.Merge? then host.concat(current, host.jsonb(args[e.n - 1].s))
    else host.jsonb(args[e.n - 1].s)
  }

  /** The row the database computes from a column list: the current row with the columns replaced. */
  function ApplyColumns(a: Assistant, c: ColumnList, args: seq<Arg>, number: nat, now: int, host: Host): Assistant {
    a.(version := number,
       updatedAt := now,
       graphId := Or(TextColumn(c.graphId, args, Some(a.graphId)), a.graphId),
       config := JsonColumn(c.config, args, a.config, host),
       context := JsonColumn(c.context, args, a.context, host),
       metadata := JsonColumn(c.metadata, args, a.metadata, host),
       name := TextColumn(c.name, args, a.name),
       description := TextColumn(c.description, args, a.description))
  }

  /** A column list whose placeholders name the right arguments yields the patched row. */
  lemma ColumnsMean(a: Assistant, c: ColumnList, args: seq<Arg>, in_: PatchInput, number: nat, now: int, host: Host)
    requires NamesAll(c, args, in_)
    ensures ApplyColumns(a, c, args, number, now, host) == Patched(a, in_, number, now, host)
  {
  }

  // ---------------------------------------------------- Create, as assembled

  /** The row the INSERT produces: each column from its own placeholder. */
  function InsertedRow(args: seq<Arg>, base: nat, now: int, host: Host): Assistant {
    Assistant(
      Or(TextColumn(Take(base), args, None), ""), 1, now, now,
      JsonColumn(Take(base + 3), args, JNull, host), JsonColumn(Take(base + 4), args, JNull, host),
      JsonColumn(Take(base + 5), args, JNull, host), TextColumn(Take(base + 1), args, None),
      TextColumn(Take(base + 2), args, None))
  }

  /** Arguments in their places make the row meant. */
  lemma PlacedRow(args: seq<Arg>, base: nat, in_: CreateInput, now: int, host: Host)
    requires 1 <= base && base + 5 <= |args|
    requires args[base - 1] == Str(in_.graphId) && args[base] == Str(in_.name)
    requires args[base + 1] == if in_.description.Some? then Str(in_.description.value) else Absent
    requires args[base + 2] == Bytes(OrEmpty(in_.config)) && args[base + 3] == Bytes(OrEmpty(in_.context))
    requires args[base + 4] == Bytes(OrEmpty(in_.metadata))
    ensures InsertedRow(args, base, now, host) == NewAssistant(in_, now, host)
  {
  }

  /** The column arguments shift by one when the id takes $1; later arguments do not matter. */
  method CreateArgs(in_: CreateInput, now: int, host: Host) returns (args: seq<Arg>, base: nat)
    ensures |args| == if in_.id != "" then 7 else 6
    ensures in_.id != "" ==> args[0] == Str(in_.id)
    ensures forall more :: InsertedRow(args + more, base, now, host) == NewAssistant(in_, now, host)
    ensures InsertedRow(args, base, now, host) == NewAssistant(in_, now, host)
  {
    var config, context, metadata := Bytes(OrEmpty(in_.config)), Bytes(OrEmpty(in_.context)), Bytes(OrEmpty(in_.metadata));
    var description := if in_.description.Some? then Str(in_.description.value) else Absent;
    args := [Str(in_.graphId), Str(in_.name), description, config, context, metadata];
    base := 1;
    if in_.id != "" {
      base, args := 2, [Str(in_.id)] + args;
    }
    PlacedRow(args, base, in_, now, host);
    forall more ensures InsertedRow(args + more, base, now, host) == NewAssistant(in_, now, host) {
      PlacedRow(args + more, base, in_, now, host);
    }
  }

  // --------------------------------------------------------------- the store

  class Store {
    var assistants: map<string, Assistant>
    var versions: map<Key, Version>

    ghost function Value(): State
      reads this
    {
      State(assistants, versions)
    }

    constructor ()
      ensures Value() == State(map[], map[])
    {
      assistants, versions := map[], map[];
    }

    /** Inserts the assistant and its version 1 together, or reports or returns the existing row. */
    method Create(in_: CreateInput, generated: string, now: int, host: Host) returns (r: Result)
      modifies this
      ensures (Value(), r) == CreateStep(old(Value()), in_, generated, now, host)
    {
      var args, base := CreateArgs(in_, now, host);
      var id := if in_.id != "" then in_.id else generated;
      var wheres := [];
      if in_.doNothing && in_.id != "" {
        var clause := AppendAuth(EXISTING_LEG, args, |args| + 1, in_.filters, "metadata");
        if clause.BadFilter? {
          return AuthError(clause.error);
        }
        if id in assistants {
          assert args == [Str(in_.id)] + args[1..];
          CreateLegMeans(in_.id, args[1..], in_.filters, RowOf(id, assistants[id]), false, host.jsonb);
        }
        wheres, args := clause.wheres, clause.args;
      }
      if id !in assistants {
        var a := InsertedRow(args, base, now, host);
        assistants := assistants[id := a];
        if Key(id, 1) !in versions {
          versions := versions[Key(id, 1) := Snapshot(a, now)];
        }
        return Found(a);
      }
      if in_.doNothing && in_.id != "" && Selects(wheres, LegColumns(RowOf(id, assistants[id]), false), args, host.jsonb) {
        return Found(assistants[id]);
      }
      r := AlreadyExists;
    }

    /** Appends a version with the merged content and moves the assistant row to it. */
    method Patch(id: string, in_: PatchInput, fs: seq<Filter>, now: int, host: Host) returns (r: Result)
      modifies this
      ensures (Value(), r) == PatchStep(old(Value()), id, in_, fs, now, host)
    {
      var clause := AppendAuth([EqualsText("assistant_id", 1, AsUuid)], [Str(id)], 2, fs, "metadata");
      if clause.BadFilter? {
        return AuthError(clause.error);
      }
      var args, version, sets := BuildPatch(clause.args, in_);
      if id in assistants {
        Gate(Value(), id, fs, clause, args, host);
      }
      if id !in assistants || !Selects(clause.wheres, Columns(RowOf(id, assistants[id])), args, host.jsonb) {
        return NotFound;
      }
      var number := Newest(versions, id) + 1;
      var current := assistants[id];
      ColumnsMean(current, version, args, in_, number, now, host);
      ColumnsMean(current, sets, args, in_, number, now, host);
      versions := versions[Key(id, number) := Snapshot(ApplyColumns(current, version, args, number, now, host), now)];
      assistants := assistants[id := ApplyColumns(current, sets, args, number, now, host)];
      r := Found(assistants[id]);
    }

    /** Moves the row to a version, copying back config, metadata and the number. */
    method SetLatest(id: string, number: nat) returns (r: Result)
      modifies this`assistants
      ensures (Value(), r) == SetLatestStep(old(Value()), id, number)
      ensures r.Found? <==> id in old(assistants) && Key(id, number) in versions
      ensures assistants.Keys == old(assistants.Keys)
      ensures forall other | other in assistants && !(r.Found? && other == id) :: assistants[other] == old(assistants)[other]
      ensures r.Found? ==>
                var a, was, v := assistants[id], old(assistants)[id], versions[Key(id, number)];
                && a.version == number && a.config == v.config && a.metadata == v.metadata
                && a.graphId == was.graphId && a.name == was.name && a.context == was.context && a.description == was.description
                && a.createdAt == was.createdAt && a.updatedAt == was.updatedAt
    {
      if id !in assistants || Key(id, number) !in versions {
        return NotFound;
      }
      var v := versions[Key(id, number)];
      var a := assistants[id].(config := v.config, metadata := v.metadata, version := number);
      assistants := assistants[id := a];
      r := Found(a);
    }

    /** Deletes the assistant the filters let through, and with it its versions. */
    method Delete(id: string, fs: seq<Filter>, host: Host) returns (r: Result)
      modifies this
      ensures (Value(), r) == DeleteStep(old(Value()), id, fs, host)
    {
      var clause := AppendAuth([EqualsText("assistant_id", 1, AsUuid)], [Str(id)], 2, fs, "metadata");
      if clause.BadFilter? {
        return AuthError(clause.error);
      }
      if id in assistants {
        Gate(Value(), id, fs, clause, clause.args, host);
      }
      if id !in assistants || !Selects(clause.wheres, Columns(RowOf(id, assistants[id])), clause.args, host.jsonb) {
        return NotFound;
      }
      assistants := assistants - {id};
      versions := map k | k in versions && k.id != id :: versions[k];
      r := Deleted;
    }

    /** The assistant with this id, unless absent or hidden by a filter. */
    method Get(id: string, fs: seq<Filter>, host: Host) returns (r: Result)
      ensures r == if !AllWellFormed(fs) then AuthError(FilterError(fs, "metadata", 2))
                   else if Visible(Value(), id, fs, host) then Found(assistants[id]) else NotFound
    {
      var clause := AppendAuth([EqualsText("assistant_id", 1, AsUuid)], [Str(id)], 2, fs, "metadata");
      if clause.BadFilter? {
        return AuthError(clause.error);
      }
      if id in assistants {
        Gate(Value(), id, fs, clause, clause.args, host);
        if Selects(clause.wheres, Columns(RowOf(id, assistants[id])), clause.args, host.jsonb) {
          return Found(assistants[id]);
        }
      }
      r := NotFound;
    }
  }

  /** The by-id clause lets the assistant through exactly when it is visible, whatever is bound after its arguments. */
  lemma Gate(st: State, id: string, fs: seq<Filter>, clause: Clause, args: seq<Arg>, host: Host)
    requires clause == AddAuth([EqualsText("assistant_id", 1, AsUuid)], [Str(id)], 2, fs, "metadata")
    requires AllWellFormed(fs) && clause.Clause? && clause.args <= args && id in st.assistants
    ensures Selects(clause.wheres, Columns(RowOf(id, st.assistants[id])), args, host.jsonb) <==> Visible(st, id, fs, host)
  {
    ByIdIs(id, fs);
    ByIdMeans(id, fs, RowOf(id, st.assistants[id]), host.jsonb, args);
  }

  lemma ByIdIs(id: string, fs: seq<Filter>)
    ensures ByIdClause(id, fs) == AddAuth([EqualsText("assistant_id", 1, AsUuid)], [Str(id)], 2, fs, "metadata")
  {
    var b := Extend(NO_TESTS, Equals("assistant_id", AsUuid, id));
    assert b.wheres == [EqualsText("assistant_id", 1, AsUuid)] && b.args == [Str(id)];
  }

  /** The conditions of the leg of Create that returns a pre-existing row. */
  const EXISTING_LEG := [EqualsText("assistant_id", 1, AsUuid), [NotExists("inserted_assistant")]]

  /** The columns that leg sees, and whether the statement has just inserted the row itself. */
  function LegColumns(a: AssistantRow, inserted: bool): Row {
    if inserted then Columns(a)["inserted_assistant" := Bool(true)] else Columns(a)
  }

  /** The own conditions of the leg: the id, and that nothing was inserted. */
  lemma LegSays(id: string, columns: seq<Arg>, a: AssistantRow, inserted: bool, jsonb: Caster) returns (es: seq<Expr>)
    ensures Conjuncts(EXISTING_LEG, es) && Says(es, LegColumns(a, inserted), [Str(id)] + columns, jsonb, a.id == id && !inserted)
  {
    var row, v := LegColumns(a, inserted), Vacant("inserted_assistant");
    var first := IdSays(id, a, inserted, jsonb);
    VacantReads("inserted_assistant");
    SaysMore(first, row, [Str(id)], jsonb, a.id == id, v, columns);
    MoreConjuncts([EqualsText("assistant_id", 1, AsUuid)], first, [NotExists("inserted_assistant")], v);
    assert EXISTING_LEG == [EqualsText("assistant_id", 1, AsUuid)] + [[NotExists("inserted_assistant")]];
    es := first + [v];
  }

  lemma IdSays(id: string, a: AssistantRow, inserted: bool, jsonb: Caster) returns (es: seq<Expr>)
    ensures Conjuncts([EqualsText("assistant_id", 1, AsUuid)], es) && Says(es, LegColumns(a, inserted), [Str(id)], jsonb, a.id == id)
  {
    var t, row := Equals("assistant_id", AsUuid, id), LegColumns(a, inserted);
    var b := Extend(NO_TESTS, t);
    NoTestsExpress(row, jsonb);
    ExtendExpresses(NO_TESTS, row, jsonb, true, true, t);
    assert Passes(t, row, jsonb) <==> a.id == id;
    assert b.args == [Str(id)] && b.wheres == [EqualsText("assistant_id", 1, AsUuid)];
    es :| Conjuncts(b.wheres, es) && Says(es, row, b.args, jsonb, a.id == id);
  }

  /**
    The pre-existing-row leg of Create: the filters' placeholders come after the inserted columns,
    and the row is selected exactly when it has the id, was not just inserted, and every filter accepts it.
  */
  lemma CreateLegMeans(id: string, columns: seq<Arg>, fs: seq<Filter>, a: AssistantRow, inserted: bool, jsonb: Caster)
    requires AllWellFormed(fs)
    ensures var args := [Str(id)] + columns;
            var c := AddAuth(EXISTING_LEG, args, |args| + 1, fs, "metadata");
            && c.Clause?
            && (Selects(c.wheres, LegColumns(a, inserted), c.args, jsonb) <==> a.id == id && !inserted && AllAccept(fs, a.metadata, jsonb))
  {
    var args := [Str(id)] + columns;
    TopReads(fs, "metadata", |args| + 1);
    var es := LegSays(id, columns, a, inserted, jsonb);
    OwnAndAuthOver(EXISTING_LEG, es, args, fs, "metadata", LegColumns(a, inserted), a.metadata, jsonb, a.id == id && !inserted, []);
    var c := AddAuth(EXISTING_LEG, args, |args| + 1, fs, "metadata");
    assert c.args + [] == c.args;
  }
}
