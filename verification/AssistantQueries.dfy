/**
  The statements of the assistants store that splice compiled auth filters after conditions of
  their own: Get, Delete, Search, Count, GetVersions, the pre-existing-row leg of Create, and SetLatest.
*/
module AssistantQueries {
  import opened Json
  import opened Sql
  import opened AuthFilter
  import opened AuthMeaning

  /** A WHERE clause as conjunct texts, the arguments so far, and the next free placeholder. */
  datatype Clause = BadFilter(error: Error) | Clause(wheres: seq<seq<Token>>, args: seq<Arg>, next: nat)

  /** The columns of an assistant row that conditions mention; `name` may be SQL NULL. */
  datatype AssistantRow = AssistantRow(id: string, graphId: string, name: Option<string>, metadata: Json)

  function NullableText(s: Option<string>): Value {
    if s.Some? then Text(s.value) else Null
  }

  function Columns(a: AssistantRow): Row {
    map["assistant_id" := Text(a.id), "graph_id" := Text(a.graphId), "name" := NullableText(a.name),
        "metadata" := Doc(a.metadata)]
  }

  function EqualsText(col: string, n: nat, cast: Cast): seq<Token> {
    [Name(col), OpTok(EqualsOp), Placeholder(n, cast)]
  }

  function ContainsText(col: string, n: nat): seq<Token> {
    [Name(col), OpTok(ContainsOp), Placeholder(n, AsJsonb)]
  }

  lemma EqualsReads(col: string, n: nat, cast: Cast)
    ensures Conjunct(EqualsText(col, n, cast), Bin(EqualsOp, Column(col), Param(n, cast)))
  {
    forall rest: seq<Token> | Ends(rest)
      ensures ReadComparison(EqualsText(col, n, cast) + rest) == Got(Bin(EqualsOp, Column(col), Param(n, cast)), rest)
    {
      var ts := EqualsText(col, n, cast) + rest;
      assert ts[1..][1..] == ts[2..];
      assert ts[2..][1..] == rest;
      assert ReadOperand(ts) == Got(Column(col), ts[1..]) by {
        assert MoreOps(Column(col), ts[1..]) == Got(Column(col), ts[1..]);
      }
      assert MoreOps(Param(n, cast), rest) == Got(Param(n, cast), rest);
      assert ReadOperand(ts[2..]) == Got(Param(n, cast), rest);
    }
  }

  lemma ContainsReads(col: string, n: nat)
    ensures Conjunct(ContainsText(col, n), Bin(ContainsOp, Column(col), Param(n, AsJsonb)))
  {
    var e := Bin(ContainsOp, Column(col), Param(n, AsJsonb));
    forall rest: seq<Token> | Ends(rest) ensures ReadComparison(ContainsText(col, n) + rest) == Got(e, rest) {
      var ts := ContainsText(col, n) + rest;
      assert ts[1..][1..] == ts[2..];
      assert ts[2..][1..] == rest;
      assert MoreOps(e, rest) == Got(e, rest);
      assert MoreOps(Column(col), ts[1..]) == Got(e, rest);
      assert ReadOperand(ts) == Got(e, rest);
    }
  }

  lemma TrueReads()
    ensures Conjunct([KwTrue], TrueLit)
  {
    forall rest: seq<Token> | Ends(rest) ensures ReadComparison([KwTrue] + rest) == Got(TrueLit, rest) {
      assert ([KwTrue] + rest)[1..] == rest;
      assert MoreOps(TrueLit, rest) == Got(TrueLit, rest);
      assert ReadOperand([KwTrue] + rest) == Got(TrueLit, rest);
    }
  }

  lemma VacantReads(relation: string)
    ensures Conjunct([NotExists(relation)], Vacant(relation))
  {
    forall rest: seq<Token> | Ends(rest) ensures ReadComparison([NotExists(relation)] + rest) == Got(Vacant(relation), rest) {
      assert ([NotExists(relation)] + rest)[1..] == rest;
      assert MoreOps(Vacant(relation), rest) == Got(Vacant(relation), rest);
      assert ReadOperand([NotExists(relation)] + rest) == Got(Vacant(relation), rest);
    }
  }

  /** Appending the compiled filters to a clause. */
  function AddAuth(wheres: seq<seq<Token>>, args: seq<Arg>, next: nat, fs: seq<Filter>, col: string): Clause {
    match CompileTop(fs, col, next)
    case Failed(e) => BadFilter(e)
    case Emitted(text, fargs, _) => Clause(WithAuth(wheres, text), args + fargs, next + |fargs|)
  }

  lemma BoundAfter(args: seq<Arg>, fargs: seq<Arg>, more: seq<Arg>)
    ensures Bound(args + fargs + more, |args| + 1, fargs)
  {
    assert (args + fargs + more)[|args|..|args| + |fargs|] == fargs;
  }

  // ---------------------------------------------------------- Search, Count

  datatype SearchInput = SearchInput(
    graphId: string, name: string, metadataFilter: string, sortBy: string, sortOrder: string, limit: nat, offset: nat)

  /** Every placeholder of `e` is at most `n`. */
  ghost predicate Closed(e: Expr, n: nat) {
    match e
    case Param(k, _) => 1 <= k <= n
    case Build(k, v) => Closed(k, n) && Closed(v, n)
    case Bin(_, l, r) => Closed(l, n) && Closed(r, n)
    case AndE(l, r) => Closed(l, n) && Closed(r, n)
    case OrE(l, r) => Closed(l, n) && Closed(r, n)
    case _ => true
  }

  /** Binding more arguments later does not change what an expression evaluates to. */
  lemma {:induction false} MoreArgs(e: Expr, row: Row, args: seq<Arg>, more: seq<Arg>, jsonb: Caster)
    requires Closed(e, |args|)
    ensures Eval(e, row, args + more, jsonb) == Eval(e, row, args, jsonb)
  {
    match e
    case Build(k, v) => MoreArgs(k, row, args, more, jsonb); MoreArgs(v, row, args, more, jsonb);
    case Bin(_, l, r) => MoreArgs(l, row, args, more, jsonb); MoreArgs(r, row, args, more, jsonb);
    case AndE(l, r) => MoreArgs(l, row, args, more, jsonb); MoreArgs(r, row, args, more, jsonb);
    case OrE(l, r) => MoreArgs(l, row, args, more, jsonb); MoreArgs(r, row, args, more, jsonb);
    case _ =>
  }

  /**
    The clause a builder returns means `wanted`: over the returned arguments followed by any
    others, it reads back and keeps exactly the rows for which `wanted` holds.
  */
  ghost predicate ClauseMeans(c: Clause, row: Row, jsonb: Caster, wanted: bool) {
    c.Clause? ==>
      && ReadCondition(Join(c.wheres, KwAnd)).Some?
      && forall more :: Selects(c.wheres, row, c.args + more, jsonb) <==> wanted
  }

  /** A statement with this WHERE text and these arguments selects the row. */
  predicate Selects(wheres: seq<seq<Token>>, row: Row, args: seq<Arg>, jsonb: Caster) {
    var read := ReadCondition(Join(wheres, KwAnd));
    read.Some? && Keeps(read.value, row, args, jsonb)
  }

  /** The conjuncts evaluate without type errors, and together they keep the row exactly when `wanted`. */
  ghost predicate Says(es: seq<Expr>, row: Row, args: seq<Arg>, jsonb: Caster, wanted: bool) {
    && (forall i | 0 <= i < |es| :: Closed(es[i], |args|) && Logical(es[i], row, args, jsonb))
    && ((forall i | 0 <= i < |es| :: Keeps(es[i], row, args, jsonb)) <==> wanted)
  }

  /** Adding one conjunct over one more argument. */
  lemma SaysMore(es: seq<Expr>, row: Row, args: seq<Arg>, jsonb: Caster, wanted: bool, e: Expr, more: seq<Arg>)
    requires Says(es, row, args, jsonb, wanted)
    requires Closed(e, |args + more|) && Logical(e, row, args + more, jsonb)
    ensures Says(es + [e], row, args + more, jsonb, wanted && Keeps(e, row, args + more, jsonb))
  {
    var es', args' := es + [e], args + more;
    forall i | 0 <= i < |es|
      ensures Eval(es'[i], row, args', jsonb) == Eval(es[i], row, args, jsonb) && Closed(es'[i], |args'|)
    {
      MoreArgs(es[i], row, args, more, jsonb);
      MoreClosed(es[i], |args|, |args'|);
    }
    assert es'[|es|] == e;
    assert (forall i | 0 <= i < |es'| :: Keeps(es'[i], row, args', jsonb)) <==>
           (forall i | 0 <= i < |es| :: Keeps(es'[i], row, args', jsonb)) && Keeps(e, row, args', jsonb);
  }

  lemma {:induction false} MoreClosed(e: Expr, n: nat, m: nat)
    requires Closed(e, n) && n <= m
    ensures Closed(e, m)
  {
    match e
    case Build(k, v) => MoreClosed(k, n, m); MoreClosed(v, n, m);
    case Bin(_, l, r) => MoreClosed(l, n, m); MoreClosed(r, n, m);
    case AndE(l, r) => MoreClosed(l, n, m); MoreClosed(r, n, m);
    case OrE(l, r) => MoreClosed(l, n, m); MoreClosed(r, n, m);
    case _ =>
  }

  /** A condition of the caller's own on one column. */
  datatype Test = Always | Equals(col: string, cast: Cast, s: string) | Holds(col: string, s: string)

  function TestArg(t: Test): seq<Arg> {
    match t
    case Always => []
    case Equals(_, _, s) => [Str(s)]
    case Holds(_, s) => [Bytes(s)]
  }

  function TestText(t: Test, n: nat): seq<Token> {
    match t
    case Always => [KwTrue]
    case Equals(col, cast, _) => EqualsText(col, n, cast)
    case Holds(col, _) => ContainsText(col, n)
  }

  function TestExpr(t: Test, n: nat): Expr {
    match t
    case Always => TrueLit
    case Equals(col, cast, _) => Bin(EqualsOp, Column(col), Param(n, cast))
    case Holds(col, _) => Bin(ContainsOp, Column(col), Param(n, AsJsonb))
  }

  /** Whether a row passes a test; a NULL column passes no comparison. */
  predicate Passes(t: Test, row: Row, jsonb: Caster) {
    match t
    case Always => true
    case Equals(col, _, s) => col in row && row[col] == Text(s)
    case Holds(col, s) => col in row && row[col].Doc? && Contains(row[col].j, jsonb(s))
  }

  predicate Typed(t: Test, row: Row) {
    match t
    case Always => true
    case Equals(col, cast, _) => cast != AsJsonb && col in row && (row[col].Text? || row[col] == Null)
    case Holds(col, _) => col in row && row[col].Doc?
  }

  /** A clause under construction: conjunct texts, and the arguments bound so far. */
  datatype Builder = Builder(wheres: seq<seq<Token>>, args: seq<Arg>)

  /** One more test, over the next free placeholder. */
  function Extend(b: Builder, t: Test): Builder {
    Builder(b.wheres + [TestText(t, |b.args| + 1)], b.args + TestArg(t))
  }

  function ExtendIf(b: Builder, given: bool, t: Test): Builder {
    if given then Extend(b, t) else b
  }

  const NO_TESTS := Builder([], [])

  /** The conjuncts read back, evaluate without type errors, and together keep the row exactly when `wanted`. */
  ghost predicate Expresses(b: Builder, row: Row, jsonb: Caster, wanted: bool) {
    exists es :: Conjuncts(b.wheres, es) && Says(es, row, b.args, jsonb, wanted)
  }

  lemma TestReads(t: Test, n: nat)
    ensures Conjunct(TestText(t, n), TestExpr(t, n))
  {
    match t
    case Always => TrueReads();
    case Equals(col, cast, _) => EqualsReads(col, n, cast);
    case Holds(col, _) => ContainsReads(col, n);
  }

  lemma TestMeans(t: Test, row: Row, args: seq<Arg>, jsonb: Caster)
    requires Typed(t, row)
    ensures var e, all := TestExpr(t, |args| + 1), args + TestArg(t);
            Closed(e, |all|) && Logical(e, row, all, jsonb) && (Keeps(e, row, all, jsonb) <==> Passes(t, row, jsonb))
  {
    var n, all := |args| + 1, args + TestArg(t);
    match t
    case Always =>
    case Equals(col, cast, s) =>
      assert Eval(Column(col), row, all, jsonb) == row[col];
      assert Eval(Param(n, cast), row, all, jsonb) == Text(s);
    case Holds(col, s) =>
      assert Eval(Column(col), row, all, jsonb) == row[col];
      assert Eval(Param(n, AsJsonb), row, all, jsonb) == Doc(jsonb(s));
  }

  lemma NoTestsExpress(row: Row, jsonb: Caster)
    ensures Expresses(NO_TESTS, row, jsonb, true)
  {
    var none: seq<Expr> := [];
    assert Conjuncts(NO_TESTS.wheres, none) && Says(none, row, NO_TESTS.args, jsonb, true);
  }

  lemma MoreConjuncts(wheres: seq<seq<Token>>, es: seq<Expr>, text: seq<Token>, e: Expr)
    requires Conjuncts(wheres, es) && Conjunct(text, e)
    ensures Conjuncts(wheres + [text], es + [e])
  {
  }

  lemma ExtendSays(b: Builder, es: seq<Expr>, row: Row, jsonb: Caster, wanted: bool, t: Test)
    requires Conjuncts(b.wheres, es) && Says(es, row, b.args, jsonb, wanted) && Typed(t, row)
    ensures var e := TestExpr(t, |b.args| + 1);
            && Conjuncts(Extend(b, t).wheres, es + [e])
            && Says(es + [e], row, Extend(b, t).args, jsonb, wanted && Passes(t, row, jsonb))
  {
    var n := |b.args| + 1;
    TestReads(t, n);
    TestMeans(t, row, b.args, jsonb);
    SaysMore(es, row, b.args, jsonb, wanted, TestExpr(t, n), TestArg(t));
    MoreConjuncts(b.wheres, es, TestText(t, n), TestExpr(t, n));
  }

  /** Extending a builder adds exactly the new test to what it expresses. */
  lemma ExtendExpresses(b: Builder, row: Row, jsonb: Caster, wanted: bool, given: bool, t: Test)
    requires Expresses(b, row, jsonb, wanted) && Typed(t, row)
    ensures Expresses(ExtendIf(b, given, t), row, jsonb, wanted && (given ==> Passes(t, row, jsonb)))
  {
    if given {
      var es :| Conjuncts(b.wheres, es) && Says(es, row, b.args, jsonb, wanted);
      ExtendSays(b, es, row, jsonb, wanted, t);
    }
  }

  lemma OwnAndAuthOver(wheres: seq<seq<Token>>, es: seq<Expr>, args: seq<Arg>, fs: seq<Filter>, col: string,
                       row: Row, meta: Json, jsonb: Caster, wanted: bool, more: seq<Arg>)
    requires wheres != [] && Conjuncts(wheres, es) && (fs != [] ==> HasColumn(row, col, meta)) && Says(es, row, args, jsonb, wanted)
    requires AllWellFormed(fs) && AddAuth(wheres, args, |args| + 1, fs, col).Clause?
    ensures var c := AddAuth(wheres, args, |args| + 1, fs, col);
            var read := ReadCondition(Join(c.wheres, KwAnd));
            read.Some? && (Keeps(read.value, row, c.args + more, jsonb) <==> wanted && AllAccept(fs, meta, jsonb))
  {
    var fargs := CompileTop(fs, col, |args| + 1).args;
    var all := args + fargs + more;
    BoundAfter(args, fargs, more);
    assert all == args + (fargs + more);
    forall i | 0 <= i < |es|
      ensures Eval(es[i], row, all, jsonb) == Eval(es[i], row, args, jsonb)
    {
      MoreArgs(es[i], row, args, fargs + more, jsonb);
    }
    assert forall i | 0 <= i < |es| :: Logical(es[i], row, all, jsonb);
    assert (forall i | 0 <= i < |es| :: Keeps(es[i], row, all, jsonb)) <==> wanted;
    var e := SplicedMeans(wheres, es, fs, col, |args| + 1, row, all, jsonb, meta);
  }

  /** The clause for a builder's tests followed by the compiled filters. */
  function BuilderClause(b: Builder, fs: seq<Filter>, col: string): Clause {
    AddAuth(b.wheres, b.args, |b.args| + 1, fs, col)
  }

  lemma ClauseWellFormed(b: Builder, fs: seq<Filter>, col: string)
    ensures BuilderClause(b, fs, col).Clause? <==> AllWellFormed(fs)
  {
    TopReads(fs, col, |b.args| + 1);
  }

  lemma BuilderSelects(b: Builder, fs: seq<Filter>, col: string, row: Row, meta: Json, jsonb: Caster, wanted: bool, more: seq<Arg>)
    requires b.wheres != [] && (fs != [] ==> HasColumn(row, col, meta)) && Expresses(b, row, jsonb, wanted)
    requires BuilderClause(b, fs, col).Clause?
    ensures var c := BuilderClause(b, fs, col);
            && ReadCondition(Join(c.wheres, KwAnd)).Some?
            && (Selects(c.wheres, row, c.args + more, jsonb) <==> wanted && AllAccept(fs, meta, jsonb))
  {
    var es :| Conjuncts(b.wheres, es) && Says(es, row, b.args, jsonb, wanted);
    ClauseWellFormed(b, fs, col);
    OwnAndAuthOver(b.wheres, es, b.args, fs, col, row, meta, jsonb, wanted, more);
  }

  /** Tests plus compiled filters mean their conjunction, over any later arguments. */
  lemma BuilderMeans(b: Builder, fs: seq<Filter>, col: string, row: Row, meta: Json, jsonb: Caster, wanted: bool, later: seq<Arg>)
    requires b.wheres != [] && (fs != [] ==> HasColumn(row, col, meta)) && Expresses(b, row, jsonb, wanted)
    ensures var c := BuilderClause(b, fs, col);
            c.Clause? ==> ClauseMeans(c.(args := c.args + later), row, jsonb, wanted && AllAccept(fs, meta, jsonb))
  {
    var c := BuilderClause(b, fs, col);
    if c.Clause? {
      BuilderSelects(b, fs, col, row, meta, jsonb, wanted, []);
      forall more: seq<Arg>
        ensures Selects(c.wheres, row, c.args + later + more, jsonb) <==> wanted && AllAccept(fs, meta, jsonb)
      {
        BuilderSelects(b, fs, col, row, meta, jsonb, wanted, later + more);
        assert c.args + later + more == c.args + (later + more);
      }
    }
  }

  function ByIdBuilder(id: string): Builder {
    Extend(NO_TESTS, Equals("assistant_id", AsUuid, id))
  }

  function ByIdClause(id: string, fs: seq<Filter>): Clause {
    BuilderClause(ByIdBuilder(id), fs, "metadata")
  }

  lemma ByIdExpresses(id: string, a: AssistantRow, jsonb: Caster)
    ensures Expresses(ByIdBuilder(id), Columns(a), jsonb, a.id == id)
  {
    var t := Equals("assistant_id", AsUuid, id);
    NoTestsExpress(Columns(a), jsonb);
    ExtendExpresses(NO_TESTS, Columns(a), jsonb, true, true, t);
    assert Passes(t, Columns(a), jsonb) <==> a.id == id;
  }

  /** What a clause means, read off at one argument list that extends its own. */
  lemma ClauseSelects(c: Clause, row: Row, jsonb: Caster, wanted: bool, args: seq<Arg>)
    requires c.Clause? && ClauseMeans(c.(args := c.args + []), row, jsonb, wanted) && c.args <= args
    ensures Selects(c.wheres, row, args, jsonb) <==> wanted
  {
    assert c.args + [] + args[|c.args|..] == args;
  }

  /**
    Get, Delete, Patch and the pre-existing-row leg of Create address one assistant, gated by
    the filters: whatever arguments are bound after them, the clause selects exactly the
    assistant with that id whose metadata every filter accepts.
  */
  lemma ByIdMeans(id: string, fs: seq<Filter>, a: AssistantRow, jsonb: Caster, args: seq<Arg>)
    requires AllWellFormed(fs)
    ensures var c := ByIdClause(id, fs);
            && c.Clause?
            && (c.args <= args ==> (Selects(c.wheres, Columns(a), args, jsonb) <==> a.id == id && AllAccept(fs, a.metadata, jsonb)))
  {
    var c := ByIdClause(id, fs);
    TopReads(fs, "metadata", |ByIdBuilder(id).args| + 1);
    ByIdExpresses(id, a, jsonb);
    BuilderMeans(ByIdBuilder(id), fs, "metadata", Columns(a), a.metadata, jsonb, a.id == id, []);
    if c.args <= args {
      ClauseSelects(c, Columns(a), jsonb, a.id == id && AllAccept(fs, a.metadata, jsonb), args);
    }
  }

  /** Appends the auth fragment to a clause under construction, if there is one. */
  method AppendAuth(wheres: seq<seq<Token>>, args: seq<Arg>, idx: nat, fs: seq<Filter>, col: string) returns (c: Clause)
    ensures c == AddAuth(wheres, args, idx, fs, col)
    ensures c.Clause? <==> AllWellFormed(fs)
    ensures c.Clause? && idx == |args| + 1 ==> c.next == |c.args| + 1 && args <= c.args
  {
    var auth := ApplyToQuery(fs, col, idx);
    TopReads(fs, col, idx);
    if auth.Failed? {
      return BadFilter(auth.error);
    }
    if auth.text != [] {
      return Clause(wheres + [auth.text], args + auth.args, idx + |auth.args|);
    }
    c := Clause(wheres, args, idx);
  }

  /** The rows a search is meant to return. */
  predicate Matches(in_: SearchInput, fs: seq<Filter>, a: AssistantRow, jsonb: Caster) {
    && (in_.graphId != "" ==> a.graphId == in_.graphId)
    && (in_.name != "" ==> a.name == Some(in_.name))
    && (in_.metadataFilter != "" ==> Contains(a.metadata, jsonb(in_.metadataFilter)))
    && AllAccept(fs, a.metadata, jsonb)
  }

  /** The conjuncts of a search, in the order the builder appends them. */
  function SearchBuilder(in_: SearchInput): Builder {
    var b1 := ExtendIf(Extend(NO_TESTS, Always), in_.graphId != "", Equals("graph_id", Bare, in_.graphId));
    var b2 := ExtendIf(b1, in_.name != "", Equals("name", Bare, in_.name));
    ExtendIf(b2, in_.metadataFilter != "", Holds("metadata", in_.metadataFilter))
  }

  lemma SearchExpresses(in_: SearchInput, a: AssistantRow, jsonb: Caster)
    ensures Expresses(SearchBuilder(in_), Columns(a), jsonb, Matches(in_, [], a, jsonb))
  {
    var row := Columns(a);
    var g, n, m := Equals("graph_id", Bare, in_.graphId), Equals("name", Bare, in_.name), Holds("metadata", in_.metadataFilter);
    var b0 := Extend(NO_TESTS, Always);
    NoTestsExpress(row, jsonb);
    ExtendExpresses(NO_TESTS, row, jsonb, true, true, Always);
    assert Passes(g, row, jsonb) <==> a.graphId == in_.graphId;
    ExtendExpresses(b0, row, jsonb, true, in_.graphId != "", g);
    var b1, w1 := ExtendIf(b0, in_.graphId != "", g), in_.graphId != "" ==> a.graphId == in_.graphId;
    assert Passes(n, row, jsonb) <==> a.name == Some(in_.name);
    ExtendExpresses(b1, row, jsonb, w1, in_.name != "", n);
    var b2, w2 := ExtendIf(b1, in_.name != "", n), w1 && (in_.name != "" ==> a.name == Some(in_.name));
    assert Passes(m, row, jsonb) <==> Contains(a.metadata, jsonb(in_.metadataFilter));
    ExtendExpresses(b2, row, jsonb, w2, in_.metadataFilter != "", m);
  }

  lemma SearchMeans(in_: SearchInput, fs: seq<Filter>, a: AssistantRow, jsonb: Caster, later: seq<Arg>)
    ensures var c := BuilderClause(SearchBuilder(in_), fs, "metadata");
            c.Clause? ==> ClauseMeans(c.(args := c.args + later), Columns(a), jsonb, Matches(in_, fs, a, jsonb))
  {
    SearchExpresses(in_, a, jsonb);
    BuilderMeans(SearchBuilder(in_), fs, "metadata", Columns(a), a.metadata, jsonb, Matches(in_, [], a, jsonb), later);
    assert Matches(in_, fs, a, jsonb) <==> Matches(in_, [], a, jsonb) && AllAccept(fs, a.metadata, jsonb);
  }

  /** The clause shared by Search and Count, built conjunct by conjunct. */
  method WhereArgs(in_: SearchInput, fs: seq<Filter>) returns (c: Clause)
    ensures c == BuilderClause(SearchBuilder(in_), fs, "metadata")
    ensures c.Clause? <==> AllWellFormed(fs)
    ensures c.Clause? ==> c.next == |c.args| + 1
  {
    var args: seq<Arg>, wheres, idx := [], [[KwTrue]], 1;
    if in_.graphId != "" {
      wheres, args, idx := wheres + [EqualsText("graph_id", idx, Bare)], args + [Str(in_.graphId)], idx + 1;
    }
    if in_.name != "" {
      wheres, args, idx := wheres + [EqualsText("name", idx, Bare)], args + [Str(in_.name)], idx + 1;
    }
    if in_.metadataFilter != "" {
      wheres, args, idx := wheres + [ContainsText("metadata", idx)], args + [Bytes(in_.metadataFilter)], idx + 1;
    }
    assert Builder(wheres, args) == SearchBuilder(in_);
    c := AppendAuth(wheres, args, idx, fs, "metadata");
  }

  const DEFAULT_LIMIT: nat := 100

  /** ORDER BY one column. */
  datatype Order = Order(column: string, descending: bool)

  /** A paged statement: its clause, all arguments, its order, and the placeholders of LIMIT and OFFSET. */
  datatype Paged =
    | PagedFailed(error: Error)
    | Paged(clause: Clause, args: seq<Arg>, order: Order, limitAt: nat, offsetAt: nat, joined: bool)

  const SORTABLE := {"assistant_id", "graph_id", "name", "created_at", "updated_at"}

  /** Newest first, unless a known column is asked for. */
  function SortClause(sortBy: string, sortOrder: string): Order {
    if sortBy !in SORTABLE then Order("created_at", true) else Order(sortBy, sortOrder != "asc")
  }

  /** LIMIT and OFFSET name the arguments they were built for. */
  ghost predicate PagesBy(p: Paged, limit: nat, offset: nat) {
    && p.Paged?
    && 1 <= p.limitAt <= |p.args| && p.args[p.limitAt - 1] == Int(if limit == 0 then 100 else limit)
    && 1 <= p.offsetAt <= |p.args| && p.args[p.offsetAt - 1] == Int(offset)
  }

  /** Search builds a statement that selects exactly the rows asked for, ordered and paged as asked for. */
  method Search(in_: SearchInput, fs: seq<Filter>) returns (p: Paged)
    ensures p.Paged? <==> AllWellFormed(fs)
    ensures p.Paged? ==> p.clause.Clause? && PagesBy(p, in_.limit, in_.offset)
    ensures p.Paged? ==>
              p.order == if in_.sortBy in {"assistant_id", "graph_id", "name", "created_at", "updated_at"}
                         then Order(in_.sortBy, in_.sortOrder != "asc") else Order("created_at", true)
    ensures p.Paged? ==> forall a: AssistantRow, jsonb: Caster ::
              ClauseMeans(p.clause.(args := p.args), Columns(a), jsonb, Matches(in_, fs, a, jsonb))
  {
    var c := WhereArgs(in_, fs);
    if c.BadFilter? { return PagedFailed(c.error); }
    var paging := [Int(if in_.limit == 0 then DEFAULT_LIMIT else in_.limit), Int(in_.offset)];
    forall a: AssistantRow, jsonb: Caster
      ensures ClauseMeans(c.(args := c.args + paging), Columns(a), jsonb, Matches(in_, fs, a, jsonb))
    {
      SearchMeans(in_, fs, a, jsonb, paging);
    }
    p := Paged(c, c.args + paging, SortClause(in_.sortBy, in_.sortOrder), c.next, c.next + 1, false);
  }

  /** Count uses the same clause without paging. */
  method Count(in_: SearchInput, fs: seq<Filter>) returns (c: Clause)
    ensures c.Clause? <==> AllWellFormed(fs)
    ensures forall a: AssistantRow, jsonb: Caster :: ClauseMeans(c, Columns(a), jsonb, Matches(in_, fs, a, jsonb))
  {
    c := WhereArgs(in_, fs);
    forall a: AssistantRow, jsonb: Caster ensures ClauseMeans(c, Columns(a), jsonb, Matches(in_, fs, a, jsonb)) {
      if c.Clause? {
        SearchMeans(in_, fs, a, jsonb, []);
        assert c.(args := c.args + []) == c;
      }
    }
  }

  // ------------------------------------------------------------- GetVersions

  /** A version row, with the assistant it belongs to (joined only when filters are given). */
  datatype VersionRow = VersionRow(id: string, metadata: Json, assistantMetadata: Json)

  function VersionColumns(v: VersionRow, joined: bool): Row {
    var own := map["assistant_versions.assistant_id" := Text(v.id), "assistant_versions.metadata" := Doc(v.metadata)];
    if joined then own["assistant.metadata" := Doc(v.assistantMetadata)] else own
  }

  /** Versions of one assistant, by the version's own metadata, gated on the assistant's. */
  predicate VersionMatches(id: string, metadataFilter: string, fs: seq<Filter>, v: VersionRow, jsonb: Caster) {
    && v.id == id
    && (metadataFilter != "" ==> Contains(v.metadata, jsonb(metadataFilter)))
    && AllAccept(fs, v.assistantMetadata, jsonb)
  }

  function VersionBuilder(id: string, metadataFilter: string): Builder {
    ExtendIf(Extend(NO_TESTS, Equals("assistant_versions.assistant_id", AsUuid, id)),
             metadataFilter != "", Holds("assistant_versions.metadata", metadataFilter))
  }

  lemma VersionsExpress(id: string, metadataFilter: string, v: VersionRow, joined: bool, jsonb: Caster)
    ensures Expresses(VersionBuilder(id, metadataFilter), VersionColumns(v, joined), jsonb, VersionMatches(id, metadataFilter, [], v, jsonb))
  {
    var row := VersionColumns(v, joined);
    var t, m := Equals("assistant_versions.assistant_id", AsUuid, id), Holds("assistant_versions.metadata", metadataFilter);
    NoTestsExpress(row, jsonb);
    assert Passes(t, row, jsonb) <==> v.id == id;
    ExtendExpresses(NO_TESTS, row, jsonb, true, true, t);
    assert Passes(m, row, jsonb) <==> Contains(v.metadata, jsonb(metadataFilter));
    ExtendExpresses(Extend(NO_TESTS, t), row, jsonb, v.id == id, metadataFilter != "", m);
  }

  /** The clause means what is asked, on rows that have the assistant's metadata only when there are filters. */
  lemma VersionsMean(id: string, metadataFilter: string, fs: seq<Filter>, v: VersionRow, jsonb: Caster, later: seq<Arg>)
    ensures var c := BuilderClause(VersionBuilder(id, metadataFilter), fs, "assistant.metadata");
            c.Clause? ==> ClauseMeans(c.(args := c.args + later), VersionColumns(v, fs != []), jsonb, VersionMatches(id, metadataFilter, fs, v, jsonb))
  {
    VersionsExpress(id, metadataFilter, v, fs != [], jsonb);
    BuilderMeans(VersionBuilder(id, metadataFilter), fs, "assistant.metadata", VersionColumns(v, fs != []), v.assistantMetadata, jsonb,
                 VersionMatches(id, metadataFilter, [], v, jsonb), later);
    assert VersionMatches(id, metadataFilter, fs, v, jsonb) <==>
           VersionMatches(id, metadataFilter, [], v, jsonb) && AllAccept(fs, v.assistantMetadata, jsonb);
  }

  /** The clause of the version listing, and whether it needs the assistant joined. */
  method VersionClause(id: string, metadataFilter: string, fs: seq<Filter>) returns (c: Clause, joined: bool)
    ensures c == BuilderClause(VersionBuilder(id, metadataFilter), fs, "assistant.metadata")
    ensures c.Clause? <==> AllWellFormed(fs)
    ensures c.Clause? ==> c.next == |c.args| + 1 && (joined <==> fs != [])
  {
    var wheres, args, idx := [EqualsText("assistant_versions.assistant_id", 1, AsUuid)], [Str(id)], 2;
    if metadataFilter != "" {
      wheres, args, idx := wheres + [ContainsText("assistant_versions.metadata", idx)], args + [Bytes(metadataFilter)], idx + 1;
    }
    assert Builder(wheres, args) == VersionBuilder(id, metadataFilter);
    joined := false;
    var auth := ApplyToQuery(fs, "assistant.metadata", idx);
    TopReads(fs, "assistant.metadata", idx);
    if auth.Failed? { return BadFilter(auth.error), false; }
    joined := auth.text != [];
    if joined {
      wheres, args, idx := wheres + [auth.text], args + auth.args, idx + |auth.args|;
    }
    c := Clause(wheres, args, idx);
  }

  /**
    The version listing selects exactly the versions asked for, newest first, paged as asked for.
    The assistant is joined exactly when there are filters, which is when the clause mentions it.
  */
  method GetVersions(id: string, limit: nat, offset: nat, metadataFilter: string, fs: seq<Filter>) returns (p: Paged)
    ensures p.Paged? <==> AllWellFormed(fs)
    ensures p.Paged? ==> p.clause.Clause? && PagesBy(p, limit, offset) && p.order == Order("version", true)
    ensures p.Paged? ==> (p.joined <==> fs != [])
    ensures p.Paged? ==> forall v: VersionRow, jsonb: Caster ::
              ClauseMeans(p.clause.(args := p.args), VersionColumns(v, p.joined), jsonb, VersionMatches(id, metadataFilter, fs, v, jsonb))
  {
    var c, joined := VersionClause(id, metadataFilter, fs);
    if c.BadFilter? { return PagedFailed(c.error); }
    var paging := [Int(if limit == 0 then DEFAULT_LIMIT else limit), Int(offset)];
    forall v: VersionRow, jsonb: Caster
      ensures ClauseMeans(c.(args := c.args + paging), VersionColumns(v, joined), jsonb, VersionMatches(id, metadataFilter, fs, v, jsonb))
    {
      VersionsMean(id, metadataFilter, fs, v, jsonb, paging);
    }
    p := Paged(c, c.args + paging, Order("version", true), c.next, c.next + 1, joined);
  }

  // --------------------------------------------------------------- SetLatest

  /** SetLatest binds the id and the version first, yet numbers its filter placeholders from 2. */
  function SetLatestArgs(id: string, version: int, fs: seq<Filter>): seq<Arg> {
    var auth := CompileTop(fs, "a.metadata", 2);
    [Str(id), Int(version)] + if auth.Emitted? then auth.args else []
  }

  /**
    So its filter placeholders name the arguments they were built for exactly when there are
    no filters: with any filter, the first placeholder names the version number instead.
  */
  lemma SetLatestMisbinds(id: string, version: int, fs: seq<Filter>)
    requires AllWellFormed(fs)
    ensures CompileTop(fs, "a.metadata", 2).Emitted?
    ensures Bound(SetLatestArgs(id, version, fs), 2, CompileTop(fs, "a.metadata", 2).args) <==> fs == []
    ensures fs != [] ==>
              && [2] <= Numbers(CompileTop(fs, "a.metadata", 2).text)
              && SetLatestArgs(id, version, fs)[1] == Int(version)
              && (exists key :: [Str(key)] <= CompileTop(fs, "a.metadata", 2).args)
  {
    TopReads(fs, "a.metadata", 2);
    var auth := CompileTop(fs, "a.metadata", 2);
    var args := SetLatestArgs(id, version, fs);
    if fs != [] {
      TopArgsStartWithText(fs, "a.metadata", 2);
      var key := auth.args[0].s;
      assert [Str(key)] <= auth.args;
      assert Interval(2, |auth.args|)[0] == 2;
      assert args[1..1 + |auth.args|][0] == Int(version);
    } else {
      assert args[1..1] == [];
    }
  }

  lemma TopArgsStartWithText(fs: seq<Filter>, col: string, idx: nat)
    requires fs != [] && AllWellFormed(fs)
    ensures var r := CompileTop(fs, col, idx); r.Emitted? && |r.args| > 0 && r.args[0].Str?
  {
    ListNumbers(fs, col, idx);
    FirstArgIsText(fs, col, idx);
  }

  /** The first argument of any nonempty compiled list is a key, bound as text. */
  lemma {:induction false} FirstArgIsText(fs: seq<Filter>, col: string, idx: nat)
    requires fs != [] && AllWellFormed(fs)
    ensures CompileAll(fs, col, idx).Parts? && |CompileAll(fs, col, idx).args| > 0 && CompileAll(fs, col, idx).args[0].Str?
    decreases fs
  {
    ListNumbers(fs, col, idx);
    CompileNumbers(fs[0], col, idx);
    match fs[0]
    case OrOf(gs) => FirstArgIsText(gs, col, idx);
    case AndOf(gs) => FirstArgIsText(gs, col, idx);
    case _ =>
  }
}
