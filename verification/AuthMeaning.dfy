/**
  The compiled text means what the filter tree means: it reads back unambiguously in every
  context, and the condition read back keeps exactly the rows the tree accepts.
*/
module AuthMeaning {
  import opened Json
  import opened Sql
  import opened AuthFilter

  // --------------------------------------------------------------- read back

  function EqExpr(col: string, idx: nat): Expr {
    Bin(ContainsOp, Column(col), Build(Param(idx, AsText), Param(idx + 1, AsJsonb)))
  }

  function HasExpr(col: string, idx: nat): Expr {
    Bin(ContainsOp, Bin(ArrowOp, Column(col), Param(idx, AsText)), Param(idx + 1, AsJsonb))
  }

  /** The syntax tree a reader recovers from the text of a filter. */
  function Tree(f: Filter, col: string, idx: nat): Expr
    requires WellFormed(f)
    decreases f, 1
  {
    match f
    case Eq(_, _) => EqExpr(col, idx)
    case Has(_, _) => HasExpr(col, idx)
    case OrOf(fs) => (var es := Trees(fs, col, idx); FoldOr(es[0], es[1..]))
    case AndOf(fs) => (var es := Trees(fs, col, idx); FoldAnd(es[0], es[1..]))
  }

  function Trees(fs: seq<Filter>, col: string, idx: nat): (es: seq<Expr>)
    requires AllWellFormed(fs)
    ensures |es| == |fs|
    decreases fs, 0
  {
    if fs == [] then []
    else
      CompileNumbers(fs[0], col, idx);
      [Tree(fs[0], col, idx)] + Trees(fs[1..], col, Compile(fs[0], col, idx).next)
  }

  /** An operand closed by a bracket, a comma or the end is a whole condition. */
  lemma OperandIsCondition(ts: seq<Token>, e: Expr, rest: seq<Token>)
    requires ReadOperand(ts) == Got(e, rest)
    requires rest == [] || rest[0] in {RParen, Comma}
    ensures ReadOr(ts) == Got(e, rest)
  {
    assert ReadComparison(ts) == Got(e, rest);
    assert MoreAnd(e, rest) == Got(e, rest);
    assert MoreOr(e, rest) == Got(e, rest);
  }

  lemma ParamIsCondition(n: nat, cast: Cast, rest: seq<Token>)
    requires rest != [] && rest[0] in {RParen, Comma}
    ensures ReadOr([Placeholder(n, cast)] + rest) == Got(Param(n, cast), rest)
  {
    var ts := [Placeholder(n, cast)] + rest;
    assert ts[1..] == rest;
    assert MoreOps(Param(n, cast), rest) == Got(Param(n, cast), rest);
    OperandIsCondition(ts, Param(n, cast), rest);
  }

  lemma BuildReads(idx: nat, rest: seq<Token>)
    ensures ReadPrimary([BuildObject, LParen, Placeholder(idx, AsText), Comma, Placeholder(idx + 1, AsJsonb), RParen] + rest)
            == Got(Build(Param(idx, AsText), Param(idx + 1, AsJsonb)), rest)
  {
    var ts := [BuildObject, LParen, Placeholder(idx, AsText), Comma, Placeholder(idx + 1, AsJsonb), RParen] + rest;
    assert ts[2..] == [Placeholder(idx, AsText)] + ts[3..];
    ParamIsCondition(idx, AsText, ts[3..]);
    assert ts[3..][1..] == [Placeholder(idx + 1, AsJsonb)] + ts[5..];
    ParamIsCondition(idx + 1, AsJsonb, ts[5..]);
    assert ts[5..][1..] == rest;
  }

  /** Two primaries around an operator, then something that ends the operand. */
  lemma BinaryReads(a: seq<Token>, l: Expr, op: Operator, b: seq<Token>, r: Expr, rest: seq<Token>)
    requires ReadPrimary(a + [OpTok(op)] + b + rest) == Got(l, [OpTok(op)] + b + rest)
    requires ReadPrimary(b + rest) == Got(r, rest)
    requires op != EqualsOp && rest != [] && rest[0] == RParen
    ensures ReadOr(a + [OpTok(op)] + b + rest) == Got(Bin(op, l, r), rest)
  {
    OpReads(l, op, b, r, rest);
    assert ReadOperand(a + [OpTok(op)] + b + rest) == Got(Bin(op, l, r), rest);
    OperandIsCondition(a + [OpTok(op)] + b + rest, Bin(op, l, r), rest);
  }

  lemma OpReads(l: Expr, op: Operator, b: seq<Token>, r: Expr, rest: seq<Token>)
    requires ReadPrimary(b + rest) == Got(r, rest)
    requires op != EqualsOp && rest != [] && rest[0] == RParen
    ensures MoreOps(l, [OpTok(op)] + b + rest) == Got(Bin(op, l, r), rest)
  {
    var tail := [OpTok(op)] + b + rest;
    assert tail[0] == OpTok(op) && tail[1..] == b + rest;
    assert MoreOps(Bin(op, l, r), rest) == Got(Bin(op, l, r), rest);
  }

  lemma EqReads(col: string, idx: nat)
    ensures Atom(EqText(col, idx), EqExpr(col, idx))
  {
    var build := [BuildObject, LParen, Placeholder(idx, AsText), Comma, Placeholder(idx + 1, AsJsonb), RParen];
    var body := [Name(col)] + [OpTok(ContainsOp)] + build;
    forall rest: seq<Token> | rest != [] && rest[0] == RParen
      ensures ReadOr(body + rest) == Got(EqExpr(col, idx), rest)
    {
      BuildReads(idx, rest);
      BinaryReads([Name(col)], Column(col), ContainsOp, build, Build(Param(idx, AsText), Param(idx + 1, AsJsonb)), rest);
    }
    BracketsMakeAtom(body, EqExpr(col, idx));
    assert EqText(col, idx) == [LParen] + body + [RParen];
  }

  function ArrowText(col: string, idx: nat): seq<Token> {
    [LParen] + ([Name(col)] + [OpTok(ArrowOp)] + [Placeholder(idx, AsText)]) + [RParen]
  }

  lemma ArrowReads(col: string, idx: nat)
    ensures Atom(ArrowText(col, idx), Bin(ArrowOp, Column(col), Param(idx, AsText)))
  {
    var key := [Placeholder(idx, AsText)];
    var inner := [Name(col)] + [OpTok(ArrowOp)] + key;
    var left := Bin(ArrowOp, Column(col), Param(idx, AsText));
    forall rest: seq<Token> | rest != [] && rest[0] == RParen
      ensures ReadOr(inner + rest) == Got(left, rest)
    {
      assert (key + rest)[1..] == rest;
      BinaryReads([Name(col)], Column(col), ArrowOp, key, Param(idx, AsText), rest);
    }
    BracketsMakeAtom(inner, left);
  }

  lemma AtomContains(a: seq<Token>, l: Expr, n: nat, cast: Cast, rest: seq<Token>)
    requires Atom(a, l) && rest != [] && rest[0] == RParen
    ensures ReadOr(a + [OpTok(ContainsOp)] + [Placeholder(n, cast)] + rest) == Got(Bin(ContainsOp, l, Param(n, cast)), rest)
  {
    var val := [Placeholder(n, cast)];
    var tail := [OpTok(ContainsOp)] + val + rest;
    assert a + [OpTok(ContainsOp)] + val + rest == a + tail;
    assert ReadPrimary(a + tail) == Got(l, tail);
    assert (val + rest)[1..] == rest;
    BinaryReads(a, l, ContainsOp, val, Param(n, cast), rest);
  }

  lemma HasReads(col: string, idx: nat)
    ensures Atom(HasText(col, idx), HasExpr(col, idx))
  {
    var left := Bin(ArrowOp, Column(col), Param(idx, AsText));
    ArrowReads(col, idx);
    var body := ArrowText(col, idx) + [OpTok(ContainsOp)] + [Placeholder(idx + 1, AsJsonb)];
    assert Atom([LParen] + body + [RParen], HasExpr(col, idx)) by {
      forall rest: seq<Token> | rest != [] && rest[0] == RParen
        ensures ReadOr(body + rest) == Got(HasExpr(col, idx), rest)
      {
        AtomContains(ArrowText(col, idx), left, idx + 1, AsJsonb, rest);
      }
      BracketsMakeAtom(body, HasExpr(col, idx));
    }
    assert HasText(col, idx) == [LParen] + body + [RParen];
  }

  /** Wherever a compiled filter is placed, it reads back as one atom: its own tree. */
  lemma {:induction false} CompiledReads(f: Filter, col: string, idx: nat)
    requires WellFormed(f)
    ensures Compile(f, col, idx).Emitted? && Atom(Compile(f, col, idx).text, Tree(f, col, idx))
    decreases f, 1
  {
    CompileNumbers(f, col, idx);
    match f
    case Eq(_, _) => EqReads(col, idx);
    case Has(_, _) => HasReads(col, idx);
    case OrOf(fs) =>
      CompiledListReads(fs, col, idx);
      BracketedOrIsAtom(CompileAll(fs, col, idx).parts, Trees(fs, col, idx));
    case AndOf(fs) =>
      CompiledListReads(fs, col, idx);
      BracketedAndIsAtom(CompileAll(fs, col, idx).parts, Trees(fs, col, idx));
  }

  lemma {:induction false} CompiledListReads(fs: seq<Filter>, col: string, idx: nat)
    requires AllWellFormed(fs)
    ensures CompileAll(fs, col, idx).Parts?
    ensures Conjuncts(CompileAll(fs, col, idx).parts, Trees(fs, col, idx))
    decreases fs, 0
  {
    if fs != [] {
      CompiledReads(fs[0], col, idx);
      var one := Compile(fs[0], col, idx);
      AtomIsConjunct(one.text, Tree(fs[0], col, idx));
      CompiledListReads(fs[1..], col, one.next);
    }
  }

  /** The expression the whole fragment stands for; no filters stand for no condition. */
  function TopTree(fs: seq<Filter>, col: string, idx: nat): Expr
    requires AllWellFormed(fs)
  {
    if fs == [] then TrueLit
    else var es := Trees(fs, col, idx); FoldAnd(es[0], es[1..])
  }

  /** The entry point fails exactly on ill-formed lists, and its text is one atom. */
  lemma TopReads(fs: seq<Filter>, col: string, idx: nat)
    ensures CompileTop(fs, col, idx).Emitted? <==> AllWellFormed(fs)
    ensures AllWellFormed(fs) ==>
              var r := CompileTop(fs, col, idx);
              && (r.text == [] <==> fs == [])
              && (fs != [] ==> Atom(r.text, TopTree(fs, col, idx)))
              && r.next == idx + |r.args|
              && Numbers(r.text) == Interval(idx, |r.args|)
  {
    ListNumbers(fs, col, idx);
    if AllWellFormed(fs) {
      var all := CompileAll(fs, col, idx);
      CompiledListReads(fs, col, idx);
      if |fs| == 1 {
        CompiledReads(fs[0], col, idx);
        CompileNumbers(fs[0], col, idx);
        assert fs[1..] == [];
        assert Trees(fs, col, idx)[1..] == [];
        assert Concat(all.parts) == Numbers(all.parts[0]) + Concat(all.parts[1..]);
        assert |Numbers(all.parts[0])| == |all.args|;
      } else if |fs| > 1 {
        BracketedAndIsAtom(all.parts, Trees(fs, col, idx));
        NumbersInBrackets(Join(all.parts, KwAnd));
        InterleavedNumbers(all.parts, KwAnd);
      }
    }
  }

  // ----------------------------------------------------------------- meaning

  /** `fargs` are the arguments bound to $idx, $(idx + 1), ... */
  ghost predicate Bound(args: seq<Arg>, idx: nat, fargs: seq<Arg>) {
    1 <= idx && idx - 1 + |fargs| <= |args| && args[idx - 1..idx - 1 + |fargs|] == fargs
  }

  lemma BoundSplit(args: seq<Arg>, idx: nat, a: seq<Arg>, b: seq<Arg>)
    requires Bound(args, idx, a + b)
    ensures Bound(args, idx, a) && Bound(args, idx + |a|, b)
  {
    var s := args[idx - 1..idx - 1 + |a + b|];
    assert s[..|a|] == a && s[|a|..] == b;
    assert args[idx - 1..idx - 1 + |a|] == s[..|a|];
    assert args[idx - 1 + |a|..idx - 1 + |a| + |b|] == s[|a|..];
  }

  ghost predicate HasColumn(row: Row, col: string, meta: Json) {
    col in row && row[col] == Doc(meta)
  }

  /**
    Under arguments bound at its placeholders, a compiled filter evaluates without a type
    error, and it keeps a row exactly when the tree accepts the row's document.
  */
  lemma {:induction false} TreeMeans(f: Filter, col: string, idx: nat, row: Row, args: seq<Arg>, jsonb: Caster, meta: Json)
    requires WellFormed(f) && HasColumn(row, col, meta)
    requires Compile(f, col, idx).Emitted? && Bound(args, idx, Compile(f, col, idx).args)
    ensures Logical(Tree(f, col, idx), row, args, jsonb)
    ensures KeepsTwoValued(Tree(f, col, idx), row, args, jsonb) <==> Accepts(f, meta, jsonb)
    decreases f, 1
  {
    match f
    case Eq(key, m) =>
      LeafArgs(args, idx, Str(key), Str(m));
      EqMeans(key, m, col, idx, row, args, jsonb, meta);
    case Has(key, ms) =>
      LeafArgs(args, idx, Str(key), Str(ms[0]));
      HasMeans(key, ms[0], col, idx, row, args, jsonb, meta);
    case OrOf(fs) =>
      TreesMean(fs, col, idx, row, args, jsonb, meta);
      OrMeans(Trees(fs, col, idx), fs, row, args, jsonb, meta);
    case AndOf(fs) =>
      TreesMean(fs, col, idx, row, args, jsonb, meta);
      AndMeans(Trees(fs, col, idx), fs, row, args, jsonb, meta);
  }

  ghost predicate Mean(es: seq<Expr>, fs: seq<Filter>, row: Row, args: seq<Arg>, jsonb: Caster, meta: Json) {
    && |es| == |fs|
    && (forall i | 0 <= i < |fs| :: Logical(es[i], row, args, jsonb))
    && (forall i | 0 <= i < |fs| :: KeepsTwoValued(es[i], row, args, jsonb) <==> Accepts(fs[i], meta, jsonb))
  }

  lemma OrMeans(es: seq<Expr>, fs: seq<Filter>, row: Row, args: seq<Arg>, jsonb: Caster, meta: Json)
    requires es != [] && Mean(es, fs, row, args, jsonb, meta)
    ensures Logical(FoldOr(es[0], es[1..]), row, args, jsonb)
    ensures KeepsTwoValued(FoldOr(es[0], es[1..]), row, args, jsonb) <==> exists i | 0 <= i < |fs| :: Accepts(fs[i], meta, jsonb)
  {
    HeadAndTail(es);
    FoldOrLogical(es[0], es[1..], row, args, jsonb);
    assert forall i | 0 <= i < |fs| :: es[i] in es;
  }

  lemma AndMeans(es: seq<Expr>, fs: seq<Filter>, row: Row, args: seq<Arg>, jsonb: Caster, meta: Json)
    requires es != [] && Mean(es, fs, row, args, jsonb, meta)
    ensures Logical(FoldAnd(es[0], es[1..]), row, args, jsonb)
    ensures KeepsTwoValued(FoldAnd(es[0], es[1..]), row, args, jsonb) <==> AllAccept(fs, meta, jsonb)
  {
    HeadAndTail(es);
    FoldAndLogical(es[0], es[1..], row, args, jsonb);
    assert forall i | 0 <= i < |fs| :: es[i] in es;
  }

  lemma EqMeans(key: string, m: string, col: string, idx: nat, row: Row, args: seq<Arg>, jsonb: Caster, meta: Json)
    requires HasColumn(row, col, meta) && 1 <= idx < |args| && args[idx - 1] == Str(key) && args[idx] == Str(m)
    ensures Logical(EqExpr(col, idx), row, args, jsonb)
    ensures Keeps(EqExpr(col, idx), row, args, jsonb) <==> Accepts(Eq(key, m), meta, jsonb)
  {
    assert Eval(Column(col), row, args, jsonb) == Doc(meta);
    var one := JObj(map[key := jsonb(m)]);
    assert Eval(Build(Param(idx, AsText), Param(idx + 1, AsJsonb)), row, args, jsonb) == Doc(one) by {
      assert Eval(Param(idx, AsText), row, args, jsonb) == Text(key);
      assert Eval(Param(idx + 1, AsJsonb), row, args, jsonb) == Doc(jsonb(m));
    }
    assert Eval(EqExpr(col, idx), row, args, jsonb) == Bool(Contains(meta, one));
    assert one.fields[key] == jsonb(m);
  }

  lemma HasMeans(key: string, m: string, col: string, idx: nat, row: Row, args: seq<Arg>, jsonb: Caster, meta: Json)
    requires HasColumn(row, col, meta) && 1 <= idx < |args| && args[idx - 1] == Str(key) && args[idx] == Str(m)
    ensures Logical(HasExpr(col, idx), row, args, jsonb)
    ensures Keeps(HasExpr(col, idx), row, args, jsonb) <==> Accepts(Has(key, [m]), meta, jsonb)
  {
    var left := Bin(ArrowOp, Column(col), Param(idx, AsText));
    assert Eval(left, row, args, jsonb) == Apply(ArrowOp, Doc(meta), Text(key)) by {
      assert Eval(Column(col), row, args, jsonb) == Doc(meta);
      assert Eval(Param(idx, AsText), row, args, jsonb) == Text(key);
    }
    assert Eval(Param(idx + 1, AsJsonb), row, args, jsonb) == Doc(jsonb(m));
  }

  lemma LeafArgs(args: seq<Arg>, idx: nat, k: Arg, v: Arg)
    requires Bound(args, idx, [k, v])
    ensures args[idx - 1] == k && args[idx] == v
  {
    var s := args[idx - 1..idx + 1];
    assert s[0] == k && s[1] == v;
  }

  lemma HeadAndTail(es: seq<Expr>)
    requires es != []
    ensures forall e :: e in es <==> e == es[0] || e in es[1..]
  {
    assert es == [es[0]] + es[1..];
  }

  lemma {:induction false} TreesMean(fs: seq<Filter>, col: string, idx: nat, row: Row, args: seq<Arg>, jsonb: Caster, meta: Json)
    requires AllWellFormed(fs) && HasColumn(row, col, meta)
    requires CompileAll(fs, col, idx).Parts? && Bound(args, idx, CompileAll(fs, col, idx).args)
    ensures Mean(Trees(fs, col, idx), fs, row, args, jsonb, meta)
    decreases fs, 0
  {
    if fs != [] {
      CompileNumbers(fs[0], col, idx);
      var one := Compile(fs[0], col, idx);
      var more := CompileAll(fs[1..], col, one.next);
      BoundSplit(args, idx, one.args, more.args);
      TreeMeans(fs[0], col, idx, row, args, jsonb, meta);
      TreesMean(fs[1..], col, one.next, row, args, jsonb, meta);
    }
  }

  lemma TopMeans(fs: seq<Filter>, col: string, idx: nat, row: Row, args: seq<Arg>, jsonb: Caster, meta: Json)
    requires AllWellFormed(fs) && (fs != [] ==> HasColumn(row, col, meta))
    requires CompileTop(fs, col, idx).Emitted? && Bound(args, idx, CompileTop(fs, col, idx).args)
    ensures Logical(TopTree(fs, col, idx), row, args, jsonb)
    ensures KeepsTwoValued(TopTree(fs, col, idx), row, args, jsonb) <==> AllAccept(fs, meta, jsonb)
  {
    ListNumbers(fs, col, idx);
    if fs != [] {
      TreesMean(fs, col, idx, row, args, jsonb, meta);
      AndMeans(Trees(fs, col, idx), fs, row, args, jsonb, meta);
    }
  }

  /** The separate conjuncts of a WHERE clause: a caller's own, then the auth fragment if any. */
  function WithAuth(own: seq<seq<Token>>, auth: seq<Token>): seq<seq<Token>> {
    if auth == [] then own else own + [auth]
  }

  /**
    Splicing is safe. Put the compiled filters after any conjuncts of the caller's, joined
    by AND: the clause reads back as a condition, and over arguments that bind the filter's
    placeholders it keeps exactly the rows that all the caller's conjuncts keep and every
    filter accepts.
  */
  lemma SplicedMeans(own: seq<seq<Token>>, es: seq<Expr>, fs: seq<Filter>, col: string, idx: nat,
                     row: Row, args: seq<Arg>, jsonb: Caster, meta: Json)
    returns (e: Expr)
    requires own != [] && Conjuncts(own, es)
    requires forall i | 0 <= i < |es| :: Logical(es[i], row, args, jsonb)
    requires AllWellFormed(fs) && (fs != [] ==> HasColumn(row, col, meta))
    requires CompileTop(fs, col, idx).Emitted? && Bound(args, idx, CompileTop(fs, col, idx).args)
    ensures ReadCondition(Join(WithAuth(own, CompileTop(fs, col, idx).text), KwAnd)) == Some(e)
    ensures Keeps(e, row, args, jsonb) <==>
            (forall i | 0 <= i < |es| :: Keeps(es[i], row, args, jsonb)) && AllAccept(fs, meta, jsonb)
  {
    TopReads(fs, col, idx);
    var auth := CompileTop(fs, col, idx).text;
    var parts := WithAuth(own, auth);
    var all := if fs == [] then es else es + [TopTree(fs, col, idx)];
    if fs != [] {
      AtomIsConjunct(auth, TopTree(fs, col, idx));
    }
    assert Conjuncts(parts, all);
    ConjunctsRead(parts, all);
    e := FoldAnd(all[0], all[1..]);
    TopMeans(fs, col, idx, row, args, jsonb, meta);
    NullsReadAsFalse(TopTree(fs, col, idx), row, args, jsonb);
    assert forall i | 0 <= i < |es| :: all[i] == es[i];
    if fs != [] {
      assert all[|es|] == TopTree(fs, col, idx);
    }
    FoldKeeps(all, row, args, jsonb);
  }

  /** Conjuncts joined by AND read back as their conjunction. */
  lemma ConjunctsRead(parts: seq<seq<Token>>, all: seq<Expr>)
    requires parts != [] && Conjuncts(parts, all)
    ensures ReadCondition(Join(parts, KwAnd)) == Some(FoldAnd(all[0], all[1..]))
  {
    AndJoinReads(parts, all, []);
    assert Join(parts, KwAnd) + [] == Join(parts, KwAnd);
    var e := FoldAnd(all[0], all[1..]);
    assert MoreOr(e, []) == Got(e, []);
  }

  /** A conjunction keeps exactly the rows every conjunct keeps. */
  lemma FoldKeeps(all: seq<Expr>, row: Row, args: seq<Arg>, jsonb: Caster)
    requires all != [] && forall i | 0 <= i < |all| :: Logical(all[i], row, args, jsonb)
    ensures Keeps(FoldAnd(all[0], all[1..]), row, args, jsonb) <==>
            forall i | 0 <= i < |all| :: Keeps(all[i], row, args, jsonb)
  {
    HeadAndTail(all);
    AllKept(all, row, args, jsonb);
    FoldAndLogical(all[0], all[1..], row, args, jsonb);
    NullsReadAsFalse(FoldAnd(all[0], all[1..]), row, args, jsonb);
    assert forall i | 0 <= i < |all| :: all[i] in all;
  }

  lemma AllKept(all: seq<Expr>, row: Row, args: seq<Arg>, jsonb: Caster)
    requires forall x | x in all :: Logical(x, row, args, jsonb)
    ensures (forall x | x in all :: KeepsTwoValued(x, row, args, jsonb)) <==>
            (forall x | x in all :: Keeps(x, row, args, jsonb))
  {
    forall x | x in all ensures KeepsTwoValued(x, row, args, jsonb) <==> Keeps(x, row, args, jsonb) {
      NullsReadAsFalse(x, row, args, jsonb);
    }
  }
}
