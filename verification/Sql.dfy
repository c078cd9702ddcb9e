/**
  The fragment of SQL that the store layer assembles as text: tokens, a reader with
  PostgreSQL's operator precedence (section 4.1.6 of the PostgreSQL documentation: AND binds
  tighter than OR, `=` tighter than AND, all other operators tighter than `=` and to the left),
  and evaluation in three-valued logic.
*/
module Sql {
  import opened Json

  datatype Cast = Bare | AsText | AsJsonb | AsUuid

  datatype Operator = ContainsOp | ArrowOp | EqualsOp

  datatype Token =
    | LParen | RParen | Comma
    | KwAnd | KwOr | KwTrue
    | OpTok(op: Operator)
    | Name(column: string)
    | BuildObject
    | NotExists(relation: string)
    | Placeholder(n: nat, cast: Cast)

  datatype Expr =
    | TrueLit
    | Column(name: string)
    | Vacant(relation: string)
    | Param(n: nat, cast: Cast)
    | Build(key: Expr, val: Expr)
    | Bin(op: Operator, l: Expr, r: Expr)
    | AndE(l: Expr, r: Expr)
    | OrE(l: Expr, r: Expr)

  /** What a reader returns: an expression and the tokens after it. */
  datatype Parsed = Fail | Got(expr: Expr, rest: seq<Token>)

  // ---------------------------------------------------------------- reading

  /** OR-level: one or more AND-level operands separated by OR. */
  function ReadOr(ts: seq<Token>): (r: Parsed)
    ensures r.Got? ==> |r.rest| < |ts|
    decreases |ts|, 4
  {
    match ReadAnd(ts)
    case Fail => Fail
    case Got(e, rest) => MoreOr(e, rest)
  }

  function MoreOr(left: Expr, ts: seq<Token>): (r: Parsed)
    ensures r.Got? ==> |r.rest| <= |ts|
    decreases |ts|, 5
  {
    if ts == [] || ts[0] != KwOr then Got(left, ts)
    else
      match ReadAnd(ts[1..])
      case Fail => Fail
      case Got(e, rest) => MoreOr(OrE(left, e), rest)
  }

  /** AND-level: one or more comparisons separated by AND. */
  function ReadAnd(ts: seq<Token>): (r: Parsed)
    ensures r.Got? ==> |r.rest| < |ts|
    decreases |ts|, 3
  {
    match ReadComparison(ts)
    case Fail => Fail
    case Got(e, rest) => MoreAnd(e, rest)
  }

  function MoreAnd(left: Expr, ts: seq<Token>): (r: Parsed)
    ensures r.Got? ==> |r.rest| <= |ts|
    decreases |ts|, 5
  {
    if ts == [] || ts[0] != KwAnd then Got(left, ts)
    else
      match ReadComparison(ts[1..])
      case Fail => Fail
      case Got(e, rest) => MoreAnd(AndE(left, e), rest)
  }

  /** An operand, or two operands compared with `=` (which does not associate). */
  function ReadComparison(ts: seq<Token>): (r: Parsed)
    ensures r.Got? ==> |r.rest| < |ts|
    decreases |ts|, 2
  {
    match ReadOperand(ts)
    case Fail => Fail
    case Got(e, rest) =>
      if rest == [] || rest[0] != OpTok(EqualsOp) then Got(e, rest)
      else
        match ReadOperand(rest[1..])
        case Fail => Fail
        case Got(e', rest') => Got(Bin(EqualsOp, e, e'), rest')
  }

  /** Primaries chained by the jsonb operators, which share one precedence and go to the left. */
  function ReadOperand(ts: seq<Token>): (r: Parsed)
    ensures r.Got? ==> |r.rest| < |ts|
    decreases |ts|, 1
  {
    match ReadPrimary(ts)
    case Fail => Fail
    case Got(e, rest) => MoreOps(e, rest)
  }

  function MoreOps(left: Expr, ts: seq<Token>): (r: Parsed)
    ensures r.Got? ==> |r.rest| <= |ts|
    decreases |ts|, 5
  {
    if ts == [] || !ts[0].OpTok? || ts[0].op == EqualsOp then Got(left, ts)
    else
      match ReadPrimary(ts[1..])
      case Fail => Fail
      case Got(e, rest) => MoreOps(Bin(ts[0].op, left, e), rest)
  }

  function ReadPrimary(ts: seq<Token>): (r: Parsed)
    ensures r.Got? ==> |r.rest| < |ts|
    decreases |ts|, 0
  {
    if ts == [] then Fail
    else
      match ts[0]
      case KwTrue => Got(TrueLit, ts[1..])
      case Name(c) => Got(Column(c), ts[1..])
      case NotExists(r) => Got(Vacant(r), ts[1..])
      case Placeholder(n, cast) => Got(Param(n, cast), ts[1..])
      case LParen =>
        (match ReadOr(ts[1..])
         case Fail => Fail
         case Got(e, rest) => if rest != [] && rest[0] == RParen then Got(e, rest[1..]) else Fail)
      case BuildObject =>
        if |ts| < 2 || ts[1] != LParen then Fail
        else
          (match ReadOr(ts[2..])
           case Fail => Fail
           case Got(k, rest) =>
             if rest == [] || rest[0] != Comma then Fail
             else
               match ReadOr(rest[1..])
               case Fail => Fail
               case Got(v, rest') =>
                 if rest' != [] && rest'[0] == RParen then Got(Build(k, v), rest'[1..]) else Fail)
      case _ => Fail
  }

  /** Reads a whole condition: everything must be consumed. */
  function ReadCondition(ts: seq<Token>): Option<Expr> {
    match ReadOr(ts)
    case Got(e, rest) => if rest == [] then Some(e) else None
    case Fail => None
  }

  // ------------------------------------------------------------- evaluation

  /** A bound argument as the driver receives it: Go strings, byte slices, integers. */
  datatype Arg = Str(s: string) | Bytes(s: string) | Int(n: int) | Absent

  /** A SQL value; `Bad` marks an ill-typed operation or an unbound placeholder. */
  datatype Value = Null | Bool(b: bool) | Text(s: string) | Doc(j: Json) | Number(n: int) | Bad

  /** Column values; a relation that the statement itself has filled is there under its name. */
  type Row = map<string, Value>

  /** The text-to-jsonb cast of the database; nothing is assumed about it. */
  type Caster = string -> Json

  function Bind(a: Arg, cast: Cast, jsonb: Caster): Value {
    match (a, cast)
    case (Absent, _) => Null
    case (Str(s), Bare) => Text(s)
    case (Str(s), AsText) => Text(s)
    case (Str(s), AsUuid) => Text(s)
    case (Str(s), AsJsonb) => Doc(jsonb(s))
    case (Bytes(s), AsJsonb) => Doc(jsonb(s))
    case (Int(n), Bare) => Number(n)
    case _ => Bad
  }

  predicate TruthValue(v: Value) {
    v == Null || v.Bool?
  }

  function And3(a: Value, b: Value): Value {
    if !TruthValue(a) || !TruthValue(b) then Bad
    else if a == Bool(false) || b == Bool(false) then Bool(false)
    else if a == Null || b == Null then Null
    else Bool(true)
  }

  function Or3(a: Value, b: Value): Value {
    if !TruthValue(a) || !TruthValue(b) then Bad
    else if a == Bool(true) || b == Bool(true) then Bool(true)
    else if a == Null || b == Null then Null
    else Bool(false)
  }

  function Apply(op: Operator, a: Value, b: Value): Value {
    if a == Bad || b == Bad then Bad
    else if a == Null || b == Null then Null
    else
      match op
      case EqualsOp =>
        if (a.Text? && b.Text?) || (a.Number? && b.Number?) then Bool(a == b) else Bad
      case ContainsOp => if a.Doc? && b.Doc? then Bool(Contains(a.j, b.j)) else Bad
      case ArrowOp =>
        if !a.Doc? || !b.Text? then Bad
        else if a.j.JObj? && b.s in a.j.fields then Doc(a.j.fields[b.s])
        else Null
  }

  function Eval(e: Expr, row: Row, args: seq<Arg>, jsonb: Caster): Value {
    match e
    case TrueLit => Bool(true)
    case Column(c) => if c in row then row[c] else Bad
    case Vacant(r) => Bool(r !in row)
    case Param(n, cast) => if 1 <= n <= |args| then Bind(args[n - 1], cast, jsonb) else Bad
    case Build(k, v) =>
      var key, val := Eval(k, row, args, jsonb), Eval(v, row, args, jsonb);
      if key.Text? && val.Doc? then Doc(JObj(map[key.s := val.j])) else Bad
    case Bin(op, l, r) => Apply(op, Eval(l, row, args, jsonb), Eval(r, row, args, jsonb))
    case AndE(l, r) => And3(Eval(l, row, args, jsonb), Eval(r, row, args, jsonb))
    case OrE(l, r) => Or3(Eval(l, row, args, jsonb), Eval(r, row, args, jsonb))
  }

  /** WHERE keeps a row exactly when its condition is true: neither false nor NULL. */
  predicate Keeps(e: Expr, row: Row, args: seq<Arg>, jsonb: Caster) {
    Eval(e, row, args, jsonb) == Bool(true)
  }

  /** A condition that yields TRUE, FALSE or NULL, and no type error. */
  predicate Logical(e: Expr, row: Row, args: seq<Arg>, jsonb: Caster) {
    TruthValue(Eval(e, row, args, jsonb))
  }

  /** Two-valued reading: AND and OR over truth values, a NULL operand counting as false. */
  predicate KeepsTwoValued(e: Expr, row: Row, args: seq<Arg>, jsonb: Caster) {
    match e
    case AndE(l, r) => KeepsTwoValued(l, row, args, jsonb) && KeepsTwoValued(r, row, args, jsonb)
    case OrE(l, r) => KeepsTwoValued(l, row, args, jsonb) || KeepsTwoValued(r, row, args, jsonb)
    case _ => Keeps(e, row, args, jsonb)
  }

  /** Without negation, three-valued logic keeps exactly the rows of the two-valued reading. */
  lemma {:induction false} NullsReadAsFalse(e: Expr, row: Row, args: seq<Arg>, jsonb: Caster)
    requires Logical(e, row, args, jsonb)
    ensures Keeps(e, row, args, jsonb) <==> KeepsTwoValued(e, row, args, jsonb)
  {
    match e
    case AndE(l, r) =>
      NullsReadAsFalse(l, row, args, jsonb);
      NullsReadAsFalse(r, row, args, jsonb);
    case OrE(l, r) =>
      NullsReadAsFalse(l, row, args, jsonb);
      NullsReadAsFalse(r, row, args, jsonb);
    case _ =>
  }

  /** The placeholder numbers of a text, left to right. */
  function Numbers(ts: seq<Token>): seq<nat> {
    if ts == [] then []
    else (if ts[0].Placeholder? then [ts[0].n] else []) + Numbers(ts[1..])
  }

  /** The numbers lo, lo + 1, ..., lo + len - 1. */
  function Interval(lo: nat, len: nat): (s: seq<nat>) {
    seq(len, i requires 0 <= i => lo + i)
  }

  lemma {:induction false} NumbersAppend(a: seq<Token>, b: seq<Token>)
    ensures Numbers(a + b) == Numbers(a) + Numbers(b)
  {
    if a == [] {
      assert a + b == b;
    } else {
      var head := if a[0].Placeholder? then [a[0].n] else [];
      assert (a + b)[0] == a[0] && (a + b)[1..] == a[1..] + b;
      NumbersAppend(a[1..], b);
      assert Numbers(a + b) == head + (Numbers(a[1..]) + Numbers(b));
    }
  }

  lemma {:induction false} NoNumbers(ts: seq<Token>)
    requires forall t | t in ts :: !t.Placeholder?
    ensures Numbers(ts) == []
  {
    if ts != [] {
      assert ts[0] in ts;
      NoNumbers(ts[1..]);
    }
  }

  /** A text around two placeholders has exactly their two numbers. */
  lemma TwoNumbers(a: seq<Token>, p: nat, pc: Cast, b: seq<Token>, q: nat, qc: Cast, c: seq<Token>)
    requires forall t | t in a + b + c :: !t.Placeholder?
    ensures Numbers(a + [Placeholder(p, pc)] + b + [Placeholder(q, qc)] + c) == [p, q]
  {
    forall t | t in a || t in b || t in c ensures !t.Placeholder? {
      assert t in a + b + c;
    }
    NoNumbers(a);
    NoNumbers(b);
    NoNumbers(c);
    var u, v := [Placeholder(p, pc)], [Placeholder(q, qc)];
    assert u[1..] == [] && v[1..] == [];
    NumbersAppend(a + u + b + v, c);
    NumbersAppend(a + u + b, v);
    NumbersAppend(a + u, b);
    NumbersAppend(a, u);
  }

  // --------------------------------------------------------- reading joins

  /** Joins parts with a separator, as `strings.Join` does. */
  function Join(parts: seq<seq<Token>>, sep: Token): seq<Token> {
    if parts == [] then []
    else if |parts| == 1 then parts[0]
    else parts[0] + [sep] + Join(parts[1..], sep)
  }

  /** `rest` ends an operand: nothing that could extend a comparison follows. */
  predicate Ends(rest: seq<Token>) {
    rest == [] || rest[0] in {RParen, Comma, KwAnd, KwOr}
  }

  /** `ts` is text that reads as `e` in any place where a conjunct may stand. */
  ghost predicate Conjunct(ts: seq<Token>, e: Expr) {
    forall rest: seq<Token> | Ends(rest) :: ReadComparison(ts + rest) == Got(e, rest)
  }

  /** `ts` is text that reads as `e` wherever a primary may stand. */
  ghost predicate Atom(ts: seq<Token>, e: Expr) {
    forall rest: seq<Token> :: ReadPrimary(ts + rest) == Got(e, rest)
  }

  lemma AtomIsConjunct(ts: seq<Token>, e: Expr)
    requires Atom(ts, e)
    ensures Conjunct(ts, e)
  {
    forall rest: seq<Token> | Ends(rest) ensures ReadComparison(ts + rest) == Got(e, rest) {
      assert ReadPrimary(ts + rest) == Got(e, rest);
      assert MoreOps(e, rest) == Got(e, rest);
    }
  }

  /** Left-to-right conjunction (or disjunction) of a nonempty list. */
  function FoldAnd(left: Expr, es: seq<Expr>): Expr
    decreases |es|
  {
    if es == [] then left else FoldAnd(AndE(left, es[0]), es[1..])
  }

  function FoldOr(left: Expr, es: seq<Expr>): Expr
    decreases |es|
  {
    if es == [] then left else FoldOr(OrE(left, es[0]), es[1..])
  }

  ghost predicate Conjuncts(parts: seq<seq<Token>>, es: seq<Expr>) {
    |parts| == |es| && forall i | 0 <= i < |parts| :: Conjunct(parts[i], es[i])
  }

  /** What follows the separator in front of some joined texts. */
  function AfterFirst(parts: seq<seq<Token>>, sep: Token, rest: seq<Token>): seq<Token>
    requires parts != []
  {
    if |parts| == 1 then rest else [sep] + Join(parts[1..], sep) + rest
  }

  lemma JoinedStep(parts: seq<seq<Token>>, sep: Token, rest: seq<Token>)
    requires parts != []
    ensures [sep] + Join(parts, sep) + rest == [sep] + (parts[0] + AfterFirst(parts, sep, rest))
  {
    if |parts| == 1 {
      Regroup([sep], parts[0], [], rest);
    } else {
      Regroup([sep], parts[0], [sep] + Join(parts[1..], sep), rest);
      assert Join(parts, sep) == parts[0] + ([sep] + Join(parts[1..], sep));
    }
  }

  lemma Regroup(a: seq<Token>, b: seq<Token>, c: seq<Token>, d: seq<Token>)
    ensures a + (b + c) + d == a + (b + (c + d))
    ensures b + [] == b && [] + d == d
  {
  }

  lemma AndStep(left: Expr, part: seq<Token>, e: Expr, tail: seq<Token>)
    requires Conjunct(part, e) && Ends(tail)
    ensures MoreAnd(left, [KwAnd] + (part + tail)) == MoreAnd(AndE(left, e), tail)
  {
    assert ([KwAnd] + (part + tail))[1..] == part + tail;
    assert ReadComparison(part + tail) == Got(e, tail);
  }

  lemma OrStep(left: Expr, part: seq<Token>, e: Expr, tail: seq<Token>)
    requires Conjunct(part, e) && Ends(tail) && (tail == [] || tail[0] != KwAnd)
    ensures MoreOr(left, [KwOr] + (part + tail)) == MoreOr(OrE(left, e), tail)
  {
    assert ([KwOr] + (part + tail))[1..] == part + tail;
    ConjunctIsAnd(part, e, tail);
  }

  lemma {:induction false} MoreAndReads(left: Expr, parts: seq<seq<Token>>, es: seq<Expr>, rest: seq<Token>)
    requires parts != [] && Conjuncts(parts, es)
    requires Ends(rest) && (rest == [] || rest[0] != KwAnd)
    ensures MoreAnd(left, [KwAnd] + Join(parts, KwAnd) + rest) == Got(FoldAnd(left, es), rest)
    decreases |parts|
  {
    JoinedStep(parts, KwAnd, rest);
    AndStep(left, parts[0], es[0], AfterFirst(parts, KwAnd, rest));
    if |parts| == 1 {
      assert es[1..] == [];
    } else {
      MoreAndReads(AndE(left, es[0]), parts[1..], es[1..], rest);
    }
  }

  /** An AND-join of conjuncts reads as their conjunction, whatever closes it. */
  lemma AndJoinReads(parts: seq<seq<Token>>, es: seq<Expr>, rest: seq<Token>)
    requires parts != [] && Conjuncts(parts, es)
    requires Ends(rest) && (rest == [] || rest[0] != KwAnd)
    ensures ReadAnd(Join(parts, KwAnd) + rest) == Got(FoldAnd(es[0], es[1..]), rest)
  {
    if |parts| == 1 {
      assert es[1..] == [];
      assert MoreAnd(es[0], rest) == Got(es[0], rest);
    } else {
      var tail := [KwAnd] + Join(parts[1..], KwAnd) + rest;
      assert Join(parts, KwAnd) + rest == parts[0] + tail;
      assert ReadComparison(parts[0] + tail) == Got(es[0], tail);
      MoreAndReads(es[0], parts[1..], es[1..], rest);
    }
  }

  lemma ConjunctIsAnd(ts: seq<Token>, e: Expr, rest: seq<Token>)
    requires Conjunct(ts, e) && Ends(rest) && (rest == [] || rest[0] != KwAnd)
    ensures ReadAnd(ts + rest) == Got(e, rest)
  {
    assert ReadComparison(ts + rest) == Got(e, rest);
  }

  lemma {:induction false} MoreOrReads(left: Expr, parts: seq<seq<Token>>, es: seq<Expr>, rest: seq<Token>)
    requires parts != [] && Conjuncts(parts, es)
    requires Ends(rest) && (rest == [] || rest[0] in {RParen, Comma})
    ensures MoreOr(left, [KwOr] + Join(parts, KwOr) + rest) == Got(FoldOr(left, es), rest)
    decreases |parts|
  {
    JoinedStep(parts, KwOr, rest);
    OrStep(left, parts[0], es[0], AfterFirst(parts, KwOr, rest));
    if |parts| == 1 {
      assert es[1..] == [];
    } else {
      MoreOrReads(OrE(left, es[0]), parts[1..], es[1..], rest);
    }
  }

  /** An OR-join of conjuncts reads as their disjunction when a bracket or the end closes it. */
  lemma OrJoinReads(parts: seq<seq<Token>>, es: seq<Expr>, rest: seq<Token>)
    requires parts != [] && Conjuncts(parts, es)
    requires rest == [] || rest[0] in {RParen, Comma}
    ensures ReadOr(Join(parts, KwOr) + rest) == Got(FoldOr(es[0], es[1..]), rest)
  {
    if |parts| == 1 {
      assert es[1..] == [];
      ConjunctIsAnd(parts[0], es[0], rest);
      assert MoreOr(es[0], rest) == Got(es[0], rest);
    } else {
      var tail := [KwOr] + Join(parts[1..], KwOr) + rest;
      assert Join(parts, KwOr) + rest == parts[0] + tail;
      ConjunctIsAnd(parts[0], es[0], tail);
      MoreOrReads(es[0], parts[1..], es[1..], rest);
    }
  }

  /** Brackets turn any readable condition into an atom: nothing outside can regroup it. */
  lemma BracketsMakeAtom(body: seq<Token>, e: Expr)
    requires forall rest: seq<Token> | rest != [] && rest[0] == RParen :: ReadOr(body + rest) == Got(e, rest)
    ensures Atom([LParen] + body + [RParen], e)
  {
    forall rest: seq<Token> ensures ReadPrimary([LParen] + body + [RParen] + rest) == Got(e, rest) {
      var ts := [LParen] + body + [RParen] + rest;
      var close := [RParen] + rest;
      assert ts[1..] == body + close;
      assert ReadOr(body + close) == Got(e, close);
      assert close[1..] == rest;
    }
  }

  lemma BracketedAndIsAtom(parts: seq<seq<Token>>, es: seq<Expr>)
    requires parts != [] && Conjuncts(parts, es)
    ensures Atom([LParen] + Join(parts, KwAnd) + [RParen], FoldAnd(es[0], es[1..]))
  {
    var e := FoldAnd(es[0], es[1..]);
    forall rest: seq<Token> | rest != [] && rest[0] == RParen
      ensures ReadOr(Join(parts, KwAnd) + rest) == Got(e, rest)
    {
      AndJoinReads(parts, es, rest);
      assert MoreOr(e, rest) == Got(e, rest);
    }
    BracketsMakeAtom(Join(parts, KwAnd), e);
  }

  lemma BracketedOrIsAtom(parts: seq<seq<Token>>, es: seq<Expr>)
    requires parts != [] && Conjuncts(parts, es)
    ensures Atom([LParen] + Join(parts, KwOr) + [RParen], FoldOr(es[0], es[1..]))
  {
    var e := FoldOr(es[0], es[1..]);
    forall rest: seq<Token> | rest != [] && rest[0] == RParen
      ensures ReadOr(Join(parts, KwOr) + rest) == Got(e, rest)
    {
      OrJoinReads(parts, es, rest);
    }
    BracketsMakeAtom(Join(parts, KwOr), e);
  }

  lemma {:induction false} FoldAndLogical(left: Expr, es: seq<Expr>, row: Row, args: seq<Arg>, jsonb: Caster)
    requires Logical(left, row, args, jsonb)
    requires forall e | e in es :: Logical(e, row, args, jsonb)
    ensures Logical(FoldAnd(left, es), row, args, jsonb)
    ensures KeepsTwoValued(FoldAnd(left, es), row, args, jsonb) <==>
            KeepsTwoValued(left, row, args, jsonb) && forall e | e in es :: KeepsTwoValued(e, row, args, jsonb)
    decreases |es|
  {
    if es != [] {
      assert es == [es[0]] + es[1..];
      assert es[0] in es;
      assert Logical(es[0], row, args, jsonb);
      FoldAndLogical(AndE(left, es[0]), es[1..], row, args, jsonb);
    }
  }

  lemma {:induction false} FoldOrLogical(left: Expr, es: seq<Expr>, row: Row, args: seq<Arg>, jsonb: Caster)
    requires Logical(left, row, args, jsonb)
    requires forall e | e in es :: Logical(e, row, args, jsonb)
    ensures Logical(FoldOr(left, es), row, args, jsonb)
    ensures KeepsTwoValued(FoldOr(left, es), row, args, jsonb) <==>
            KeepsTwoValued(left, row, args, jsonb) || exists e | e in es :: KeepsTwoValued(e, row, args, jsonb)
    decreases |es|
  {
    if es != [] {
      assert es == [es[0]] + es[1..];
      assert es[0] in es;
      assert Logical(es[0], row, args, jsonb);
      FoldOrLogical(OrE(left, es[0]), es[1..], row, args, jsonb);
    }
  }
}
