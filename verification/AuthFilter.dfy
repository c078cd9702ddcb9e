/**
  The auth-filter compiler: a tree of Eq / Contains / Or / And filters becomes a WHERE
  fragment with numbered placeholders plus the arguments bound to them.
*/
module AuthFilter {
  import opened Json
  import opened Sql

  /** A filter message. `Missing` is a nil message, `Unset` a message whose oneof is not set. */
  datatype Filter =
    | Missing
    | Unset
    | Eq(key: string, match_: string)
    | Has(key: string, matches: seq<string>)
    | OrOf(filters: seq<Filter>)
    | AndOf(filters: seq<Filter>)

  datatype Error = NilFilter | UnknownType | EmptyKey | NotOneMatch(got: nat) | EmptyNested

  datatype Emitted = Failed(error: Error) | Emitted(text: seq<Token>, args: seq<Arg>, next: nat)

  datatype EmittedParts = PartsFailed(error: Error) | Parts(parts: seq<seq<Token>>, args: seq<Arg>, next: nat)

  // ------------------------------------------------------------ compilation

  function EqText(col: string, idx: nat): seq<Token> {
    [LParen, Name(col), OpTok(ContainsOp), BuildObject, LParen, Placeholder(idx, AsText), Comma,
     Placeholder(idx + 1, AsJsonb), RParen, RParen]
  }

  function HasText(col: string, idx: nat): seq<Token> {
    [LParen, LParen, Name(col), OpTok(ArrowOp), Placeholder(idx, AsText), RParen, OpTok(ContainsOp),
     Placeholder(idx + 1, AsJsonb), RParen]
  }

  /** The fragment for one filter, with `idx` the first free placeholder number. */
  function Compile(f: Filter, col: string, idx: nat): Emitted
    decreases f, 1
  {
    match f
    case Missing => Failed(NilFilter)
    case Unset => Failed(UnknownType)
    case Eq(key, m) =>
      if key == "" then Failed(EmptyKey) else Emitted(EqText(col, idx), [Str(key), Str(m)], idx + 2)
    case Has(key, ms) =>
      if key == "" then Failed(EmptyKey)
      else if |ms| != 1 then Failed(NotOneMatch(|ms|))
      else Emitted(HasText(col, idx), [Str(key), Str(ms[0])], idx + 2)
    case OrOf(fs) => CompileNested(fs, col, idx, KwOr)
    case AndOf(fs) => CompileNested(fs, col, idx, KwAnd)
  }

  function CompileNested(fs: seq<Filter>, col: string, idx: nat, sep: Token): Emitted
    decreases fs, 1
  {
    if fs == [] then Failed(EmptyNested)
    else
      match CompileAll(fs, col, idx)
      case PartsFailed(e) => Failed(e)
      case Parts(parts, args, next) => Emitted([LParen] + Join(parts, sep) + [RParen], args, next)
  }

  /** The fragments of a list; each filter's placeholders start where the previous one stopped. */
  function CompileAll(fs: seq<Filter>, col: string, idx: nat): EmittedParts
    decreases fs, 0
  {
    if fs == [] then Parts([], [], idx)
    else
      match Compile(fs[0], col, idx)
      case Failed(e) => PartsFailed(e)
      case Emitted(text, args, next) =>
        match CompileAll(fs[1..], col, next)
        case PartsFailed(e) => PartsFailed(e)
        case Parts(parts, args', next') => Parts([text] + parts, args + args', next')
  }

  /** What the entry point returns: nothing for no filters, no extra brackets for one filter. */
  function CompileTop(fs: seq<Filter>, col: string, idx: nat): Emitted {
    match CompileAll(fs, col, idx)
    case PartsFailed(e) => Failed(e)
    case Parts(parts, args, next) =>
      if |parts| == 0 then Emitted([], [], idx)
      else if |parts| == 1 then Emitted(parts[0], args, next)
      else Emitted([LParen] + Join(parts, KwAnd) + [RParen], args, next)
  }

  // ------------------------------------------------- the loops, as written

  /** CompileAll from the left: what a loop has after handling a prefix. */
  lemma {:induction false} CompileAllSnoc(fs: seq<Filter>, f: Filter, col: string, idx: nat)
    ensures CompileAll(fs + [f], col, idx) ==
            match CompileAll(fs, col, idx)
            case PartsFailed(e) => PartsFailed(e)
            case Parts(parts, args, next) =>
              match Compile(f, col, next)
              case Failed(e) => PartsFailed(e)
              case Emitted(text, args', next') => Parts(parts + [text], args + args', next')
    decreases |fs|
  {
    if fs == [] {
      assert (fs + [f])[1..] == [];
    } else {
      assert (fs + [f])[1..] == fs[1..] + [f];
      if Compile(fs[0], col, idx).Emitted? {
        CompileAllSnoc(fs[1..], f, col, Compile(fs[0], col, idx).next);
      }
    }
  }

  lemma {:induction false} FailureSticks(fs: seq<Filter>, more: seq<Filter>, col: string, idx: nat)
    requires CompileAll(fs, col, idx).PartsFailed?
    ensures CompileAll(fs + more, col, idx) == CompileAll(fs, col, idx)
    decreases |fs|
  {
    assert (fs + more)[1..] == fs[1..] + more;
    if Compile(fs[0], col, idx).Emitted? {
      FailureSticks(fs[1..], more, col, Compile(fs[0], col, idx).next);
    }
  }

  method Emit(f: Filter, col: string, idx: nat) returns (r: Emitted)
    ensures r == Compile(f, col, idx)
    decreases f, 1
  {
    match f
    case Missing => r := Failed(NilFilter);
    case Unset => r := Failed(UnknownType);
    case Eq(key, m) =>
      if key == "" { return Failed(EmptyKey); }
      r := Emitted(EqText(col, idx), [Str(key), Str(m)], idx + 2);
    case Has(key, ms) =>
      if key == "" { return Failed(EmptyKey); }
      if |ms| != 1 { return Failed(NotOneMatch(|ms|)); }
      r := Emitted(HasText(col, idx), [Str(key), Str(ms[0])], idx + 2);
    case OrOf(fs) => r := JoinNested(fs, col, idx, KwOr);
    case AndOf(fs) => r := JoinNested(fs, col, idx, KwAnd);
  }

  method JoinNested(fs: seq<Filter>, col: string, idx: nat, sep: Token) returns (r: Emitted)
    ensures r == CompileNested(fs, col, idx, sep)
    decreases fs, 0
  {
    if |fs| == 0 { return Failed(EmptyNested); }
    var args: seq<Arg>, parts: seq<seq<Token>>, next := [], [], idx;
    for i := 0 to |fs|
      invariant CompileAll(fs[..i], col, idx) == Parts(parts, args, next)
    {
      assert fs[..i + 1] == fs[..i] + [fs[i]];
      assert fs == fs[..i + 1] + fs[i + 1..];
      CompileAllSnoc(fs[..i], fs[i], col, idx);
      var one := Emit(fs[i], col, next);
      if one.Failed? {
        FailureSticks(fs[..i + 1], fs[i + 1..], col, idx);
        return Failed(one.error);
      }
      parts, args, next := parts + [one.text], args + one.args, one.next;
    }
    assert fs[..|fs|] == fs;
    r := Emitted([LParen] + Join(parts, sep) + [RParen], args, next);
  }

  method ApplyToQuery(fs: seq<Filter>, col: string, startIdx: nat) returns (r: Emitted)
    ensures r == CompileTop(fs, col, startIdx)
  {
    if |fs| == 0 { return Emitted([], [], startIdx); }
    var args: seq<Arg>, parts: seq<seq<Token>>, idx := [], [], startIdx;
    for i := 0 to |fs|
      invariant CompileAll(fs[..i], col, startIdx) == Parts(parts, args, idx)
      invariant |parts| == i
    {
      assert fs[..i + 1] == fs[..i] + [fs[i]];
      assert fs == fs[..i + 1] + fs[i + 1..];
      CompileAllSnoc(fs[..i], fs[i], col, startIdx);
      var one := Emit(fs[i], col, idx);
      if one.Failed? {
        FailureSticks(fs[..i + 1], fs[i + 1..], col, startIdx);
        return Failed(one.error);
      }
      parts, args, idx := parts + [one.text], args + one.args, one.next;
    }
    assert fs[..|fs|] == fs;
    if |parts| == 1 {
      return Emitted(parts[0], args, idx);
    }
    r := Emitted([LParen] + Join(parts, KwAnd) + [RParen], args, idx);
  }

  // ------------------------------------------------------- meaning of a tree

  /** The filters the compiler accepts. */
  predicate WellFormed(f: Filter)
    decreases f
  {
    match f
    case Missing => false
    case Unset => false
    case Eq(key, _) => key != ""
    case Has(key, ms) => key != "" && |ms| == 1
    case OrOf(fs) => fs != [] && forall i | 0 <= i < |fs| :: WellFormed(fs[i])
    case AndOf(fs) => fs != [] && forall i | 0 <= i < |fs| :: WellFormed(fs[i])
  }

  predicate AllWellFormed(fs: seq<Filter>) {
    forall i | 0 <= i < |fs| :: WellFormed(fs[i])
  }

  /**
    The meaning a tree is meant to have on a row's metadata document. Eq compares the value
    stored under the key structurally; Has also finds a scalar inside a stored list.
  */
  predicate Accepts(f: Filter, meta: Json, jsonb: Caster)
    decreases f
  {
    match f
    case Eq(key, m) => meta.JObj? && key in meta.fields && Within(jsonb(m), meta.fields[key])
    case Has(key, ms) => meta.JObj? && key in meta.fields && |ms| == 1 && Contains(meta.fields[key], jsonb(ms[0]))
    case OrOf(fs) => exists i | 0 <= i < |fs| :: Accepts(fs[i], meta, jsonb)
    case AndOf(fs) => forall i | 0 <= i < |fs| :: Accepts(fs[i], meta, jsonb)
    case _ => false
  }

  /** A top-level list is a conjunction; the empty list restricts nothing. */
  predicate AllAccept(fs: seq<Filter>, meta: Json, jsonb: Caster) {
    forall i | 0 <= i < |fs| :: Accepts(fs[i], meta, jsonb)
  }

  // ---------------------------------------------------- placeholder numbers

  lemma {:induction false} InterleavedNumbers(parts: seq<seq<Token>>, sep: Token)
    requires !sep.Placeholder?
    ensures Numbers(Join(parts, sep)) == Concat(parts)
  {
    if |parts| > 1 {
      NumbersAppend(parts[0] + [sep], Join(parts[1..], sep));
      NumbersAppend(parts[0], [sep]);
      InterleavedNumbers(parts[1..], sep);
    } else if |parts| == 1 {
      assert parts[1..] == [];
    }
  }

  function Concat(parts: seq<seq<Token>>): seq<nat> {
    if parts == [] then [] else Numbers(parts[0]) + Concat(parts[1..])
  }

  lemma NumbersInBrackets(ts: seq<Token>)
    ensures Numbers([LParen] + ts + [RParen]) == Numbers(ts)
  {
    NumbersAppend([LParen] + ts, [RParen]);
    NumbersAppend([LParen], ts);
  }

  /**
    Compilation succeeds exactly on well-formed filters, and the text uses each of
    $idx .. $(idx + |args| - 1) exactly once and in order.
  */
  lemma {:induction false} CompileNumbers(f: Filter, col: string, idx: nat)
    ensures Compile(f, col, idx).Emitted? <==> WellFormed(f)
    ensures Compile(f, col, idx).Emitted? ==>
              var r := Compile(f, col, idx);
              r.next == idx + |r.args| && |r.args| > 0 && Numbers(r.text) == Interval(idx, |r.args|)
    decreases f, 1
  {
    match f
    case OrOf(fs) => NestedNumbers(fs, col, idx, KwOr);
    case AndOf(fs) => NestedNumbers(fs, col, idx, KwAnd);
    case Eq(key, m) =>
      LeafNumbers(col, idx);
    case Has(key, ms) =>
      LeafNumbers(col, idx);
    case _ =>
  }

  lemma LeafNumbers(col: string, idx: nat)
    ensures Numbers(EqText(col, idx)) == Interval(idx, 2)
    ensures Numbers(HasText(col, idx)) == Interval(idx, 2)
  {
    var a := [LParen, Name(col), OpTok(ContainsOp), BuildObject, LParen];
    TwoNumbers(a, idx, AsText, [Comma], idx + 1, AsJsonb, [RParen, RParen]);
    assert EqText(col, idx) == a + [Placeholder(idx, AsText)] + [Comma] + [Placeholder(idx + 1, AsJsonb)] + [RParen, RParen];
    var b := [LParen, LParen, Name(col), OpTok(ArrowOp)];
    TwoNumbers(b, idx, AsText, [RParen, OpTok(ContainsOp)], idx + 1, AsJsonb, [RParen]);
    assert HasText(col, idx) ==
           b + [Placeholder(idx, AsText)] + [RParen, OpTok(ContainsOp)] + [Placeholder(idx + 1, AsJsonb)] + [RParen];
    assert Interval(idx, 2) == [idx, idx + 1];
  }

  lemma {:induction false} NestedNumbers(fs: seq<Filter>, col: string, idx: nat, sep: Token)
    requires !sep.Placeholder?
    ensures CompileNested(fs, col, idx, sep).Emitted? <==> fs != [] && AllWellFormed(fs)
    ensures CompileNested(fs, col, idx, sep).Emitted? ==>
              var r := CompileNested(fs, col, idx, sep);
              r.next == idx + |r.args| && |r.args| > 0 && Numbers(r.text) == Interval(idx, |r.args|)
    decreases fs, 1
  {
    ListNumbers(fs, col, idx);
    match CompileAll(fs, col, idx)
    case PartsFailed(_) =>
    case Parts(parts, args, next) =>
      NumbersInBrackets(Join(parts, sep));
      InterleavedNumbers(parts, sep);
  }

  lemma {:induction false} ListNumbers(fs: seq<Filter>, col: string, idx: nat)
    ensures CompileAll(fs, col, idx).Parts? <==> AllWellFormed(fs)
    ensures CompileAll(fs, col, idx).Parts? ==>
              var r := CompileAll(fs, col, idx);
              && |r.parts| == |fs|
              && r.next == idx + |r.args|
              && (fs != [] ==> |r.args| > 0)
              && Concat(r.parts) == Interval(idx, |r.args|)
    decreases fs, 0
  {
    if fs != [] {
      CompileNumbers(fs[0], col, idx);
      match Compile(fs[0], col, idx)
      case Failed(_) =>
      case Emitted(text, args, next) =>
        ListNumbers(fs[1..], col, next);
        WellFormedSplit(fs);
        if AllWellFormed(fs[1..]) {
          var r := CompileAll(fs[1..], col, next);
          IntervalSplit(idx, |args|, |r.args|);
          assert ([text] + r.parts)[1..] == r.parts;
        }
    }
  }

  lemma WellFormedSplit(fs: seq<Filter>)
    requires fs != []
    ensures AllWellFormed(fs) <==> WellFormed(fs[0]) && AllWellFormed(fs[1..])
  {
    assert forall i | 0 <= i < |fs| :: WellFormed(fs[i]) <==> if i == 0 then WellFormed(fs[0]) else WellFormed(fs[1..][i - 1]);
  }

  lemma IntervalSplit(lo: nat, a: nat, b: nat)
    ensures Interval(lo, a) + Interval(lo + a, b) == Interval(lo, a + b)
  {
  }
}
