/** What the items of a printed message are, in terms of its declarations alone. */
module ProtoItems {
  import opened Json
  import opened ProtoPrinter

  /** The oneof is named with a leading underscore and has one field only, which is proto3 optional. */
  ghost predicate StandsForOptional(m: Message, i: nat)
    requires i < |m.oneofs|
  {
    && m.oneofs[i] != "" && m.oneofs[i][0] == '_'
    && exists j | 0 <= j < |m.fields| ::
         && m.fields[j].oneof == Some(i) && m.fields[j].proto3Optional
         && forall j' | 0 <= j' < |m.fields| && j' != j :: m.fields[j'].oneof != Some(i)
  }

  ghost predicate StrictlyUp(at: seq<nat>) {
    forall j, j' | 0 <= j < j' < |at| :: at[j] < at[j']
  }

  /** The fields of a oneof are those that name it, in declaration order. */
  lemma {:induction false} InOneofOrder(fs: seq<Field>, i: nat) returns (at: seq<nat>)
    ensures |at| == |InOneof(fs, i)| && StrictlyUp(at)
    ensures forall j | 0 <= j < |at| :: at[j] < |fs| && fs[at[j]] == InOneof(fs, i)[j]
    ensures forall n: nat :: n in at <==> n < |fs| && fs[n].oneof == Some(i)
    decreases |fs|
  {
    if fs == [] {
      at := [];
    } else {
      var rest := InOneofOrder(fs[1..], i);
      var later := Later(rest);
      at := if fs[0].oneof == Some(i) then [0] + later else later;
      Shifted(rest, later);
      ZeroFirst(later);
      OrderMembers(fs, i, rest, later, at);
      OrderFields(fs, i, rest, later, at);
    }
  }

  function Later(at: seq<nat>): (r: seq<nat>)
    ensures |r| == |at| && forall j | 0 <= j < |at| :: r[j] == at[j] + 1
  {
    seq(|at|, (j: nat) requires j < |at| => at[j] + 1)
  }

  lemma ZeroFirst(later: seq<nat>)
    requires StrictlyUp(later) && forall j | 0 <= j < |later| :: later[j] > 0
    ensures StrictlyUp([0] + later)
  {
    var at := [0] + later;
    forall j, j' | 0 <= j < j' < |at| ensures at[j] < at[j'] {
      assert at[j'] == later[j' - 1];
      assert j > 0 ==> at[j] == later[j - 1];
    }
  }

  lemma OrderMembers(fs: seq<Field>, i: nat, rest: seq<nat>, later: seq<nat>, at: seq<nat>)
    requires fs != [] && 0 !in later && forall n: nat | n > 0 :: n in later <==> n - 1 in rest
    requires forall n: nat :: n in rest <==> n < |fs[1..]| && fs[1..][n].oneof == Some(i)
    requires at == if fs[0].oneof == Some(i) then [0] + later else later
    ensures forall n: nat :: n in at <==> n < |fs| && fs[n].oneof == Some(i)
  {
    forall n: nat ensures n in at <==> n < |fs| && fs[n].oneof == Some(i) {
      if n > 0 {
        assert n in at <==> n in later;
        assert n < |fs| ==> fs[n] == fs[1..][n - 1];
      }
    }
  }

  lemma OrderFields(fs: seq<Field>, i: nat, rest: seq<nat>, later: seq<nat>, at: seq<nat>)
    requires fs != [] && |later| == |rest| == |InOneof(fs[1..], i)| && forall j | 0 <= j < |rest| :: later[j] == rest[j] + 1
    requires forall j | 0 <= j < |rest| :: rest[j] < |fs[1..]| && fs[1..][rest[j]] == InOneof(fs[1..], i)[j]
    requires at == if fs[0].oneof == Some(i) then [0] + later else later
    ensures |at| == |InOneof(fs, i)| && forall j | 0 <= j < |at| :: at[j] < |fs| && fs[at[j]] == InOneof(fs, i)[j]
  {
    var tail := InOneof(fs[1..], i);
    ShiftedFields(fs, rest, later, tail);
    assert InOneof(fs, i) == if fs[0].oneof == Some(i) then [fs[0]] + tail else tail;
  }

  lemma ShiftedFields(fs: seq<Field>, rest: seq<nat>, later: seq<nat>, tail: seq<Field>)
    requires fs != [] && |later| == |rest| == |tail| && forall j | 0 <= j < |rest| :: later[j] == rest[j] + 1
    requires forall j | 0 <= j < |rest| :: rest[j] < |fs[1..]| && fs[1..][rest[j]] == tail[j]
    ensures forall j | 0 <= j < |later| :: later[j] < |fs| && fs[later[j]] == tail[j]
  {
    forall j | 0 <= j < |later| ensures later[j] < |fs| && fs[later[j]] == tail[j] {
      assert fs[later[j]] == fs[1..][rest[j]];
    }
  }

  lemma Shifted(rest: seq<nat>, later: seq<nat>)
    requires |later| == |rest| && forall j | 0 <= j < |rest| :: later[j] == rest[j] + 1
    ensures 0 !in later && forall n: nat | n > 0 :: n in later <==> n - 1 in rest
    ensures StrictlyUp(rest) ==> StrictlyUp(later)
  {
    forall n: nat | n > 0 ensures n in later <==> n - 1 in rest {
      if n - 1 in rest {
        var j :| 0 <= j < |rest| && rest[j] == n - 1;
        assert later[j] == n;
      }
    }
  }

  /** A oneof is synthetic exactly when it only stands for one optional field. */
  lemma SyntheticExactly(m: Message, i: nat)
    requires i < |m.oneofs|
    ensures Synthetic(m, i) <==> StandsForOptional(m, i)
  {
    var at := InOneofOrder(m.fields, i);
    if Synthetic(m, i) {
      assert at == [at[0]] && at[0] in at;
    }
    if StandsForOptional(m, i) {
      var j :| 0 <= j < |m.fields| && m.fields[j].oneof == Some(i) && m.fields[j].proto3Optional
               && forall j' | 0 <= j' < |m.fields| && j' != j :: m.fields[j'].oneof != Some(i);
      assert j in at;
      OnlyOne(at, j);
    }
  }

  lemma OnlyOne(at: seq<nat>, j: nat)
    requires StrictlyUp(at) && j in at && forall n | n in at :: n == j
    ensures at == [j]
  {
    UpDiffers(at);
    forall n | 0 <= n < |at| ensures at[n] == j {
      assert at[n] in at;
    }
  }

  lemma UpDiffers(at: seq<nat>)
    requires StrictlyUp(at)
    ensures |at| > 1 ==> at[0] < at[1]
  {
  }

  /** A block is printed for exactly the declared oneofs that have a field and do not stand for one optional field. */
  lemma BlockExactly(m: Message, i: nat)
    requires i < |m.oneofs|
    ensures Block(i) in Items(m) <==> (exists f | f in m.fields :: f.oneof == Some(i)) && !StandsForOptional(m, i)
  {
    SyntheticExactly(m, i);
    SortSorts(m.fields);
    BlockCounts(m, SortByNumber(m.fields), {}, i);
    assert forall f :: f in SortByNumber(m.fields) <==> f in multiset(SortByNumber(m.fields));
    assert forall f :: f in m.fields <==> f in multiset(m.fields);
    assert Block(i) in Items(m) <==> multiset(Items(m))[Block(i)] > 0;
  }

  /** A field is printed by itself exactly when it is in no oneof, or in one that stands for it alone. */
  lemma LooseExactly(m: Message, f: Field)
    requires f.oneof.Some? ==> f.oneof.value < |m.oneofs|
    ensures Loose(f) in Items(m) <==> f in m.fields && (f.oneof == None || StandsForOptional(m, f.oneof.value))
  {
    if f.oneof.Some? {
      SyntheticExactly(m, f.oneof.value);
    }
    SortSorts(m.fields);
    LooseCounts(m, SortByNumber(m.fields), {}, f);
    assert f in m.fields <==> f in multiset(m.fields);
    assert Loose(f) in Items(m) <==> multiset(Items(m))[Loose(f)] > 0;
  }

  ghost predicate HasField(m: Message, name: string) {
    exists f | f in m.fields :: f.name == name
  }

  lemma {:induction false} NamedExactly(fs: seq<Field>, name: string)
    ensures Named(fs, name).Some? <==> exists f | f in fs :: f.name == name
    decreases |fs|
  {
    if fs != [] {
      NamedExactly(fs[1..], name);
      assert forall f :: f in fs <==> f == fs[0] || f in fs[1..];
    }
  }

  /** A message prints exactly when its oneofs are declared, its map entries complete, and its other nested messages print. */
  lemma PrintableExactly(m: Message)
    ensures Printable(m) <==>
            && (forall f | f in m.fields && f.oneof.Some? :: f.oneof.value < |m.oneofs|)
            && forall e | e in m.nested :: if e.mapEntry then HasField(e, "key") && HasField(e, "value") else Printable(e)
  {
    forall e: Message ensures GoodEntry(e) <==> HasField(e, "key") && HasField(e, "value") {
      NamedExactly(e.fields, "key");
      NamedExactly(e.fields, "value");
    }
    assert AllPrintable(m.nested) <==> forall e | e in m.nested :: NestedPrintable(e) by {
      assert forall i | 0 <= i < |m.nested| :: m.nested[i] in m.nested;
    }
  }

  // ------------------------------------------------------------------ stability

  function Numbered(fs: seq<Field>, n: int): seq<Field> {
    if fs == [] then [] else (if fs[0].number == n then [fs[0]] else []) + Numbered(fs[1..], n)
  }

  lemma NumberedCons(f: Field, s: seq<Field>, n: int)
    ensures Numbered([f] + s, n) == (if f.number == n then [f] else []) + Numbered(s, n)
  {
    assert ([f] + s)[1..] == s;
  }

  lemma {:induction false} InsertNumbered(f: Field, s: seq<Field>, n: int)
    ensures Numbered(Insert(f, s), n) == (if f.number == n then [f] else []) + Numbered(s, n)
    decreases |s|
  {
    if s != [] && f.number > s[0].number {
      InsertNumbered(f, s[1..], n);
      NumberedCons(s[0], Insert(f, s[1..]), n);
      NumberedCons(s[0], s[1..], n);
      assert s == [s[0]] + s[1..];
    } else {
      NumberedCons(f, s, n);
    }
  }

  /** Fields of one number keep their order. */
  lemma {:induction false} SortIsStable(fs: seq<Field>, n: int)
    ensures Numbered(SortByNumber(fs), n) == Numbered(fs, n)
    decreases |fs|
  {
    if fs != [] {
      SortIsStable(fs[1..], n);
      InsertNumbered(fs[0], SortByNumber(fs[1..]), n);
    }
  }

  /** The last part of a type name: what follows its last dot, or all of it. */
  lemma {:induction false} LastPart(s: string)
    ensures var t := LastSegment(s);
            && '.' !in t && |t| <= |s| && s[|s| - |t|..] == t
            && (|t| < |s| ==> s[|s| - |t| - 1] == '.')
    decreases |s|
  {
    if s != "" && s[|s| - 1] != '.' {
      var front := s[..|s| - 1];
      LastPart(front);
      var t := LastSegment(front);
      assert s == front + [s[|s| - 1]];
      assert s[|s| - |t| - 1..] == front[|front| - |t|..] + [s[|s| - 1]];
    }
  }
}
