/**
  Printing a message descriptor as .proto source: nested types, then fields ordered by number,
  with the fields of each real oneof gathered into one block.
*/
module ProtoPrinter {
  import opened Json

  datatype Cardinality = Singular | Repeated

  /** `typeName` is "" for scalar types, whose printed name is `scalar`. */
  datatype Field = Field(
    name: string, number: int, card: Cardinality, typeName: string, scalar: string,
    proto3Optional: bool, oneof: Option<nat>)

  datatype Enum = Enum(name: string, values: seq<(string, int)>)

  datatype Message = Message(
    name: string, fields: seq<Field>, nested: seq<Message>, enums: seq<Enum>, oneofs: seq<string>, mapEntry: bool)

  datatype Line =
    | Open(indent: nat, name: string)
    | EnumOpen(indent: nat, name: string)
    | EnumValue(indent: nat, name: string, number: int)
    | OneofOpen(indent: nat, name: string)
    | FieldLine(indent: nat, prefix: string, typ: string, name: string, number: int)
    | MapLine(indent: nat, key: string, value: string, name: string, number: int)
    | Close(indent: nat)

  // ------------------------------------------------------------------ pieces

  function LstripDots(s: string): string {
    if s != "" && s[0] == '.' then LstripDots(s[1..]) else s
  }

  function LastSegment(s: string): string {
    if s == "" || s[|s| - 1] == '.' then "" else LastSegment(s[..|s| - 1]) + [s[|s| - 1]]
  }

  function TypeText(f: Field): string {
    if f.typeName != "" then LstripDots(f.typeName) else f.scalar
  }

  function Named(fs: seq<Field>, name: string): Option<Field> {
    if fs == [] then None else if fs[0].name == name then Some(fs[0]) else Named(fs[1..], name)
  }

  /** A map-entry message must have a key and a value field. */
  predicate GoodEntry(m: Message) {
    Named(m.fields, "key").Some? && Named(m.fields, "value").Some?
  }

  /** Entry message name to key and value types; a later entry of the same name wins. */
  function MapEntries(nested: seq<Message>): map<string, (string, string)> {
    if nested == [] then map[]
    else
      var before := MapEntries(nested[..|nested| - 1]);
      var m := nested[|nested| - 1];
      if m.mapEntry && GoodEntry(m)
      then before[m.name := (TypeText(Named(m.fields, "key").value), TypeText(Named(m.fields, "value").value))]
      else before
  }

  /** The line of one field: a map, or a label and a type. */
  function EmitField(f: Field, indent: nat, inOneof: bool, entries: map<string, (string, string)>): Line {
    if f.card == Repeated && f.typeName != "" && LastSegment(f.typeName) in entries then
      var kv := entries[LastSegment(f.typeName)];
      MapLine(indent, kv.0, kv.1, f.name, f.number)
    else
      FieldLine(indent,
                if f.card == Repeated then "repeated " else if f.proto3Optional && !inOneof then "optional " else "",
                TypeText(f), f.name, f.number)
  }

  /** The fields of a oneof, in declaration order. */
  function InOneof(fs: seq<Field>, i: nat): seq<Field> {
    if fs == [] then []
    else (if fs[0].oneof == Some(i) then [fs[0]] else []) + InOneof(fs[1..], i)
  }

  /** A oneof that only stands for one proto3 optional field. */
  predicate Synthetic(m: Message, i: nat) {
    && i < |m.oneofs|
    && m.oneofs[i] != "" && m.oneofs[i][0] == '_'
    && |InOneof(m.fields, i)| == 1
    && InOneof(m.fields, i)[0].proto3Optional
  }

  predicate Real(m: Message, f: Field) {
    f.oneof.Some? && !Synthetic(m, f.oneof.value)
  }

  // ----------------------------------------------------------------- ordering

  function Insert(f: Field, s: seq<Field>): seq<Field> {
    if s == [] || f.number <= s[0].number then [f] + s else [s[0]] + Insert(f, s[1..])
  }

  /** Sorting by number, equal numbers in their given order. */
  function SortByNumber(fs: seq<Field>): seq<Field> {
    if fs == [] then [] else Insert(fs[0], SortByNumber(fs[1..]))
  }

  predicate Ascending(s: seq<Field>) {
    forall i, j | 0 <= i < j < |s| :: s[i].number <= s[j].number
  }

  lemma {:induction false} InsertAdds(f: Field, s: seq<Field>)
    ensures multiset(Insert(f, s)) == multiset(s) + multiset{f}
    decreases |s|
  {
    if s != [] && f.number > s[0].number {
      InsertAdds(f, s[1..]);
      assert s == [s[0]] + s[1..];
    } else {
      assert multiset([f] + s) == multiset{f} + multiset(s);
    }
  }

  lemma {:induction false} InsertAscends(f: Field, s: seq<Field>)
    requires Ascending(s)
    ensures Ascending(Insert(f, s))
    decreases |s|
  {
    if s != [] && f.number > s[0].number {
      InsertAscends(f, s[1..]);
      var rest := Insert(f, s[1..]);
      InsertAdds(f, s[1..]);
      forall g | g in rest ensures s[0].number <= g.number {
        assert g in multiset(rest);
        assert g == f || g in s[1..];
      }
    }
  }

  /** Sorting rearranges, and ascends. */
  lemma {:induction false} SortSorts(fs: seq<Field>)
    ensures Ascending(SortByNumber(fs)) && multiset(SortByNumber(fs)) == multiset(fs)
    decreases |fs|
  {
    if fs != [] {
      SortSorts(fs[1..]);
      InsertAdds(fs[0], SortByNumber(fs[1..]));
      InsertAscends(fs[0], SortByNumber(fs[1..]));
      assert fs == [fs[0]] + fs[1..];
    }
  }

  // -------------------------------------------------------------------- items

  datatype Item = Loose(field: Field) | Block(index: nat)

  /** Items for fields in order: a oneof block where its first field stands, other fields by themselves. */
  function ItemsFrom(m: Message, fs: seq<Field>, emitted: set<nat>): seq<Item> {
    if fs == [] then []
    else if !Real(m, fs[0]) then [Loose(fs[0])] + ItemsFrom(m, fs[1..], emitted)
    else if fs[0].oneof.value in emitted then ItemsFrom(m, fs[1..], emitted)
    else [Block(fs[0].oneof.value)] + ItemsFrom(m, fs[1..], emitted + {fs[0].oneof.value})
  }

  function Items(m: Message): seq<Item> {
    ItemsFrom(m, SortByNumber(m.fields), {})
  }

  function FieldLines(fs: seq<Field>, indent: nat, entries: map<string, (string, string)>): seq<Line> {
    if fs == [] then [] else [EmitField(fs[0], indent, true, entries)] + FieldLines(fs[1..], indent, entries)
  }

  function ItemLines(m: Message, item: Item, indent: nat): seq<Line>
    requires item.Block? ==> item.index < |m.oneofs|
  {
    match item
    case Loose(f) => [EmitField(f, indent + 1, false, MapEntries(m.nested))]
    case Block(i) =>
      [OneofOpen(indent + 1, m.oneofs[i])] + FieldLines(InOneof(m.fields, i), indent + 2, MapEntries(m.nested)) + [Close(indent + 1)]
  }

  function AllItemLines(m: Message, items: seq<Item>, indent: nat): seq<Line>
    requires forall i | i in items && i.Block? :: i.index < |m.oneofs|
  {
    if items == [] then [] else ItemLines(m, items[0], indent) + AllItemLines(m, items[1..], indent)
  }

  function EnumLines(e: Enum, indent: nat): seq<Line> {
    [EnumOpen(indent, e.name)] + ValueLines(e.values, indent) + [Close(indent)]
  }

  function ValueLines(vs: seq<(string, int)>, indent: nat): seq<Line> {
    if vs == [] then [] else [EnumValue(indent + 1, vs[0].0, vs[0].1)] + ValueLines(vs[1..], indent)
  }

  function AllEnumLines(es: seq<Enum>, indent: nat): seq<Line> {
    if es == [] then [] else EnumLines(es[0], indent) + AllEnumLines(es[1..], indent)
  }

  /** Printing does not fail: map entries are complete and real oneofs are declared, at every depth printed. */
  predicate Printable(m: Message)
    decreases m, 0
  {
    && (forall f | f in m.fields && Real(m, f) :: f.oneof.value < |m.oneofs|)
    && AllPrintable(m.nested)
  }

  predicate AllPrintable(ms: seq<Message>)
    decreases ms, 2
  {
    forall i | 0 <= i < |ms| :: NestedPrintable(ms[i])
  }

  predicate NestedPrintable(m: Message)
    decreases m, 1
  {
    if m.mapEntry then GoodEntry(m) else Printable(m)
  }

  /** The printed message. */
  function Print(m: Message, indent: nat): seq<Line>
    requires Printable(m)
    decreases m, 1
  {
    BlocksDeclared(m);
    [Open(indent, m.name)] + PrintNested(m.nested, indent + 1) + AllEnumLines(m.enums, indent + 1)
    + AllItemLines(m, Items(m), indent) + [Close(indent)]
  }

  function PrintNested(ms: seq<Message>, indent: nat): seq<Line>
    requires AllPrintable(ms)
    decreases ms, 0
  {
    if ms == [] then [] else PrintOne(ms[0], indent) + PrintNested(ms[1..], indent)
  }

  /** A nested message; map entries are not printed. */
  function PrintOne(m: Message, indent: nat): seq<Line>
    requires NestedPrintable(m)
    decreases m, 2
  {
    if m.mapEntry then [] else Print(m, indent)
  }

  lemma {:induction false} ItemsAreFields(m: Message, fs: seq<Field>, emitted: set<nat>, item: Item)
    requires item in ItemsFrom(m, fs, emitted)
    ensures item.Loose? ==> item.field in fs && !Real(m, item.field)
    ensures item.Block? ==> exists f | f in fs :: Real(m, f) && f.oneof == Some(item.index)
    decreases |fs|
  {
    if fs != [] {
      assert fs[0] in fs;
      var rest := if !Real(m, fs[0]) || fs[0].oneof.value in emitted then emitted else emitted + {fs[0].oneof.value};
      if item in ItemsFrom(m, fs[1..], rest) {
        ItemsAreFields(m, fs[1..], rest, item);
      }
    }
  }

  lemma BlocksDeclared(m: Message)
    requires Printable(m)
    ensures forall i | i in Items(m) && i.Block? :: i.index < |m.oneofs|
  {
    SortSorts(m.fields);
    forall i | i in Items(m) && i.Block? ensures i.index < |m.oneofs| {
      ItemsAreFields(m, SortByNumber(m.fields), {}, i);
      var f :| f in SortByNumber(m.fields) && Real(m, f) && f.oneof == Some(i.index);
      assert f in multiset(SortByNumber(m.fields));
    }
  }

  // ------------------------------------------------ every field, exactly once

  /** The fields an item prints. */
  function FieldsOf(m: Message, item: Item): seq<Field> {
    match item case Loose(f) => [f] case Block(i) => InOneof(m.fields, i)
  }

  function FieldsOfAll(m: Message, items: seq<Item>): seq<Field> {
    if items == [] then [] else FieldsOf(m, items[0]) + FieldsOfAll(m, items[1..])
  }

  lemma {:induction false} InOneofCounts(fs: seq<Field>, i: nat, f: Field)
    ensures multiset(InOneof(fs, i))[f] == if f.oneof == Some(i) then multiset(fs)[f] else 0
    decreases |fs|
  {
    if fs != [] {
      InOneofCounts(fs[1..], i, f);
      assert fs == [fs[0]] + fs[1..];
    }
  }

  /** Each loose field is an item as often as it is a field. */
  lemma {:induction false} LooseCounts(m: Message, fs: seq<Field>, emitted: set<nat>, f: Field)
    ensures multiset(ItemsFrom(m, fs, emitted))[Loose(f)] == if Real(m, f) then 0 else multiset(fs)[f]
    decreases |fs|
  {
    if fs != [] {
      assert fs == [fs[0]] + fs[1..];
      var g := fs[0];
      var rest := if !Real(m, g) || g.oneof.value in emitted then emitted else emitted + {g.oneof.value};
      LooseCounts(m, fs[1..], rest, f);
      var tail := ItemsFrom(m, fs[1..], rest);
      var head := if !Real(m, g) then [Loose(g)] else if g.oneof.value in emitted then [] else [Block(g.oneof.value)];
      assert ItemsFrom(m, fs, emitted) == head + tail;
    }
  }

  /** Each oneof with a field to come is one block. */
  lemma {:induction false} BlockCounts(m: Message, fs: seq<Field>, emitted: set<nat>, i: nat)
    ensures multiset(ItemsFrom(m, fs, emitted))[Block(i)] ==
            if i !in emitted && exists f | f in fs :: Real(m, f) && f.oneof == Some(i) then 1 else 0
    decreases |fs|
  {
    if fs != [] {
      assert fs == [fs[0]] + fs[1..];
      var g := fs[0];
      var rest := if !Real(m, g) || g.oneof.value in emitted then emitted else emitted + {g.oneof.value};
      BlockCounts(m, fs[1..], rest, i);
      var tail := ItemsFrom(m, fs[1..], rest);
      var head := if !Real(m, g) then [Loose(g)] else if g.oneof.value in emitted then [] else [Block(g.oneof.value)];
      assert ItemsFrom(m, fs, emitted) == head + tail;
      assert (exists f | f in fs :: Real(m, f) && f.oneof == Some(i)) <==>
             (Real(m, g) && g.oneof == Some(i)) || (exists f | f in fs[1..] :: Real(m, f) && f.oneof == Some(i)) by {
        assert forall f :: f in fs <==> f == g || f in fs[1..];
      }
    }
  }

  /** How often the items print a field: once for each loose item of it, and by every block of its oneof. */
  function Times(m: Message, items: seq<Item>, f: Field): nat {
    multiset(items)[Loose(f)] + if f.oneof.Some? then multiset(items)[Block(f.oneof.value)] * multiset(m.fields)[f] else 0
  }

  lemma TimesCons(m: Message, head: Item, tail: seq<Item>, f: Field)
    ensures Times(m, [head] + tail, f) == multiset(FieldsOf(m, head))[f] + Times(m, tail, f)
  {
    HeadCounts(m, head, f);
    assert multiset([head] + tail) == multiset{head} + multiset(tail);
    if f.oneof.Some? {
      OneMore(multiset(tail)[Block(f.oneof.value)], multiset(m.fields)[f]);
    }
  }

  lemma {:induction false} FieldCounts(m: Message, items: seq<Item>, f: Field)
    ensures multiset(FieldsOfAll(m, items))[f] == Times(m, items, f)
    decreases |items|
  {
    if items != [] {
      assert items == [items[0]] + items[1..];
      FieldCounts(m, items[1..], f);
      TimesCons(m, items[0], items[1..], f);
    }
  }

  lemma HeadCounts(m: Message, item: Item, f: Field)
    ensures multiset(FieldsOf(m, item))[f] ==
            if item == Loose(f) then 1 else if f.oneof.Some? && item == Block(f.oneof.value) then multiset(m.fields)[f] else 0
  {
    if item.Block? {
      InOneofCounts(m.fields, item.index, f);
    }
  }

  lemma OneMore(n: nat, k: nat)
    ensures (n + 1) * k == n * k + k
  {
  }

  /** The items of a message print every one of its fields exactly once. */
  lemma ItemsPrintEachFieldOnce(m: Message)
    ensures multiset(FieldsOfAll(m, Items(m))) == multiset(m.fields)
  {
    var s := SortByNumber(m.fields);
    SortSorts(m.fields);
    forall f: Field ensures multiset(FieldsOfAll(m, Items(m)))[f] == multiset(m.fields)[f] {
      FieldCounts(m, Items(m), f);
      LooseCounts(m, s, {}, f);
      if f.oneof.Some? {
        BlockCounts(m, s, {}, f.oneof.value);
        if f in m.fields && Real(m, f) {
          assert f in multiset(s);
          assert f in s && f.oneof == Some(f.oneof.value);
        }
      }
    }
  }

  // ------------------------------------------------------------ at every depth

  /** What a text declares: messages by name, fields by name and number. */
  datatype Id = MessageId(name: string) | FieldId(name: string, number: int)

  function Ids(fs: seq<Field>): multiset<Id> {
    if fs == [] then multiset{} else multiset{FieldId(fs[0].name, fs[0].number)} + Ids(fs[1..])
  }

  function ShownBy(line: Line): multiset<Id> {
    match line
    case Open(_, name) => multiset{MessageId(name)}
    case FieldLine(_, _, _, name, number) => multiset{FieldId(name, number)}
    case MapLine(_, _, _, name, number) => multiset{FieldId(name, number)}
    case _ => multiset{}
  }

  /** The messages and fields a text shows. */
  function Shown(ls: seq<Line>): multiset<Id> {
    if ls == [] then multiset{}
    else ShownBy(ls[0]) + Shown(ls[1..])
  }

  /** A message, its fields, and all messages nested in it with theirs, map entries apart. */
  function AllIds(m: Message): multiset<Id>
    decreases m, 1
  {
    multiset{MessageId(m.name)} + Ids(m.fields) + NestedIds(m.nested)
  }

  function NestedIds(ms: seq<Message>): multiset<Id>
    decreases ms, 0
  {
    if ms == [] then multiset{} else (if ms[0].mapEntry then multiset{} else AllIds(ms[0])) + NestedIds(ms[1..])
  }

  lemma {:induction false} ShownAppend(a: seq<Line>, b: seq<Line>)
    ensures Shown(a + b) == Shown(a) + Shown(b)
    decreases |a|
  {
    if a == [] {
      assert a + b == b;
    } else {
      assert (a + b)[1..] == a[1..] + b;
      ShownAppend(a[1..], b);
    }
  }

  lemma {:induction false} IdsAppend(a: seq<Field>, b: seq<Field>)
    ensures Ids(a + b) == Ids(a) + Ids(b)
    decreases |a|
  {
    if a == [] {
      assert a + b == b;
    } else {
      assert (a + b)[1..] == a[1..] + b;
      IdsAppend(a[1..], b);
    }
  }

  lemma {:induction false} IdsRemove(s: seq<Field>, k: nat)
    requires k < |s|
    ensures Ids(s) == Ids(s[..k] + s[k + 1..]) + multiset{FieldId(s[k].name, s[k].number)}
  {
    assert s == s[..k] + ([s[k]] + s[k + 1..]);
    IdsAppend(s[..k], [s[k]] + s[k + 1..]);
    IdsAppend(s[..k], s[k + 1..]);
    assert ([s[k]] + s[k + 1..])[1..] == s[k + 1..];
  }

  lemma Cancel(p: multiset<Field>, q: multiset<Field>, x: Field)
    requires p + multiset{x} == q + multiset{x}
    ensures p == q
  {
    assert p == (p + multiset{x}) - multiset{x};
    assert q == (q + multiset{x}) - multiset{x};
  }

  /** Ids depend on the fields only as a multiset. */
  lemma {:induction false} IdsPermute(a: seq<Field>, b: seq<Field>)
    requires multiset(a) == multiset(b)
    ensures Ids(a) == Ids(b)
    decreases |a|
  {
    if a == [] {
      assert |multiset(b)| == 0;
      assert b == [];
    } else {
      assert a[0] in multiset(b);
      var k :| 0 <= k < |b| && b[k] == a[0];
      var b' := b[..k] + b[k + 1..];
      assert b == b[..k] + [b[k]] + b[k + 1..];
      assert a == [a[0]] + a[1..];
      assert multiset(b) == multiset(b') + multiset{b[k]} by {
        assert multiset(b[..k] + [b[k]] + b[k + 1..]) == multiset(b[..k]) + multiset{b[k]} + multiset(b[k + 1..]);
        assert multiset(b') == multiset(b[..k]) + multiset(b[k + 1..]);
      }
      assert multiset(a) == multiset(a[1..]) + multiset{a[0]} by {
        assert multiset([a[0]] + a[1..]) == multiset{a[0]} + multiset(a[1..]);
      }
      Cancel(multiset(b'), multiset(a[1..]), a[0]);
      IdsPermute(a[1..], b');
      IdsRemove(b, k);
    }
  }

  lemma FieldShows(f: Field, indent: nat, inOneof: bool, entries: map<string, (string, string)>)
    ensures ShownBy(EmitField(f, indent, inOneof, entries)) == multiset{FieldId(f.name, f.number)}
  {
  }

  lemma {:induction false} FieldLinesShow(fs: seq<Field>, indent: nat, entries: map<string, (string, string)>)
    ensures Shown(FieldLines(fs, indent, entries)) == Ids(fs)
    decreases |fs|
  {
    if fs != [] {
      FieldLinesShow(fs[1..], indent, entries);
      FieldShows(fs[0], indent, true, entries);
      assert FieldLines(fs, indent, entries)[1..] == FieldLines(fs[1..], indent, entries);
    }
  }

  lemma OneLineShows(line: Line)
    ensures Shown([line]) == ShownBy(line)
  {
    assert [line][1..] == [];
  }

  lemma OneFieldIs(f: Field)
    ensures Ids([f]) == multiset{FieldId(f.name, f.number)}
  {
    assert [f][1..] == [];
  }

  lemma BlockShows(name: string, body: seq<Line>, indent: nat)
    ensures Shown([OneofOpen(indent + 1, name)] + body + [Close(indent + 1)]) == Shown(body)
  {
    ShownAppend([OneofOpen(indent + 1, name)] + body, [Close(indent + 1)]);
    ShownAppend([OneofOpen(indent + 1, name)], body);
    OneLineShows(OneofOpen(indent + 1, name));
    OneLineShows(Close(indent + 1));
  }

  lemma ItemShows(m: Message, item: Item, indent: nat)
    requires item.Block? ==> item.index < |m.oneofs|
    ensures Shown(ItemLines(m, item, indent)) == Ids(FieldsOf(m, item))
  {
    match item
    case Loose(f) =>
      OneLineShows(EmitField(f, indent + 1, false, MapEntries(m.nested)));
      FieldShows(f, indent + 1, false, MapEntries(m.nested));
      OneFieldIs(f);
    case Block(i) =>
      var body := FieldLines(InOneof(m.fields, i), indent + 2, MapEntries(m.nested));
      FieldLinesShow(InOneof(m.fields, i), indent + 2, MapEntries(m.nested));
      BlockShows(m.oneofs[i], body, indent);
  }

  lemma {:induction false} ItemsShow(m: Message, items: seq<Item>, indent: nat)
    requires forall i | i in items && i.Block? :: i.index < |m.oneofs|
    ensures Shown(AllItemLines(m, items, indent)) == Ids(FieldsOfAll(m, items))
    decreases |items|
  {
    if items != [] {
      assert items[0] in items;
      assert forall i | i in items[1..] :: i in items;
      ItemShows(m, items[0], indent);
      ItemsShow(m, items[1..], indent);
      ShownAppend(ItemLines(m, items[0], indent), AllItemLines(m, items[1..], indent));
      IdsAppend(FieldsOf(m, items[0]), FieldsOfAll(m, items[1..]));
    }
  }

  lemma {:induction false} ValuesShowNothing(vs: seq<(string, int)>, indent: nat)
    ensures Shown(ValueLines(vs, indent)) == multiset{}
    decreases |vs|
  {
    if vs != [] {
      ValuesShowNothing(vs[1..], indent);
      assert ValueLines(vs, indent)[1..] == ValueLines(vs[1..], indent);
    }
  }

  lemma {:induction false} EnumsShowNothing(es: seq<Enum>, indent: nat)
    ensures Shown(AllEnumLines(es, indent)) == multiset{}
    decreases |es|
  {
    if es != [] {
      EnumsShowNothing(es[1..], indent);
      ShownAppend(EnumLines(es[0], indent), AllEnumLines(es[1..], indent));
      ValuesShowNothing(es[0].values, indent);
      ShownAppend([EnumOpen(indent, es[0].name)] + ValueLines(es[0].values, indent), [Close(indent)]);
      ShownAppend([EnumOpen(indent, es[0].name)], ValueLines(es[0].values, indent));
      OneLineShows(EnumOpen(indent, es[0].name));
      OneLineShows(Close(indent));
    }
  }

  /** A printed message shows every message and field, at every nesting depth, exactly once; map entries show nothing. */
  lemma {:induction false} PrintShowsAll(m: Message, indent: nat)
    requires Printable(m)
    ensures Shown(Print(m, indent)) == AllIds(m)
    decreases m, 1
  {
    BlocksDeclared(m);
    var open, nested := [Open(indent, m.name)], PrintNested(m.nested, indent + 1);
    var enums, items := AllEnumLines(m.enums, indent + 1), AllItemLines(m, Items(m), indent);
    ShownAppend(open + nested + enums + items, [Close(indent)]);
    ShownAppend(open + nested + enums, items);
    ShownAppend(open + nested, enums);
    ShownAppend(open, nested);
    OneLineShows(Open(indent, m.name));
    OneLineShows(Close(indent));
    NestedShowAll(m.nested, indent + 1);
    EnumsShowNothing(m.enums, indent + 1);
    ItemsShow(m, Items(m), indent);
    ItemsPrintEachFieldOnce(m);
    IdsPermute(FieldsOfAll(m, Items(m)), m.fields);
  }

  lemma {:induction false} NestedShowAll(ms: seq<Message>, indent: nat)
    requires AllPrintable(ms)
    ensures Shown(PrintNested(ms, indent)) == NestedIds(ms)
    decreases ms, 0
  {
    if ms != [] {
      var head := PrintOne(ms[0], indent);
      if !ms[0].mapEntry {
        PrintShowsAll(ms[0], indent);
      }
      NestedShowAll(ms[1..], indent);
      ShownAppend(head, PrintNested(ms[1..], indent));
    }
  }

  // -------------------------------------------------------------------- order

  /** Where an item stands: a field at its number, a block at the smallest number in it. */
  ghost predicate StandsAt(m: Message, item: Item, n: int) {
    match item
    case Loose(f) => n == f.number
    case Block(i) =>
      && (exists f | f in m.fields :: f.oneof == Some(i) && f.number == n)
      && (forall f | f in m.fields && f.oneof == Some(i) :: n <= f.number)
  }

  /** Items with the numbers they stand at. */
  ghost predicate Placed(m: Message, items: seq<Item>, at: seq<int>) {
    |at| == |items| && forall i | 0 <= i < |items| :: StandsAt(m, items[i], at[i])
  }

  ghost predicate NonDecreasing(at: seq<int>, lo: int) {
    (forall i | 0 <= i < |at| :: lo <= at[i]) && forall i, j | 0 <= i < j < |at| :: at[i] <= at[j]
  }

  lemma {:induction false} PlacesFrom(m: Message, s: seq<Field>, k: nat, emitted: set<nat>) returns (at: seq<int>)
    requires Ascending(s) && multiset(s) == multiset(m.fields) && k <= |s|
    requires forall i | 0 <= i < k && Real(m, s[i]) :: s[i].oneof.value in emitted
    ensures Placed(m, ItemsFrom(m, s[k..], emitted), at)
    ensures NonDecreasing(at, if k < |s| then s[k].number else 0)
    ensures k == |s| ==> at == []
    decreases |s| - k
  {
    if k == |s| {
      at := [];
    } else {
      var f := s[k];
      assert s[k..][1..] == s[k + 1..];
      assert s[k..][0] == f;
      if !Real(m, f) {
        var rest := PlacesFrom(m, s, k + 1, emitted);
        at := [f.number] + rest;
      } else if f.oneof.value in emitted {
        at := PlacesFrom(m, s, k + 1, emitted);
      } else {
        var rest := PlacesFrom(m, s, k + 1, emitted + {f.oneof.value});
        FirstIsLeast(m, s, k, emitted);
        at := [f.number] + rest;
      }
    }
  }

  lemma FirstIsLeast(m: Message, s: seq<Field>, k: nat, emitted: set<nat>)
    requires Ascending(s) && multiset(s) == multiset(m.fields) && k < |s| && Real(m, s[k]) && s[k].oneof.value !in emitted
    requires forall i | 0 <= i < k && Real(m, s[i]) :: s[i].oneof.value in emitted
    ensures StandsAt(m, Block(s[k].oneof.value), s[k].number)
  {
    var f := s[k];
    assert f in multiset(s) && f in m.fields;
    forall g | g in m.fields && g.oneof == f.oneof ensures f.number <= g.number {
      assert g in multiset(s);
      var j :| 0 <= j < |s| && s[j] == g;
      assert j >= k;
    }
  }

  /** Loose fields and blocks come in order of field number, a block at its smallest. */
  lemma ItemsInOrder(m: Message) returns (at: seq<int>)
    ensures Placed(m, Items(m), at)
    ensures forall i, j | 0 <= i < j < |at| :: at[i] <= at[j]
  {
    var s := SortByNumber(m.fields);
    SortSorts(m.fields);
    assert s[0..] == s;
    at := PlacesFrom(m, s, 0, {});
  }

  /** The field of a synthetic oneof is printed by itself, as `optional`. */
  lemma SyntheticIsOptional(m: Message, f: Field, indent: nat)
    requires f in m.fields && f.oneof.Some? && Synthetic(m, f.oneof.value) && f.card == Singular
    ensures Loose(f) in Items(m) && Block(f.oneof.value) !in Items(m)
    ensures ItemLines(m, Loose(f), indent) == [FieldLine(indent + 1, "optional ", TypeText(f), f.name, f.number)]
  {
    SyntheticIsLoose(m, f);
    SyntheticField(m.fields, f.oneof.value, f);
  }

  lemma SyntheticIsLoose(m: Message, f: Field)
    requires f in m.fields && f.oneof.Some? && Synthetic(m, f.oneof.value)
    ensures Loose(f) in Items(m) && Block(f.oneof.value) !in Items(m)
  {
    var s, i := SortByNumber(m.fields), f.oneof.value;
    SortSorts(m.fields);
    assert f in multiset(m.fields);
    LooseCounts(m, s, {}, f);
    assert multiset(Items(m))[Loose(f)] > 0;
    BlockCounts(m, s, {}, i);
    assert multiset(Items(m))[Block(i)] == 0;
  }

  lemma SyntheticField(fs: seq<Field>, i: nat, f: Field)
    requires f in fs && f.oneof == Some(i) && |InOneof(fs, i)| == 1 && InOneof(fs, i)[0].proto3Optional
    ensures f.proto3Optional
  {
    InOneofCounts(fs, i, f);
    assert f in multiset(fs);
    assert f in multiset(InOneof(fs, i));
    assert InOneof(fs, i)[0] == f;
  }

  // --------------------------------------------------------------- map fields

  /** Entry `i` is the last usable map entry of its name. */
  predicate LastEntry(nested: seq<Message>, i: nat)
    requires i < |nested|
  {
    && nested[i].mapEntry && GoodEntry(nested[i])
    && forall j | i < j < |nested| && nested[j].mapEntry && GoodEntry(nested[j]) :: nested[j].name != nested[i].name
  }

  predicate NamesEntry(nested: seq<Message>, name: string) {
    exists i | 0 <= i < |nested| :: LastEntry(nested, i) && nested[i].name == name
  }

  /** The entries are indexed by name, with the types of the last entry of that name. */
  lemma {:induction false} EntriesAre(nested: seq<Message>, name: string)
    ensures name in MapEntries(nested) <==> NamesEntry(nested, name)
    ensures forall i | 0 <= i < |nested| && LastEntry(nested, i) && nested[i].name == name ::
              name in MapEntries(nested) && MapEntries(nested)[name] == EntryTypes(nested[i])
    decreases |nested|
  {
    if nested != [] {
      var n := |nested| - 1;
      var before := nested[..n];
      EntriesAre(before, name);
      if nested[n].mapEntry && GoodEntry(nested[n]) && nested[n].name == name {
        assert LastEntry(nested, n);
      } else {
        forall i | 0 <= i < n ensures nested[i].name == name ==> (LastEntry(nested, i) <==> LastEntry(before, i)) {
          assert before[i] == nested[i];
        }
      }
    }
  }

  function EntryTypes(e: Message): (string, string)
    requires GoodEntry(e)
  {
    (TypeText(Named(e.fields, "key").value), TypeText(Named(e.fields, "value").value))
  }

  /** A field is printed as a map exactly when it is repeated and the last part of its type name names an entry. */
  lemma MapLineExactly(f: Field, indent: nat, inOneof: bool, nested: seq<Message>)
    ensures EmitField(f, indent, inOneof, MapEntries(nested)).MapLine? <==>
            f.card == Repeated && f.typeName != "" && NamesEntry(nested, LastSegment(f.typeName))
    ensures forall i | 0 <= i < |nested| && LastEntry(nested, i) && nested[i].name == LastSegment(f.typeName)
                       && f.card == Repeated && f.typeName != "" ::
              EmitField(f, indent, inOneof, MapEntries(nested)) ==
              MapLine(indent, EntryTypes(nested[i]).0, EntryTypes(nested[i]).1, f.name, f.number)
  {
    EntriesAre(nested, LastSegment(f.typeName));
  }

  lemma {:induction false} LastOf(prefix: string, name: string)
    requires '.' !in name
    ensures LastSegment(prefix + "." + name) == name
    decreases |name|
  {
    var s := prefix + "." + name;
    if name == "" {
      assert s == prefix + ".";
    } else {
      var n := |name| - 1;
      assert s[..|s| - 1] == prefix + "." + name[..n];
      assert s[|s| - 1] == name[n] && name[n] in name;
      LastOf(prefix, name[..n]);
      assert name == name[..n] + [name[n]];
    }
  }

  /** The field is a map field of the message called `full`: its type is an entry nested there. */
  predicate IsMap(full: string, nested: seq<Message>, f: Field) {
    f.card == Repeated && exists i | 0 <= i < |nested| :: LastEntry(nested, i) && f.typeName == full + "." + nested[i].name
  }

  /** A repeated field of another type whose simple name is that of an entry. */
  predicate Lookalike(full: string, nested: seq<Message>, f: Field) {
    && f.card == Repeated && f.typeName != "" && NamesEntry(nested, LastSegment(f.typeName))
    && f.typeName != full + "." + LastSegment(f.typeName)
  }

  /** Only map fields are printed as maps, exactly unless the field is such a lookalike; map fields always are. */
  lemma PrintedAsMap(full: string, nested: seq<Message>, f: Field, indent: nat, inOneof: bool)
    requires forall i | 0 <= i < |nested| :: '.' !in nested[i].name
    ensures IsMap(full, nested, f) ==> EmitField(f, indent, inOneof, MapEntries(nested)).MapLine?
    ensures (EmitField(f, indent, inOneof, MapEntries(nested)).MapLine? <==> IsMap(full, nested, f)) <==> !Lookalike(full, nested, f)
  {
    MapLineExactly(f, indent, inOneof, nested);
    if IsMap(full, nested, f) {
      var i :| 0 <= i < |nested| && LastEntry(nested, i) && f.typeName == full + "." + nested[i].name;
      LastOf(full, nested[i].name);
    }
  }

  /** A lookalike: a repeated field of `.other.TagsEntry` beside a map entry of the message's own called `TagsEntry`. */
  lemma ForeignTypePrintedAsMap(entry: Message, indent: nat)
    requires entry.mapEntry && GoodEntry(entry) && entry.name == "TagsEntry"
    ensures var f := Field("rows", 1, Repeated, ".other.TagsEntry", "", false, None);
            !IsMap(".pkg.Doc", [entry], f) && EmitField(f, indent, false, MapEntries([entry])).MapLine?
  {
    var f := Field("rows", 1, Repeated, ".other.TagsEntry", "", false, None);
    LastOf(".other", "TagsEntry");
    assert ".other" + "." + "TagsEntry" == ".other.TagsEntry";
    assert LastEntry([entry], 0);
    MapLineExactly(f, indent, false, [entry]);
    assert f.typeName[1] == 'o' && (".pkg.Doc" + "." + "TagsEntry")[1] == 'p';
  }

  // ------------------------------------------------- the printer, as written

  lemma {:induction false} NestedSnoc(ms: seq<Message>, m: Message, indent: nat)
    requires NestedPrintable(m) && AllPrintable(ms)
    ensures PrintNested(ms + [m], indent) == PrintNested(ms, indent) + PrintOne(m, indent)
    decreases |ms|
  {
    if ms == [] {
      assert (ms + [m])[1..] == [];
    } else {
      assert (ms + [m])[1..] == ms[1..] + [m];
      NestedSnoc(ms[1..], m, indent);
    }
  }

  lemma {:induction false} EnumsSnoc(es: seq<Enum>, e: Enum, indent: nat)
    ensures AllEnumLines(es + [e], indent) == AllEnumLines(es, indent) + EnumLines(e, indent)
    decreases |es|
  {
    if es == [] {
      assert (es + [e])[1..] == [];
    } else {
      assert (es + [e])[1..] == es[1..] + [e];
      EnumsSnoc(es[1..], e, indent);
    }
  }

  lemma {:induction false} InOneofSnoc(fs: seq<Field>, f: Field, i: nat)
    ensures InOneof(fs + [f], i) == InOneof(fs, i) + (if f.oneof == Some(i) then [f] else [])
    decreases |fs|
  {
    if fs == [] {
      assert (fs + [f])[1..] == [];
    } else {
      var head, last := if fs[0].oneof == Some(i) then [fs[0]] else [], if f.oneof == Some(i) then [f] else [];
      assert (fs + [f])[1..] == fs[1..] + [f];
      assert InOneof(fs + [f], i) == head + InOneof(fs[1..] + [f], i);
      InOneofSnoc(fs[1..], f, i);
      assert head + (InOneof(fs[1..], i) + last) == head + InOneof(fs[1..], i) + last;
    }
  }

  lemma {:induction false} FieldLinesSnoc(fs: seq<Field>, f: Field, indent: nat, entries: map<string, (string, string)>)
    ensures FieldLines(fs + [f], indent, entries) == FieldLines(fs, indent, entries) + [EmitField(f, indent, true, entries)]
    decreases |fs|
  {
    if fs == [] {
      assert (fs + [f])[1..] == [];
    } else {
      assert (fs + [f])[1..] == fs[1..] + [f];
      FieldLinesSnoc(fs[1..], f, indent, entries);
    }
  }

  lemma {:induction false} ItemLinesSnoc(m: Message, items: seq<Item>, item: Item, indent: nat)
    requires forall i | i in items + [item] && i.Block? :: i.index < |m.oneofs|
    ensures forall i | i in items && i.Block? :: i.index < |m.oneofs|
    ensures item.Block? ==> item.index < |m.oneofs|
    ensures AllItemLines(m, items + [item], indent) == AllItemLines(m, items, indent) + ItemLines(m, item, indent)
    decreases |items|
  {
    assert forall i | i in items :: i in items + [item];
    assert item in items + [item];
    if items == [] {
      assert (items + [item])[1..] == [];
    } else {
      assert (items + [item])[1..] == items[1..] + [item];
      assert forall i | i in items[1..] + [item] :: i in items + [item];
      ItemLinesSnoc(m, items[1..], item, indent);
    }
  }

  /** The first loop: key and value types of the map entries, or None when one is incomplete. */
  method CollectEntries(nested: seq<Message>) returns (r: Option<map<string, (string, string)>>)
    ensures r.Some? <==> forall i | 0 <= i < |nested| && nested[i].mapEntry :: GoodEntry(nested[i])
    ensures r.Some? ==> r.value == MapEntries(nested)
  {
    var entries := map[];
    for i := 0 to |nested|
      invariant entries == MapEntries(nested[..i])
      invariant forall j | 0 <= j < i && nested[j].mapEntry :: GoodEntry(nested[j])
    {
      assert nested[..i + 1][..i] == nested[..i];
      var m := nested[i];
      if m.mapEntry {
        var key, value := Named(m.fields, "key"), Named(m.fields, "value");
        if key.None? || value.None? {
          return None;
        }
        entries := entries[m.name := (TypeText(key.value), TypeText(value.value))];
      }
    }
    assert nested[..|nested|] == nested;
    r := Some(entries);
  }

  /** The groups after some of the fields: one for each real oneof seen, holding its fields so far. */
  ghost predicate Grouped(m: Message, fs: seq<Field>, groups: map<nat, seq<Field>>) {
    forall i: nat :: if i in groups then !Synthetic(m, i) && groups[i] == InOneof(fs, i)
                     else Synthetic(m, i) || InOneof(fs, i) == []
  }

  lemma GroupMore(m: Message, fs: seq<Field>, f: Field, groups: map<nat, seq<Field>>)
    requires Grouped(m, fs, groups)
    ensures Grouped(m, fs + [f],
              if Real(m, f) then groups[f.oneof.value := (if f.oneof.value in groups then groups[f.oneof.value] else []) + [f]]
              else groups)
  {
    forall i: nat ensures InOneof(fs + [f], i) == InOneof(fs, i) + (if f.oneof == Some(i) then [f] else []) {
      InOneofSnoc(fs, f, i);
    }
  }

  lemma {:induction false} SomeInOneof(fs: seq<Field>, f: Field, i: nat)
    requires f in fs && f.oneof == Some(i)
    ensures InOneof(fs, i) != []
  {
    InOneofCounts(fs, i, f);
    assert f in multiset(fs);
  }

  /** The fields of each real oneof, grouped in declaration order. */
  method GroupOneofs(m: Message) returns (groups: map<nat, seq<Field>>)
    ensures forall f | f in m.fields && Real(m, f) :: f.oneof.value in groups
    ensures forall i | i in groups :: groups[i] == InOneof(m.fields, i)
  {
    groups := map[];
    for k := 0 to |m.fields|
      invariant Grouped(m, m.fields[..k], groups)
    {
      var f := m.fields[k];
      assert m.fields[..k + 1] == m.fields[..k] + [f];
      GroupMore(m, m.fields[..k], f, groups);
      if Real(m, f) {
        var i := f.oneof.value;
        groups := groups[i := (if i in groups then groups[i] else []) + [f]];
      }
    }
    assert m.fields[..|m.fields|] == m.fields;
    forall f | f in m.fields && Real(m, f) ensures f.oneof.value in groups {
      SomeInOneof(m.fields, f, f.oneof.value);
    }
  }

  lemma ItemsStep(m: Message, s: seq<Field>, k: nat, emitted: set<nat>)
    requires k < |s|
    ensures ItemsFrom(m, s[k..], emitted) ==
            if !Real(m, s[k]) then [Loose(s[k])] + ItemsFrom(m, s[k + 1..], emitted)
            else if s[k].oneof.value in emitted then ItemsFrom(m, s[k + 1..], emitted)
            else [Block(s[k].oneof.value)] + ItemsFrom(m, s[k + 1..], emitted + {s[k].oneof.value})
  {
    assert s[k..][1..] == s[k + 1..] && s[k..][0] == s[k];
  }

  /** The items, with each oneof entered where its first field by number stands. */
  method BuildItems(m: Message) returns (items: seq<Item>)
    ensures items == Items(m)
  {
    items := Interleave(m, SortByNumber(m.fields));
  }

  method Interleave(m: Message, sorted: seq<Field>) returns (items: seq<Item>)
    ensures items == ItemsFrom(m, sorted, {})
  {
    ghost var all := ItemsFrom(m, sorted, {});
    var emitted: set<nat> := {};
    items := [];
    assert sorted[0..] == sorted;
    for k := 0 to |sorted|
      invariant items + ItemsFrom(m, sorted[k..], emitted) == all
    {
      ItemsStep(m, sorted, k, emitted);
      var inBlock := Real(m, sorted[k]);
      if inBlock {
        var i := sorted[k].oneof.value;
        if i !in emitted {
          Reassociate(items, Block(i), ItemsFrom(m, sorted[k + 1..], emitted + {i}));
          items := items + [Block(i)];
          emitted := emitted + {i};
        }
      } else {
        Reassociate(items, Loose(sorted[k]), ItemsFrom(m, sorted[k + 1..], emitted));
        items := items + [Loose(sorted[k])];
      }
    }
    assert sorted[|sorted|..] == [];
    assert items + [] == items;
  }

  lemma Reassociate(a: seq<Item>, x: Item, b: seq<Item>)
    ensures a + ([x] + b) == (a + [x]) + b
  {
  }

  /** The lines of one oneof block. */
  method EmitBlock(fs: seq<Field>, indent: nat, entries: map<string, (string, string)>) returns (lines: seq<Line>)
    ensures lines == FieldLines(fs, indent, entries)
  {
    lines := [];
    for k := 0 to |fs|
      invariant lines == FieldLines(fs[..k], indent, entries)
    {
      assert fs[..k + 1] == fs[..k] + [fs[k]];
      FieldLinesSnoc(fs[..k], fs[k], indent, entries);
      lines := lines + [EmitField(fs[k], indent, true, entries)];
    }
    assert fs[..|fs|] == fs;
  }

  method EmitItems(m: Message, items: seq<Item>, groups: map<nat, seq<Field>>, entries: map<string, (string, string)>, indent: nat)
    returns (lines: seq<Line>)
    requires entries == MapEntries(m.nested)
    requires forall i | i in items && i.Block? :: i.index < |m.oneofs| && i.index in groups && groups[i.index] == InOneof(m.fields, i.index)
    ensures lines == AllItemLines(m, items, indent)
  {
    lines := [];
    for k := 0 to |items|
      invariant forall i | i in items[..k] && i.Block? :: i.index < |m.oneofs|
      invariant lines == AllItemLines(m, items[..k], indent)
    {
      assert items[k] in items;
      assert items[..k + 1] == items[..k] + [items[k]];
      ItemLinesSnoc(m, items[..k], items[k], indent);
      match items[k]
      case Loose(f) => lines := lines + [EmitField(f, indent + 1, false, entries)];
      case Block(i) =>
        var body := EmitBlock(groups[i], indent + 2, entries);
        lines := lines + ([OneofOpen(indent + 1, m.oneofs[i])] + body + [Close(indent + 1)]);
    }
    assert items[..|items|] == items;
  }

  method EmitEnums(es: seq<Enum>, indent: nat) returns (lines: seq<Line>)
    ensures lines == AllEnumLines(es, indent)
  {
    lines := [];
    for k := 0 to |es|
      invariant lines == AllEnumLines(es[..k], indent)
    {
      assert es[..k + 1] == es[..k] + [es[k]];
      EnumsSnoc(es[..k], es[k], indent);
      lines := lines + EnumLines(es[k], indent);
    }
    assert es[..|es|] == es;
  }

  /** Prints a message; None stands for the exception raised on a descriptor that is not printable. */
  method EmitMessage(m: Message, indent: nat) returns (r: Option<seq<Line>>)
    ensures r.Some? <==> Printable(m)
    ensures r.Some? ==> r.value == Print(m, indent)
    decreases m, 1
  {
    var entries := CollectEntries(m.nested);
    if entries.None? {
      assert exists i | 0 <= i < |m.nested| :: !NestedPrintable(m.nested[i]);
      return None;
    }
    var nested := EmitNested(m.nested, indent + 1);
    if nested.None? { return None; }
    var enums := EmitEnums(m.enums, indent + 1);
    var groups := GroupOneofs(m);
    var items := BuildItems(m);
    if f :| f in m.fields && Real(m, f) && f.oneof.value >= |m.oneofs| {
      return None;
    }
    assert Printable(m);
    BlocksDeclared(m);
    forall i | i in items && i.Block? ensures i.index in groups {
      SortSorts(m.fields);
      ItemsAreFields(m, SortByNumber(m.fields), {}, i);
      var f :| f in SortByNumber(m.fields) && Real(m, f) && f.oneof == Some(i.index);
      assert f in multiset(m.fields);
    }
    var body := EmitItems(m, items, groups, entries.value, indent);
    r := Some([Open(indent, m.name)] + nested.value + enums + body + [Close(indent)]);
  }

  method EmitNested(ms: seq<Message>, indent: nat) returns (r: Option<seq<Line>>)
    requires forall i | 0 <= i < |ms| && ms[i].mapEntry :: GoodEntry(ms[i])
    ensures r.Some? <==> AllPrintable(ms)
    ensures r.Some? ==> r.value == PrintNested(ms, indent)
    decreases ms, 0
  {
    var lines: seq<Line> := [];
    for k := 0 to |ms|
      invariant AllPrintable(ms[..k]) && lines == PrintNested(ms[..k], indent)
    {
      assert ms[..k + 1] == ms[..k] + [ms[k]];
      if !ms[k].mapEntry {
        var one := EmitMessage(ms[k], indent);
        if one.None? {
          return None;
        }
        lines := lines + one.value;
      }
      NestedSnoc(ms[..k], ms[k], indent);
    }
    assert ms[..|ms|] == ms;
    r := Some(lines);
  }
}
