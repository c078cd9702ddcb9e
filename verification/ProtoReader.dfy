/**
  Reading printed lines back by their braces, indentation, labels and types: each message gets
  its own nested messages, enums, oneof blocks and fields, and each field what it declares.
*/
module ProtoReader {
  import opened Json
  import opened ProtoPrinter

  datatype Label = Plain | RepeatedLabel | OptionalLabel

  /** A field as read. */
  datatype Shape =
    | Shape(name: string, number: int, kind: Label, typ: string)
    | MapShape(name: string, number: int, key: string, value: string)

  /** A field by itself, or a oneof block with its fields. */
  datatype Entry = Alone(shape: Shape) | Group(name: string, shapes: seq<Shape>)

  /** A message as read: what stands between its braces, not between those of a message inside it. */
  datatype Tree = Tree(name: string, body: Body)

  /** `fields` counts the fields of the entries, those in blocks too. */
  datatype Body = Body(kids: seq<Tree>, enums: seq<Enum>, entries: seq<Entry>, fields: multiset<Id>)

  /** What a reader returns: a value and the lines after it. */
  datatype Result<T> = Stuck | Read(value: T, rest: seq<Line>)

  const NO_BODY := Body([], [], [], multiset{})

  function Join(a: Body, b: Body): Body {
    Body(a.kids + b.kids, a.enums + b.enums, a.entries + b.entries, a.fields + b.fields)
  }

  /** Something read in front of a body. */
  function Merge(a: Body, r: Result<Body>): Result<Body> {
    match r case Stuck => Stuck case Read(b, rest) => Read(Join(a, b), rest)
  }

  function KidBody(ts: seq<Tree>): Body {
    Body(ts, [], [], multiset{})
  }

  function EnumBody(es: seq<Enum>): Body {
    Body([], es, [], multiset{})
  }

  function EntryBody(e: Entry): Body {
    Body([], [], [e], Bag(if e.Alone? then [e.shape] else e.shapes))
  }

  // ----------------------------------------------------------------- the reader

  function ReadLabel(prefix: string): Option<Label> {
    if prefix == "" then Some(Plain)
    else if prefix == "repeated " then Some(RepeatedLabel)
    else if prefix == "optional " then Some(OptionalLabel)
    else None
  }

  /** A field line at the depth expected. */
  function ReadShape(line: Line, depth: nat): Option<Shape> {
    match line
    case FieldLine(d, prefix, typ, name, number) =>
      if d == depth && ReadLabel(prefix).Some? then Some(Shape(name, number, ReadLabel(prefix).value, typ)) else None
    case MapLine(d, key, value, name, number) => if d == depth then Some(MapShape(name, number, key, value)) else None
    case _ => None
  }

  /** Fields at `depth` up to a closing brace one level out. */
  function ReadFields(ls: seq<Line>, depth: nat): (r: Result<seq<Shape>>)
    ensures r.Read? ==> |r.rest| < |ls|
  {
    if ls == [] then Stuck
    else if ls[0].Close? then (if ls[0].indent + 1 == depth then Read([], ls[1..]) else Stuck)
    else if ReadShape(ls[0], depth).Some? then
      match ReadFields(ls[1..], depth)
      case Stuck => Stuck
      case Read(ss, rest) => Read([ReadShape(ls[0], depth).value] + ss, rest)
    else Stuck
  }

  function ReadValues(ls: seq<Line>, depth: nat): (r: Result<seq<(string, int)>>)
    ensures r.Read? ==> |r.rest| < |ls|
  {
    if ls == [] then Stuck
    else if ls[0].Close? then (if ls[0].indent + 1 == depth then Read([], ls[1..]) else Stuck)
    else if ls[0].EnumValue? && ls[0].indent == depth then
      match ReadValues(ls[1..], depth)
      case Stuck => Stuck
      case Read(vs, rest) => Read([(ls[0].name, ls[0].number)] + vs, rest)
    else Stuck
  }

  function IdOf(s: Shape): Id {
    FieldId(s.name, s.number)
  }

  function Bag(ss: seq<Shape>): multiset<Id> {
    if ss == [] then multiset{} else multiset{IdOf(ss[0])} + Bag(ss[1..])
  }

  /** The lines of a message at `depth`, up to its closing brace one level out. */
  function ReadBody(ls: seq<Line>, depth: nat): (r: Result<Body>)
    ensures r.Read? ==> |r.rest| < |ls|
    decreases |ls|
  {
    if ls == [] then Stuck
    else
      match ls[0]
      case Close(d) => if d + 1 == depth then Read(NO_BODY, ls[1..]) else Stuck
      case Open(d, name) =>
        if d != depth then Stuck
        else
          (match ReadBody(ls[1..], depth + 1)
           case Stuck => Stuck
           case Read(b, rest) => Merge(KidBody([Tree(name, b)]), ReadBody(rest, depth)))
      case EnumOpen(d, name) =>
        if d != depth then Stuck
        else
          (match ReadValues(ls[1..], depth + 1)
           case Stuck => Stuck
           case Read(vs, rest) => Merge(EnumBody([Enum(name, vs)]), ReadBody(rest, depth)))
      case OneofOpen(d, name) =>
        if d != depth then Stuck
        else
          (match ReadFields(ls[1..], depth + 1)
           case Stuck => Stuck
           case Read(ss, rest) => Merge(EntryBody(Group(name, ss)), ReadBody(rest, depth)))
      case _ =>
        var s := ReadShape(ls[0], depth);
        if s.None? then Stuck else Merge(EntryBody(Alone(s.value)), ReadBody(ls[1..], depth))
  }

  /** A whole text: one message at `indent` and nothing after it. */
  function ReadMessage(ls: seq<Line>, indent: nat): Option<Tree> {
    if ls == [] || !ls[0].Open? || ls[0].indent != indent then None
    else
      match ReadBody(ls[1..], indent + 1)
      case Stuck => None
      case Read(b, rest) => if rest == [] then Some(Tree(ls[0].name, b)) else None
  }

  // -------------------------------------------------------- what should be read

  /** The printed type of a field: the scalar type, or the type name without its leading dots. */
  ghost predicate TypeIs(typ: string, f: Field) {
    if f.typeName == "" then typ == f.scalar
    else
      && (typ == "" || typ[0] != '.')
      && exists n | 0 <= n <= |f.typeName| :: f.typeName[n..] == typ && forall i | 0 <= i < n :: f.typeName[i] == '.'
  }

  /** `e` declares `f` under `name`, as the first field so called. */
  ghost predicate Declares(e: Message, name: string, f: Field) {
    exists i | 0 <= i < |e.fields| :: e.fields[i] == f && f.name == name && forall j | 0 <= j < i :: e.fields[j].name != name
  }

  /** What a field must look like, from what it declares. */
  ghost predicate Describes(s: Shape, nested: seq<Message>, f: Field, inOneof: bool) {
    && s.name == f.name && s.number == f.number
    && if f.card == Repeated && f.typeName != "" && NamesEntry(nested, LastSegment(f.typeName)) then
         s.MapShape? && MapTypes(s.key, s.value, nested, LastSegment(f.typeName))
       else
         && s.Shape? && TypeIs(s.typ, f)
         && s.kind == if f.card == Repeated then RepeatedLabel else if f.proto3Optional && !inOneof then OptionalLabel else Plain
  }

  /** The key and value types are those of the last map entry called `name`. */
  ghost predicate MapTypes(key: string, value: string, nested: seq<Message>, name: string) {
    exists i, k, v | 0 <= i < |nested| ::
      LastEntry(nested, i) && nested[i].name == name && Declares(nested[i], "key", k) && Declares(nested[i], "value", v)
      && TypeIs(key, k) && TypeIs(value, v)
  }

  ghost predicate EntryMatches(e: Entry, m: Message, item: Item) {
    match item
    case Loose(f) => e.Alone? && Describes(e.shape, m.nested, f, false)
    case Block(i) =>
      && i < |m.oneofs| && e.Group? && e.name == m.oneofs[i]
      && |e.shapes| == |InOneof(m.fields, i)|
      && forall j | 0 <= j < |e.shapes| :: Describes(e.shapes[j], m.nested, InOneof(m.fields, i)[j], true)
  }

  ghost predicate EntriesMatch(es: seq<Entry>, m: Message, items: seq<Item>) {
    |es| == |items| && forall i | 0 <= i < |es| :: EntryMatches(es[i], m, items[i])
  }

  /** A message as read is the message: its own content and, nested in it, its messages that are no map entries. */
  ghost predicate Matches(tree: Tree, m: Message)
    decreases m, 1
  {
    && tree.name == m.name && tree.body.enums == m.enums
    && tree.body.fields == Ids(m.fields)
    && EntriesMatch(tree.body.entries, m, Items(m))
    && AllMatch(tree.body.kids, m.nested)
  }

  ghost predicate AllMatch(ts: seq<Tree>, ms: seq<Message>)
    decreases ms, 0
  {
    if ms == [] then ts == []
    else if ms[0].mapEntry then AllMatch(ts, ms[1..])
    else ts != [] && Matches(ts[0], ms[0]) && AllMatch(ts[1..], ms[1..])
  }

  // ----------------------------------------------------------- fields and types

  lemma {:induction false} StripDots(s: string)
    ensures var t := LstripDots(s);
            && (t == "" || t[0] != '.') && |t| <= |s|
            && s[|s| - |t|..] == t && forall i | 0 <= i < |s| - |t| :: s[i] == '.'
    decreases |s|
  {
    if s != "" && s[0] == '.' {
      StripDots(s[1..]);
      var t := LstripDots(s[1..]);
      assert s[|s| - |t|..] == s[1..][|s| - 1 - |t|..];
      forall i | 0 <= i < |s| - |t| ensures s[i] == '.' {
        if i > 0 {
          assert s[i] == s[1..][i - 1];
        }
      }
    }
  }

  lemma PrintedType(f: Field)
    ensures TypeIs(TypeText(f), f)
  {
    if f.typeName != "" {
      StripDots(f.typeName);
    }
  }

  lemma {:induction false} NamedDeclares(fs: seq<Field>, name: string)
    ensures Named(fs, name).Some? ==>
              exists i | 0 <= i < |fs| :: fs[i] == Named(fs, name).value && fs[i].name == name && forall j | 0 <= j < i :: fs[j].name != name
    decreases |fs|
  {
    if fs != [] && fs[0].name != name && Named(fs, name).Some? {
      NamedDeclares(fs[1..], name);
      var i :| 0 <= i < |fs[1..]| && fs[1..][i] == Named(fs[1..], name).value && fs[1..][i].name == name
               && forall j | 0 <= j < i :: fs[1..][j].name != name;
      assert fs[i + 1] == Named(fs, name).value;
      forall j | 0 <= j < i + 1 ensures fs[j].name != name {
        if j > 0 {
          assert fs[j] == fs[1..][j - 1];
        }
      }
    }
  }

  lemma EntryDeclares(e: Message)
    requires GoodEntry(e)
    ensures Declares(e, "key", Named(e.fields, "key").value) && Declares(e, "value", Named(e.fields, "value").value)
  {
    NamedDeclares(e.fields, "key");
    NamedDeclares(e.fields, "value");
  }

  /** What the reader makes of a field's line. */
  function ShapeOf(f: Field, inOneof: bool, entries: map<string, (string, string)>): Shape {
    match EmitField(f, 0, inOneof, entries)
    case MapLine(_, key, value, name, number) => MapShape(name, number, key, value)
    case FieldLine(_, prefix, typ, name, number) =>
      Shape(name, number, if ReadLabel(prefix).Some? then ReadLabel(prefix).value else Plain, typ)
    case _ => Shape("", 0, Plain, "")
  }

  lemma ShapeRead(f: Field, depth: nat, inOneof: bool, entries: map<string, (string, string)>)
    ensures ReadShape(EmitField(f, depth, inOneof, entries), depth) == Some(ShapeOf(f, inOneof, entries))
    ensures IdOf(ShapeOf(f, inOneof, entries)) == FieldId(f.name, f.number)
  {
  }

  lemma MapDescribes(nested: seq<Message>, name: string)
    requires NamesEntry(nested, name)
    ensures name in MapEntries(nested) && MapTypes(MapEntries(nested)[name].0, MapEntries(nested)[name].1, nested, name)
  {
    EntriesAre(nested, name);
    var i :| 0 <= i < |nested| && LastEntry(nested, i) && nested[i].name == name;
    EntryDeclares(nested[i]);
    var k, v := Named(nested[i].fields, "key").value, Named(nested[i].fields, "value").value;
    PrintedType(k);
    PrintedType(v);
    assert MapTypes(TypeText(k), TypeText(v), nested, name);
  }

  lemma ShapeDescribes(f: Field, inOneof: bool, nested: seq<Message>)
    ensures Describes(ShapeOf(f, inOneof, MapEntries(nested)), nested, f, inOneof)
  {
    var name := LastSegment(f.typeName);
    EntriesAre(nested, name);
    if f.card == Repeated && f.typeName != "" && NamesEntry(nested, name) {
      MapDescribes(nested, name);
    } else {
      PrintedType(f);
    }
  }

  function Shapes(fs: seq<Field>, entries: map<string, (string, string)>): seq<Shape> {
    if fs == [] then [] else [ShapeOf(fs[0], true, entries)] + Shapes(fs[1..], entries)
  }

  lemma {:induction false} ShapesDescribe(fs: seq<Field>, nested: seq<Message>)
    ensures var ss := Shapes(fs, MapEntries(nested));
            |ss| == |fs| && forall j | 0 <= j < |ss| :: Describes(ss[j], nested, fs[j], true)
    decreases |fs|
  {
    if fs != [] {
      ShapeDescribes(fs[0], true, nested);
      ShapesDescribe(fs[1..], nested);
    }
  }

  lemma {:induction false} BagOfShapes(fs: seq<Field>, entries: map<string, (string, string)>)
    ensures Bag(Shapes(fs, entries)) == Ids(fs)
    decreases |fs|
  {
    if fs != [] {
      BagOfShapes(fs[1..], entries);
      ShapeRead(fs[0], 0, true, entries);
    }
  }

  // ------------------------------------------------------------ the tree, computed

  function EntryOf(m: Message, item: Item): Entry
    requires item.Block? ==> item.index < |m.oneofs|
  {
    match item
    case Loose(f) => Alone(ShapeOf(f, false, MapEntries(m.nested)))
    case Block(i) => Group(m.oneofs[i], Shapes(InOneof(m.fields, i), MapEntries(m.nested)))
  }

  function Entries(m: Message, items: seq<Item>): seq<Entry>
    requires forall i | i in items && i.Block? :: i.index < |m.oneofs|
  {
    if items == [] then [] else [EntryOf(m, items[0])] + Entries(m, items[1..])
  }

  function TreeOf(m: Message): Tree
    requires Printable(m)
    decreases m, 1
  {
    BlocksDeclared(m);
    Tree(m.name, Body(Kids(m.nested), m.enums, Entries(m, Items(m)), Ids(m.fields)))
  }

  function Kids(ms: seq<Message>): seq<Tree>
    requires AllPrintable(ms)
    decreases ms, 0
  {
    if ms == [] then [] else KidOf(ms[0]) + Kids(ms[1..])
  }

  function KidOf(m: Message): seq<Tree>
    requires NestedPrintable(m)
    decreases m, 2
  {
    if m.mapEntry then [] else [TreeOf(m)]
  }

  lemma EntryDescribes(m: Message, item: Item)
    requires item.Block? ==> item.index < |m.oneofs|
    ensures EntryMatches(EntryOf(m, item), m, item)
  {
    match item
    case Loose(f) => ShapeDescribes(f, false, m.nested);
    case Block(i) => ShapesDescribe(InOneof(m.fields, i), m.nested);
  }

  lemma {:induction false} EntriesDescribe(m: Message, items: seq<Item>)
    requires forall i | i in items && i.Block? :: i.index < |m.oneofs|
    ensures EntriesMatch(Entries(m, items), m, items)
    decreases |items|
  {
    if items != [] {
      assert items[0] in items;
      assert forall i | i in items[1..] :: i in items;
      EntryDescribes(m, items[0]);
      EntriesDescribe(m, items[1..]);
    }
  }

  lemma TreeIs(m: Message)
    requires Printable(m)
    ensures forall i | i in Items(m) && i.Block? :: i.index < |m.oneofs|
    ensures TreeOf(m) == Tree(m.name, Body(Kids(m.nested), m.enums, Entries(m, Items(m)), Ids(m.fields)))
  {
    BlocksDeclared(m);
  }

  /** The computed tree is the message. */
  lemma {:induction false} TreeMatches(m: Message)
    requires Printable(m)
    ensures Matches(TreeOf(m), m)
    decreases m, 1
  {
    TreeIs(m);
    EntriesDescribe(m, Items(m));
    KidsMatch(m.nested);
  }

  lemma {:induction false} KidsMatch(ms: seq<Message>)
    requires AllPrintable(ms)
    ensures AllMatch(Kids(ms), ms)
    decreases ms, 0
  {
    if ms != [] {
      KidsMatch(ms[1..]);
      if ms[0].mapEntry {
        assert Kids(ms) == Kids(ms[1..]);
      } else {
        TreeMatches(ms[0]);
        assert Kids(ms) == [TreeOf(ms[0])] + Kids(ms[1..]);
        assert Kids(ms)[1..] == Kids(ms[1..]);
      }
    }
  }

  // -------------------------------------------------------------------- reading

  /** In front of any lines, `part` reads as `b` at that depth. */
  ghost predicate Reads(part: seq<Line>, b: Body, depth: nat) {
    forall tail :: ReadBody(part + tail, depth) == Merge(b, ReadBody(tail, depth))
  }

  lemma ReadsNothing(depth: nat)
    ensures Reads([], NO_BODY, depth)
  {
    forall tail ensures ReadBody([] + tail, depth) == Merge(NO_BODY, ReadBody(tail, depth)) {
      assert [] + tail == tail;
      if ReadBody(tail, depth).Read? {
        assert Join(NO_BODY, ReadBody(tail, depth).value) == ReadBody(tail, depth).value;
      }
    }
  }

  lemma MergeMerge(a: Body, b: Body, r: Result<Body>)
    ensures Merge(a, Merge(b, r)) == Merge(Join(a, b), r)
  {
    if r.Read? {
      assert Join(a, Join(b, r.value)) == Join(Join(a, b), r.value);
    }
  }

  /** Two parts one after the other. */
  lemma ReadsBoth(p: seq<Line>, a: Body, q: seq<Line>, b: Body, depth: nat)
    requires Reads(p, a, depth) && Reads(q, b, depth)
    ensures Reads(p + q, Join(a, b), depth)
  {
    forall tail ensures ReadBody(p + q + tail, depth) == Merge(Join(a, b), ReadBody(tail, depth)) {
      assert ReadBody(p + (q + tail), depth) == Merge(a, ReadBody(q + tail, depth));
      assert ReadBody(q + tail, depth) == Merge(b, ReadBody(tail, depth));
      BothAt(p, a, q, b, tail, depth);
    }
  }

  lemma BothAt(p: seq<Line>, a: Body, q: seq<Line>, b: Body, tail: seq<Line>, depth: nat)
    requires ReadBody(p + (q + tail), depth) == Merge(a, Merge(b, ReadBody(tail, depth)))
    ensures ReadBody(p + q + tail, depth) == Merge(Join(a, b), ReadBody(tail, depth))
  {
    assert p + q + tail == p + (q + tail);
    MergeMerge(a, b, ReadBody(tail, depth));
  }

  lemma ReadsThree(p: seq<Line>, a: Body, q: seq<Line>, b: Body, r: seq<Line>, c: Body, depth: nat)
    requires Reads(p, a, depth) && Reads(q, b, depth) && Reads(r, c, depth)
    ensures Reads(p + q + r, Join(Join(a, b), c), depth)
  {
    ReadsBoth(p, a, q, b, depth);
    ReadsBoth(p + q, Join(a, b), r, c, depth);
  }

  lemma ClosedReads(indent: nat, b: Body, tail: seq<Line>)
    ensures Merge(b, ReadBody([Close(indent)] + tail, indent + 1)) == Read(b, tail)
  {
    assert ([Close(indent)] + tail)[1..] == tail;
    assert Join(b, NO_BODY) == b;
  }

  lemma OpenReads(indent: nat, name: string, rest: seq<Line>, b: Body, tail: seq<Line>)
    requires ReadBody(rest, indent + 1) == Read(b, tail)
    ensures ReadBody([Open(indent, name)] + rest, indent) == Merge(KidBody([Tree(name, b)]), ReadBody(tail, indent))
  {
    assert ([Open(indent, name)] + rest)[1..] == rest;
  }

  /** What stands between the braces is read up to the closing one. */
  lemma InnerReads(indent: nat, inner: seq<Line>, b: Body, tail: seq<Line>)
    requires Reads(inner, b, indent + 1)
    ensures ReadBody(inner + ([Close(indent)] + tail), indent + 1) == Read(b, tail)
  {
    assert ReadBody(inner + ([Close(indent)] + tail), indent + 1) == Merge(b, ReadBody([Close(indent)] + tail, indent + 1));
    ClosedReads(indent, b, tail);
  }

  /** A message with its braces is one message with the body read between them. */
  lemma ReadsMessage(indent: nat, name: string, inner: seq<Line>, b: Body)
    requires Reads(inner, b, indent + 1)
    ensures Reads([Open(indent, name)] + inner + [Close(indent)], KidBody([Tree(name, b)]), indent)
  {
    var part := [Open(indent, name)] + inner + [Close(indent)];
    forall tail ensures ReadBody(part + tail, indent) == Merge(KidBody([Tree(name, b)]), ReadBody(tail, indent)) {
      var end := [Close(indent)] + tail;
      InnerReads(indent, inner, b, tail);
      OpenReads(indent, name, inner + end, b, tail);
      assert part + tail == [Open(indent, name)] + (inner + end);
    }
  }

  // ---------------------------------------------------------------- the pieces

  lemma {:induction false} FieldsRead(fs: seq<Field>, depth: nat, entries: map<string, (string, string)>, tail: seq<Line>)
    requires depth > 0
    ensures ReadFields(FieldLines(fs, depth, entries) + [Close(depth - 1)] + tail, depth) == Read(Shapes(fs, entries), tail)
    decreases |fs|
  {
    var ls := FieldLines(fs, depth, entries) + [Close(depth - 1)] + tail;
    if fs == [] {
      assert ls == [Close(depth - 1)] + tail;
      assert ls[1..] == tail;
    } else {
      assert ls[0] == EmitField(fs[0], depth, true, entries);
      assert ls[1..] == FieldLines(fs[1..], depth, entries) + [Close(depth - 1)] + tail;
      ShapeRead(fs[0], depth, true, entries);
      FieldsRead(fs[1..], depth, entries, tail);
      FieldsReadCons(ls, depth, ShapeOf(fs[0], true, entries), Shapes(fs[1..], entries), tail);
    }
  }

  lemma FieldsReadCons(ls: seq<Line>, depth: nat, s: Shape, ss: seq<Shape>, tail: seq<Line>)
    requires ls != [] && ReadShape(ls[0], depth) == Some(s) && ReadFields(ls[1..], depth) == Read(ss, tail)
    ensures ReadFields(ls, depth) == Read([s] + ss, tail)
  {
  }

  lemma {:induction false} ValuesRead(vs: seq<(string, int)>, indent: nat, tail: seq<Line>)
    ensures ReadValues(ValueLines(vs, indent) + [Close(indent)] + tail, indent + 1) == Read(vs, tail)
    decreases |vs|
  {
    var ls := ValueLines(vs, indent) + [Close(indent)] + tail;
    if vs == [] {
      assert ls == [Close(indent)] + tail;
      assert ls[1..] == tail;
    } else {
      assert ls[0] == EnumValue(indent + 1, vs[0].0, vs[0].1);
      assert ls[1..] == ValueLines(vs[1..], indent) + [Close(indent)] + tail;
      ValuesRead(vs[1..], indent, tail);
      assert vs == [(vs[0].0, vs[0].1)] + vs[1..];
    }
  }

  lemma EnumReads(e: Enum, depth: nat)
    ensures Reads(EnumLines(e, depth), EnumBody([e]), depth)
  {
    var lines := ValueLines(e.values, depth) + [Close(depth)];
    forall tail ensures ReadValues(lines + tail, depth + 1) == Read(e.values, tail) {
      ValuesRead(e.values, depth, tail);
    }
    BracedValues(depth, e.name, lines, e.values);
    assert EnumLines(e, depth) == [EnumOpen(depth, e.name)] + lines;
    assert Enum(e.name, e.values) == e;
  }

  lemma BracedValues(depth: nat, name: string, lines: seq<Line>, vs: seq<(string, int)>)
    requires forall tail :: ReadValues(lines + tail, depth + 1) == Read(vs, tail)
    ensures Reads([EnumOpen(depth, name)] + lines, EnumBody([Enum(name, vs)]), depth)
  {
    forall tail
      ensures ReadBody([EnumOpen(depth, name)] + lines + tail, depth) == Merge(EnumBody([Enum(name, vs)]), ReadBody(tail, depth))
    {
      var ls := [EnumOpen(depth, name)] + lines + tail;
      assert ls[0] == EnumOpen(depth, name) && ls[1..] == lines + tail;
    }
  }

  lemma {:induction false} EnumsRead(es: seq<Enum>, depth: nat)
    ensures Reads(AllEnumLines(es, depth), EnumBody(es), depth)
    decreases |es|
  {
    if es == [] {
      ReadsNothing(depth);
    } else {
      EnumReads(es[0], depth);
      EnumsRead(es[1..], depth);
      ReadsBoth(EnumLines(es[0], depth), EnumBody([es[0]]), AllEnumLines(es[1..], depth), EnumBody(es[1..]), depth);
      assert Join(EnumBody([es[0]]), EnumBody(es[1..])) == EnumBody(es) by {
        assert es == [es[0]] + es[1..];
      }
    }
  }

  lemma LooseReads(f: Field, depth: nat, entries: map<string, (string, string)>)
    ensures Reads([EmitField(f, depth, false, entries)], EntryBody(Alone(ShapeOf(f, false, entries))), depth)
  {
    var line := EmitField(f, depth, false, entries);
    ShapeRead(f, depth, false, entries);
    forall tail ensures ReadBody([line] + tail, depth) == Merge(EntryBody(Alone(ShapeOf(f, false, entries))), ReadBody(tail, depth)) {
      assert ([line] + tail)[1..] == tail;
    }
  }

  lemma OneofReads(depth: nat, name: string, lines: seq<Line>, ss: seq<Shape>)
    requires forall tail :: ReadFields(lines + tail, depth + 1) == Read(ss, tail)
    ensures Reads([OneofOpen(depth, name)] + lines, EntryBody(Group(name, ss)), depth)
  {
    forall tail
      ensures ReadBody([OneofOpen(depth, name)] + lines + tail, depth) == Merge(EntryBody(Group(name, ss)), ReadBody(tail, depth))
    {
      var ls := [OneofOpen(depth, name)] + lines + tail;
      assert ls[0] == OneofOpen(depth, name) && ls[1..] == lines + tail;
    }
  }

  lemma BlockReads(name: string, fs: seq<Field>, depth: nat, entries: map<string, (string, string)>)
    ensures Reads([OneofOpen(depth, name)] + FieldLines(fs, depth + 1, entries) + [Close(depth)],
                  EntryBody(Group(name, Shapes(fs, entries))), depth)
  {
    var lines := FieldLines(fs, depth + 1, entries) + [Close(depth)];
    forall tail ensures ReadFields(lines + tail, depth + 1) == Read(Shapes(fs, entries), tail) {
      FieldsRead(fs, depth + 1, entries, tail);
    }
    OneofReads(depth, name, lines, Shapes(fs, entries));
    assert [OneofOpen(depth, name)] + lines == [OneofOpen(depth, name)] + FieldLines(fs, depth + 1, entries) + [Close(depth)];
  }

  lemma ItemReads(m: Message, item: Item, indent: nat)
    requires item.Block? ==> item.index < |m.oneofs|
    ensures Reads(ItemLines(m, item, indent), EntryBody(EntryOf(m, item)), indent + 1)
  {
    match item
    case Loose(f) => LooseReads(f, indent + 1, MapEntries(m.nested));
    case Block(i) => BlockReads(m.oneofs[i], InOneof(m.fields, i), indent + 1, MapEntries(m.nested));
  }

  function ItemsBody(m: Message, items: seq<Item>): Body
    requires forall i | i in items && i.Block? :: i.index < |m.oneofs|
  {
    Body([], [], Entries(m, items), Ids(FieldsOfAll(m, items)))
  }

  lemma OneItem(m: Message, item: Item)
    requires item.Block? ==> item.index < |m.oneofs|
    ensures EntryBody(EntryOf(m, item)) == Body([], [], [EntryOf(m, item)], Ids(FieldsOf(m, item)))
  {
    match item
    case Loose(f) =>
      ShapeRead(f, 0, false, MapEntries(m.nested));
      OneFieldIs(f);
      OneShape(ShapeOf(f, false, MapEntries(m.nested)));
    case Block(i) => BagOfShapes(InOneof(m.fields, i), MapEntries(m.nested));
  }

  lemma OneShape(s: Shape)
    ensures Bag([s]) == multiset{IdOf(s)}
  {
    assert [s][1..] == [];
  }

  lemma JoinItems(x: seq<Entry>, i: multiset<Id>, y: seq<Entry>, j: multiset<Id>)
    ensures Join(Body([], [], x, i), Body([], [], y, j)) == Body([], [], x + y, i + j)
  {
  }

  lemma ItemsBodyCons(m: Message, items: seq<Item>)
    requires items != [] && forall i | i in items && i.Block? :: i.index < |m.oneofs|
    ensures (items[0].Block? ==> items[0].index < |m.oneofs|) && forall i | i in items[1..] && i.Block? :: i.index < |m.oneofs|
    ensures ItemsBody(m, items) == Join(EntryBody(EntryOf(m, items[0])), ItemsBody(m, items[1..]))
  {
    assert items[0] in items;
    assert forall i | i in items[1..] :: i in items;
    OneItem(m, items[0]);
    IdsAppend(FieldsOf(m, items[0]), FieldsOfAll(m, items[1..]));
    JoinItems([EntryOf(m, items[0])], Ids(FieldsOf(m, items[0])), Entries(m, items[1..]), Ids(FieldsOfAll(m, items[1..])));
  }

  lemma {:induction false} ItemsRead(m: Message, items: seq<Item>, indent: nat)
    requires forall i | i in items && i.Block? :: i.index < |m.oneofs|
    ensures Reads(AllItemLines(m, items, indent), ItemsBody(m, items), indent + 1)
    decreases |items|
  {
    if items == [] {
      ReadsNothing(indent + 1);
    } else {
      ItemsBodyCons(m, items);
      ItemReads(m, items[0], indent);
      ItemsRead(m, items[1..], indent);
      ReadsBoth(ItemLines(m, items[0], indent), EntryBody(EntryOf(m, items[0])), AllItemLines(m, items[1..], indent),
                ItemsBody(m, items[1..]), indent + 1);
    }
  }

  // --------------------------------------------------------------- the message

  /** The items of a message hold its own fields, each once. */
  lemma ItemsAreOwn(m: Message)
    requires Printable(m)
    ensures forall i | i in Items(m) && i.Block? :: i.index < |m.oneofs|
    ensures ItemsBody(m, Items(m)) == Body([], [], Entries(m, Items(m)), Ids(m.fields))
  {
    BlocksDeclared(m);
    ItemsPrintEachFieldOnce(m);
    IdsPermute(FieldsOfAll(m, Items(m)), m.fields);
  }

  /** The lines between the braces of a message. */
  function Inner(m: Message, indent: nat, nested: seq<Line>): seq<Line>
    requires forall i | i in Items(m) && i.Block? :: i.index < |m.oneofs|
  {
    nested + AllEnumLines(m.enums, indent + 1) + AllItemLines(m, Items(m), indent)
  }

  lemma JoinParts(kids: seq<Tree>, es: seq<Enum>, entries: seq<Entry>, ids: multiset<Id>)
    ensures Join(Join(KidBody(kids), EnumBody(es)), Body([], [], entries, ids)) == Body(kids, es, entries, ids)
  {
  }

  lemma InnerIs(m: Message, indent: nat, nested: seq<Line>, kids: seq<Tree>)
    requires Printable(m) && Reads(nested, KidBody(kids), indent + 1)
    ensures forall i | i in Items(m) && i.Block? :: i.index < |m.oneofs|
    ensures Reads(Inner(m, indent, nested), Body(kids, m.enums, Entries(m, Items(m)), Ids(m.fields)), indent + 1)
  {
    ItemsAreOwn(m);
    EnumsRead(m.enums, indent + 1);
    ItemsRead(m, Items(m), indent);
    ReadsThree(nested, KidBody(kids), AllEnumLines(m.enums, indent + 1), EnumBody(m.enums), AllItemLines(m, Items(m), indent),
               ItemsBody(m, Items(m)), indent + 1);
    JoinParts(kids, m.enums, Entries(m, Items(m)), Ids(m.fields));
  }

  lemma Ungroup(a: seq<Line>, p: seq<Line>, q: seq<Line>, r: seq<Line>, b: seq<Line>)
    ensures a + (p + q + r) + b == a + p + q + r + b
  {
  }

  lemma PrintIs(m: Message, indent: nat)
    requires Printable(m)
    ensures forall i | i in Items(m) && i.Block? :: i.index < |m.oneofs|
    ensures Print(m, indent) == [Open(indent, m.name)] + Inner(m, indent, PrintNested(m.nested, indent + 1)) + [Close(indent)]
  {
    BlocksDeclared(m);
    Ungroup([Open(indent, m.name)], PrintNested(m.nested, indent + 1), AllEnumLines(m.enums, indent + 1),
            AllItemLines(m, Items(m), indent), [Close(indent)]);
  }

  /** A printed message reads as one message: its own tree. */
  lemma {:induction false} PrintReads(m: Message, indent: nat)
    requires Printable(m)
    ensures Reads(Print(m, indent), KidBody([TreeOf(m)]), indent)
    decreases m, 1
  {
    NestedReads(m.nested, indent + 1);
    InnerIs(m, indent, PrintNested(m.nested, indent + 1), Kids(m.nested));
    TreeIs(m);
    ReadsMessage(indent, m.name, Inner(m, indent, PrintNested(m.nested, indent + 1)), TreeOf(m).body);
    PrintIs(m, indent);
  }

  lemma {:induction false} NestedReads(ms: seq<Message>, depth: nat)
    requires AllPrintable(ms)
    ensures Reads(PrintNested(ms, depth), KidBody(Kids(ms)), depth)
    decreases ms, 0
  {
    if ms == [] {
      ReadsNothing(depth);
    } else {
      if ms[0].mapEntry {
        ReadsNothing(depth);
      } else {
        PrintReads(ms[0], depth);
      }
      assert Reads(PrintOne(ms[0], depth), KidBody(KidOf(ms[0])), depth);
      NestedReads(ms[1..], depth);
      ReadsBoth(PrintOne(ms[0], depth), KidBody(KidOf(ms[0])), PrintNested(ms[1..], depth), KidBody(Kids(ms[1..])), depth);
      assert Join(KidBody(KidOf(ms[0])), KidBody(Kids(ms[1..]))) == KidBody(KidOf(ms[0]) + Kids(ms[1..]));
    }
  }

  lemma WholeText(indent: nat, name: string, inner: seq<Line>, b: Body)
    requires Reads(inner, b, indent + 1)
    ensures ReadMessage([Open(indent, name)] + inner + [Close(indent)], indent) == Some(Tree(name, b))
  {
    var ls := [Open(indent, name)] + inner + [Close(indent)];
    InnerReads(indent, inner, b, []);
    assert ls[0] == Open(indent, name) && ls[1..] == inner + ([Close(indent)] + []);
  }

  /**
    Reading a printed message gives the message back: at every depth, properly indented, its own
    nested messages but no map entries, its enums, and its entries in order with the name,
    number, label and type that each field declares.
  */
  lemma PrintReadsBack(m: Message, indent: nat)
    requires Printable(m)
    ensures ReadMessage(Print(m, indent), indent).Some? && Matches(ReadMessage(Print(m, indent), indent).value, m)
  {
    NestedReads(m.nested, indent + 1);
    InnerIs(m, indent, PrintNested(m.nested, indent + 1), Kids(m.nested));
    TreeIs(m);
    WholeText(indent, m.name, Inner(m, indent, PrintNested(m.nested, indent + 1)), TreeOf(m).body);
    PrintIs(m, indent);
    TreeMatches(m);
  }
}
