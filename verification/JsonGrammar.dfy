/** The grammar of JSON documents, sections 2 to 5 of RFC 8259, as syntax trees that keep every character of the text;
    and the proof that the reader accepts exactly these documents, up to its nesting bound, as what they mean. */
module JsonGrammar {
  import opened StageTypes
  import opened JsonText
  import opened JsonReader
  import opened JsonSpelling

  datatype Tree =
    | Word(value: Json)
    | Number(lexeme: string)
    | Text(text: string, pieces: seq<Piece>)
    | EmptyArray(space: string)
    | Array(items: Items)
    | EmptyObject(space: string)
    | Object(members: Members)

  /** A value with the space around it. */
  datatype Slot = Slot(before: string, tree: Tree, after: string)

  datatype Items = LastItem(slot: Slot) | ItemThen(slot: Slot, rest: Items)

  datatype Name = Name(before: string, key: string, pieces: seq<Piece>, after: string)

  datatype Members = LastMember(name: Name, slot: Slot) | MemberThen(name: Name, slot: Slot, rest: Members)

  // ---------------------------------------------------------------- text and meaning

  function TextOf(t: Tree): string {
    match t
    case Word(v) => if v.Null? then "null" else if v.Bool? && v.truth then "true" else "false"
    case Number(lexeme) => lexeme
    case Text(_, pieces) => "\"" + SpellAll(pieces) + "\""
    case EmptyArray(space) => "[" + space + "]"
    case Array(items) => "[" + ItemsText(items)
    case EmptyObject(space) => "{" + space + "}"
    case Object(members) => "{" + MembersText(members)
  }

  function SlotText(s: Slot): string {
    s.before + TextOf(s.tree) + s.after
  }

  function ItemsText(i: Items): string {
    match i
    case LastItem(slot) => SlotText(slot) + "]"
    case ItemThen(slot, rest) => SlotText(slot) + "," + ItemsText(rest)
  }

  function NameText(n: Name): string {
    n.before + "\"" + SpellAll(n.pieces) + "\"" + n.after + ":"
  }

  function MembersText(m: Members): string {
    match m
    case LastMember(name, slot) => NameText(name) + SlotText(slot) + "}"
    case MemberThen(name, slot, rest) => NameText(name) + SlotText(slot) + "," + MembersText(rest)
  }

  function ValueOf(t: Tree): Json {
    match t
    case Word(v) => v
    case Number(lexeme) => Num(lexeme)
    case Text(text, _) => Str(text)
    case EmptyArray(_) => Arr([])
    case Array(items) => Arr(Values(items))
    case EmptyObject(_) => Obj(map[])
    case Object(members) => Obj(Fields(members))
  }

  function Values(i: Items): seq<Json> {
    match i
    case LastItem(slot) => [ValueOf(slot.tree)]
    case ItemThen(slot, rest) => [ValueOf(slot.tree)] + Values(rest)
  }

  /** Of two members with one key the later one counts. */
  function Fields(m: Members): map<string, Json> {
    match m
    case LastMember(name, slot) => map[name.key := ValueOf(slot.tree)]
    case MemberThen(name, slot, rest) =>
      if name.key in Fields(rest) then Fields(rest) else Fields(rest)[name.key := ValueOf(slot.tree)]
  }

  ghost predicate Numeral(s: string) {
    exists m, i, f, e :: NumberParts(m, i, f, e) && s == m + i + f + e
  }

  /** The tree follows the grammar and nests at most this deep. */
  ghost predicate IsTree(t: Tree, room: nat) {
    match t
    case Word(v) => v.Null? || v.Bool?
    case Number(lexeme) => Numeral(lexeme)
    case Text(text, pieces) => Means(pieces, text)
    case EmptyArray(space) => 0 < room && Space(space)
    case Array(items) => 0 < room && AreItems(items, room - 1)
    case EmptyObject(space) => 0 < room && Space(space)
    case Object(members) => 0 < room && AreMembers(members, room - 1)
  }

  ghost predicate IsSlot(s: Slot, room: nat) {
    Space(s.before) && Space(s.after) && IsTree(s.tree, room)
  }

  ghost predicate AreItems(i: Items, room: nat) {
    IsSlot(i.slot, room) && (i.ItemThen? ==> AreItems(i.rest, room))
  }

  predicate IsName(n: Name) {
    Space(n.before) && Space(n.after) && Means(n.pieces, n.key)
  }

  ghost predicate AreMembers(m: Members, room: nat) {
    IsName(m.name) && IsSlot(m.slot, room) && (m.MemberThen? ==> AreMembers(m.rest, room))
  }

  // ---------------------------------------------------------------- documents are read

  lemma TreeStarts(t: Tree, room: nat)
    requires IsTree(t, room)
    ensures TextOf(t) != "" && Solid(TextOf(t)[0]) && TextOf(t)[0] !in {']', '}', ',', ':'}
  {
    hide IsNumber, NumberParts, Means, AreItems, AreMembers, SpellAll, ItemsText, MembersText;
    if t.Number? { NumeralStarts(t.lexeme); }
  }

  lemma NumeralStarts(s: string)
    requires Numeral(s)
    ensures s != "" && (s[0] == '-' || Digit(s[0])) && IsNumber(s)
  {
    hide IsNumber;
    var m, i, f, e :| NumberParts(m, i, f, e) && s == m + i + f + e;
    PartsAreNumber(m, i, f, e);
    FirstsFit(i, f, e);
    assert s[0] == if m == "" then i[0] else '-';
    assert i[0] in i;
  }

  lemma SpaceBefore(a: string, s: string, room: nat)
    requires Space(a) && s != "" && Solid(s[0])
    ensures SkipSpace(a + s) == s && ReadValue(a + s, room) == ReadValue(s, room)
  {
    hide ReadArray, ReadObject, NumberLength, ReadString, Literal;
    SpaceDrops(a, s);
    SpaceDrops("", s);
    assert "" + s == s;
  }

  /** A number must not run on into what follows it. */
  predicate Ends(t: Tree, s: string) {
    t.Number? ==> EndsNumber(s)
  }

  lemma WordReads(v: Json, room: nat, s: string)
    requires v.Null? || v.Bool?
    ensures ReadValue(TextOf(Word(v)) + s, room) == Some(Read(v, s))
  {
    var word := TextOf(Word(v));
    assert (word + s)[|word|..] == s;
  }

  lemma DigitReads(s: string, room: nat)
    requires s != "" && (s[0] == '-' || Digit(s[0])) && NumberLength(s).Some?
    ensures ReadValue(s, room) == Some(Read(Num(s[..NumberLength(s).value]), s[NumberLength(s).value..]))
  {
    hide NumberLength, ReadArray, ReadObject, ReadString, Literal;
    SpaceDrops("", s);
    assert "" + s == s;
  }

  lemma NumberReads(lexeme: string, room: nat, s: string)
    requires Numeral(lexeme) && EndsNumber(s)
    ensures ReadValue(lexeme + s, room) == Some(Read(Num(lexeme), s))
  {
    hide IsNumber, NumberLength, ReadValue, Numeral, EndsNumber;
    NumeralStarts(lexeme);
    NumberThen(lexeme, s);
    DigitReads(lexeme + s, room);
    assert (lexeme + s)[..|lexeme|] == lexeme && (lexeme + s)[|lexeme|..] == s;
  }

  lemma TextReads(text: string, pieces: seq<Piece>, room: nat, s: string)
    requires Means(pieces, text)
    ensures ReadValue("\"" + SpellAll(pieces) + "\"" + s, room) == Some(Read(Str(text), s))
  {
    hide ReadString, Means, SpellAll, ReadArray, ReadObject, NumberLength;
    StringReads(pieces, text, s);
    assert ("\"" + SpellAll(pieces) + "\"" + s)[1..] == SpellAll(pieces) + "\"" + s;
  }

  lemma BracketReads(inner: string, room: nat)
    requires 0 < room
    ensures ReadValue("[" + inner, room) == ReadArray(inner, room - 1)
    ensures ReadValue("{" + inner, room) == ReadObject(inner, room - 1)
  {
    hide ReadArray, ReadObject, ReadString, NumberLength, Literal;
    assert ("[" + inner)[1..] == inner && ("{" + inner)[1..] == inner;
  }

  lemma EmptyReads(space: string, room: nat, s: string)
    requires Space(space)
    ensures ReadArray(space + "]" + s, room) == Some(Read(Arr([]), s))
    ensures ReadObject(space + "}" + s, room) == Some(Read(Obj(map[]), s))
  {
    hide ReadItems, ReadMembers;
    SpaceDrops(space, "]" + s);
    SpaceDrops(space, "}" + s);
    assert space + "]" + s == space + ("]" + s) && ("]" + s)[1..] == s;
    assert space + "}" + s == space + ("}" + s) && ("}" + s)[1..] == s;
  }

  /** Every tree of the grammar is read as what it means, and no further. */
  lemma {:induction false} TreeReads(t: Tree, room: nat, s: string)
    requires IsTree(t, room) && Ends(t, s)
    ensures ReadValue(TextOf(t) + s, room) == Some(Read(ValueOf(t), s))
  {
    hide ReadValue, ReadArray, ReadObject, Means, Numeral, AreItems, AreMembers, SpellAll, ItemsText, MembersText;
    match t {
      case Word(v) => WordReads(v, room, s);
      case Number(lexeme) => NumberReads(lexeme, room, s);
      case Text(text, pieces) => TextReads(text, pieces, room, s);
      case EmptyArray(space) =>
        BracketReads(space + "]" + s, room);
        EmptyReads(space, room - 1, s);
        assert TextOf(t) + s == "[" + (space + "]" + s);
      case Array(items) =>
        BracketReads(ItemsText(items) + s, room);
        ArrayReads(items, room - 1, s);
        assert TextOf(t) + s == "[" + (ItemsText(items) + s);
      case EmptyObject(space) =>
        BracketReads(space + "}" + s, room);
        EmptyReads(space, room - 1, s);
        assert TextOf(t) + s == "{" + (space + "}" + s);
      case Object(members) =>
        BracketReads(MembersText(members) + s, room);
        ObjectReads(members, room - 1, s);
        assert TextOf(t) + s == "{" + (MembersText(members) + s);
    }
  }

  /** A value in its place is read up to the space after it. */
  lemma {:induction false} SlotReads(slot: Slot, room: nat, s: string)
    requires IsSlot(slot, room) && s != "" && s[0] in {']', '}', ','}
    ensures ReadValue(SlotText(slot) + s, room) == Some(Read(ValueOf(slot.tree), slot.after + s))
    ensures SkipSpace(slot.after + s) == s
    ensures SkipSpace(SlotText(slot) + s) != "" && SkipSpace(SlotText(slot) + s)[0] !in {']', '}'}
  {
    hide ReadValue, IsTree, TextOf;
    var t, rest := slot.tree, slot.after + s;
    TreeStarts(t, room);
    assert SlotText(slot) + s == slot.before + (TextOf(t) + rest);
    SpaceBefore(slot.before, TextOf(t) + rest, room);
    SpaceDrops(slot.after, s);
    assert rest[0] in " \t\n\r" || rest[0] in {']', '}', ','} by {
      if slot.after != "" { assert rest[0] in slot.after; }
    }
    TreeReads(t, room, rest);
  }

  lemma {:induction false} ArrayReads(items: Items, room: nat, s: string)
    requires AreItems(items, room)
    ensures ReadArray(ItemsText(items) + s, room) == Some(Read(Arr(Values(items)), s))
    decreases items, 1
  {
    hide ReadValue, ReadItems, IsSlot, SlotText;
    ItemsRead(items, room, s);
    var more := if items.LastItem? then "]" + s else "," + ItemsText(items.rest) + s;
    assert ItemsText(items) + s == SlotText(items.slot) + more;
    SlotReads(items.slot, room, more);
  }

  lemma {:induction false} ItemsRead(items: Items, room: nat, s: string)
    requires AreItems(items, room)
    ensures ReadItems(ItemsText(items) + s, room) == Some(Read(Values(items), s))
    decreases items, 0
  {
    hide ReadValue, IsSlot, SlotText, ValueOf;
    match items {
      case LastItem(slot) =>
        assert ItemsText(items) + s == SlotText(slot) + ("]" + s);
        SlotReads(slot, room, "]" + s);
        assert ("]" + s)[1..] == s;
      case ItemThen(slot, rest) =>
        var more := ItemsText(rest) + s;
        assert ItemsText(items) + s == SlotText(slot) + ("," + more);
        SlotReads(slot, room, "," + more);
        assert ("," + more)[1..] == more;
        ItemsRead(rest, room, s);
    }
  }

  lemma NameReads(name: Name, s: string)
    requires IsName(name)
    ensures ReadKey(NameText(name) + s) == Some(Read(name.key, s))
    ensures SkipSpace(NameText(name) + s) != "" && SkipSpace(NameText(name) + s)[0] == '"'
  {
    hide ReadString, Means, SpellAll;
    var rest := name.after + (":" + s);
    var body := SpellAll(name.pieces) + "\"" + rest;
    assert NameText(name) + s == name.before + ("\"" + body);
    SpaceDrops(name.before, "\"" + body);
    StringReads(name.pieces, name.key, rest);
    assert ("\"" + body)[1..] == body;
    SpaceDrops(name.after, ":" + s);
    assert (":" + s)[1..] == s;
  }

  lemma {:induction false} ObjectReads(members: Members, room: nat, s: string)
    requires AreMembers(members, room)
    ensures ReadObject(MembersText(members) + s, room) == Some(Read(Obj(Fields(members)), s))
    decreases members, 1
  {
    hide ReadValue, ReadMembers, IsSlot, SlotText, NameText, IsName;
    MembersRead(members, room, s);
    var more := SlotText(members.slot) + if members.LastMember? then "}" + s else "," + MembersText(members.rest) + s;
    assert MembersText(members) + s == NameText(members.name) + more;
    NameReads(members.name, more);
  }

  lemma {:induction false} MembersRead(members: Members, room: nat, s: string)
    requires AreMembers(members, room)
    ensures ReadMembers(MembersText(members) + s, room) == Some(Read(Fields(members), s))
    decreases members, 0
  {
    hide ReadValue, ReadKey, IsSlot, SlotText, NameText, IsName, ValueOf;
    match members {
      case LastMember(name, slot) =>
        var more := "}" + s;
        assert MembersText(members) + s == NameText(name) + (SlotText(slot) + more);
        NameReads(name, SlotText(slot) + more);
        SlotReads(slot, room, more);
        assert more[1..] == s;
      case MemberThen(name, slot, rest) =>
        var more := "," + (MembersText(rest) + s);
        assert MembersText(members) + s == NameText(name) + (SlotText(slot) + more);
        NameReads(name, SlotText(slot) + more);
        SlotReads(slot, room, more);
        assert more[1..] == MembersText(rest) + s;
        MembersRead(rest, room, s);
        LaterCounts(name.key, ValueOf(slot.tree), Fields(rest));
    }
  }

  lemma LaterCounts(key: string, v: Json, later: map<string, Json>)
    ensures map[key := v] + later == if key in later then later else later[key := v]
  {
  }

  // ---------------------------------------------------------------- what is read is a document

  /** The tree that a read value comes from, with the space in front of it. */
  ghost predicate Reads(text: string, room: nat, a: string, t: Tree, v: Json, rest: string) {
    Space(a) && IsTree(t, room) && ValueOf(t) == v && text == a + TextOf(t) + rest
  }

  lemma NumeralPrefix(s: string)
    requires NumberLength(s).Some?
    ensures Numeral(s[..NumberLength(s).value])
  {
    hide NumberLength, NumberParts;
    var n := NumberLength(s).value;
    NumberPrefix(s);
    var m, i, f, e := NumberHasParts(s[..n]);
  }

  lemma WordMeans(s: string, room: nat) returns (t: Tree)
    requires s != "" && s[0] in {'n', 't', 'f'} && ReadValue(s, room).Some?
    ensures Reads(s, room, "", t, ReadValue(s, room).value.value, ReadValue(s, room).value.rest)
  {
    var v := ReadValue(s, room).value.value;
    t := Word(v);
    assert SkipSpace(s) == s;
    assert s == TextOf(t) + s[|TextOf(t)|..];
  }

  lemma TextMeans(s: string, room: nat) returns (t: Tree)
    requires s != "" && s[0] == '"' && ReadValue(s, room).Some?
    ensures Reads(s, room, "", t, ReadValue(s, room).value.value, ReadValue(s, room).value.rest)
  {
    hide ReadString, Means, SpellAll, NumberLength, Literal, ReadArray, ReadObject;
    var pieces := StringMeans(s[1..]);
    t := Text(ReadString(s[1..]).value.value, pieces);
    assert SkipSpace(s) == s;
    assert s == "\"" + s[1..];
  }

  lemma NumberMeans(s: string, room: nat) returns (t: Tree)
    requires s != "" && Solid(s[0]) && s[0] !in {'n', 't', 'f', '"', '[', '{'} && ReadValue(s, room).Some?
    ensures Reads(s, room, "", t, ReadValue(s, room).value.value, ReadValue(s, room).value.rest)
  {
    hide ReadString, NumberLength, Literal, ReadArray, ReadObject, Numeral;
    SpaceDrops("", s);
    assert "" + s == s;
    NumeralPrefix(s);
    t := Number(s[..NumberLength(s).value]);
  }

  lemma BracketMeans(s: string, room: nat)
    requires s != "" && s[0] in {'[', '{'} && ReadValue(s, room).Some?
    ensures 0 < room
    ensures ReadValue(s, room) == if s[0] == '[' then ReadArray(s[1..], room - 1) else ReadObject(s[1..], room - 1)
  {
    hide ReadArray, ReadObject, ReadString, NumberLength, Literal;
  }

  lemma {:induction false} SolidMeans(s: string, room: nat) returns (t: Tree)
    requires s != "" && Solid(s[0]) && ReadValue(s, room).Some?
    ensures Reads(s, room, "", t, ReadValue(s, room).value.value, ReadValue(s, room).value.rest)
    decreases |s|, 1
  {
    hide ReadValue, ReadArray, ReadObject, TextOf, ValueOf, IsTree;
    if s[0] in {'[', '{'} {
      BracketMeans(s, room);
      assert s == [s[0]] + s[1..];
      if s[0] == '[' { t := ArrayMeans(s[1..], room - 1); } else { t := ObjectMeans(s[1..], room - 1); }
    } else if s[0] == '"' {
      t := TextMeans(s, room);
    } else if s[0] in {'n', 't', 'f'} {
      t := WordMeans(s, room);
    } else {
      t := NumberMeans(s, room);
    }
  }

  lemma ReadsBehind(a: string, s: string, room: nat, t: Tree, v: Json, rest: string)
    requires Space(a) && Reads(s, room, "", t, v, rest)
    ensures Reads(a + s, room, a, t, v, rest)
  {
    hide TextOf, IsTree, ValueOf;
    assert s == TextOf(t) + rest;
  }

  /** Whatever the reader takes for a value is the text of a tree that means it. */
  lemma {:induction false} ValueMeans(text: string, room: nat) returns (a: string, t: Tree)
    requires ReadValue(text, room).Some?
    ensures Reads(text, room, a, t, ReadValue(text, room).value.value, ReadValue(text, room).value.rest)
    decreases |text|, 2
  {
    assert SkipSpace(text) != "";
    hide ReadValue, Reads;
    a := SpaceSplits(text);
    var s := SkipSpace(text);
    SpaceBefore(a, s, room);
    t := SolidMeans(s, room);
    ReadsBehind(a, s, room, t, ReadValue(s, room).value.value, ReadValue(s, room).value.rest);
  }

  lemma EmptyMeans(a: string, s: string, rest: string)
    ensures s == "]" + rest ==> "[" + (a + s) == TextOf(EmptyArray(a)) + rest
    ensures s == "}" + rest ==> "{" + (a + s) == TextOf(EmptyObject(a)) + rest
  {
  }

  lemma {:induction false} ArrayMeans(text: string, room: nat) returns (t: Tree)
    requires ReadArray(text, room).Some?
    ensures IsTree(t, room + 1) && ValueOf(t) == ReadArray(text, room).value.value
    ensures "[" + text == TextOf(t) + ReadArray(text, room).value.rest
    decreases |text|, 4
  {
    hide ReadItems, AreItems, ItemsText, SkipSpace;
    var s, rest := SkipSpace(text), ReadArray(text, room).value.rest;
    if s != "" && s[0] == ']' {
      var a := SpaceSplits(text);
      t := EmptyArray(a);
      EmptyMeans(a, s, rest);
    } else {
      var items := ItemsMean(text, room);
      t := Array(items);
      assert TextOf(t) == "[" + ItemsText(items);
    }
  }

  lemma {:induction false} ItemsMean(text: string, room: nat) returns (items: Items)
    requires ReadItems(text, room).Some?
    ensures AreItems(items, room) && Values(items) == ReadItems(text, room).value.value
    ensures text == ItemsText(items) + ReadItems(text, room).value.rest
    decreases |text|, 3
  {
    hide ReadValue, IsTree, TextOf, ValueOf;
    var a, t := ValueMeans(text, room);
    var first := ReadValue(text, room).value;
    var b := SpaceSplits(first.rest);
    var s := SkipSpace(first.rest);
    var slot := Slot(a, t, b);
    assert text == SlotText(slot) + s;
    assert s == [s[0]] + s[1..];
    if s[0] == ']' {
      items := LastItem(slot);
    } else {
      var more := ItemsMean(s[1..], room);
      items := ItemThen(slot, more);
    }
  }

  lemma NameJoins(a: string, key: string, pieces: seq<Piece>, b: string, rest: string)
    ensures a + ("\"" + (SpellAll(pieces) + "\"" + (b + (":" + rest)))) == NameText(Name(a, key, pieces, b)) + rest
  {
    hide SpellAll;
  }

  lemma NameMeans(text: string) returns (name: Name)
    requires ReadKey(text).Some?
    ensures IsName(name) && name.key == ReadKey(text).value.value
    ensures text == NameText(name) + ReadKey(text).value.rest
  {
    hide ReadString, Means, SpellAll, SkipSpace, NameText;
    var s := SkipSpace(text);
    var key := ReadString(s[1..]).value;
    var c := SkipSpace(key.rest);
    var a := SpaceSplits(text);
    var pieces := StringMeans(s[1..]);
    var b := SpaceSplits(key.rest);
    name := Name(a, key.value, pieces, b);
    assert s == "\"" + s[1..] && c == ":" + c[1..];
    NameJoins(a, key.value, pieces, b, c[1..]);
  }

  lemma {:induction false} ObjectMeans(text: string, room: nat) returns (t: Tree)
    requires ReadObject(text, room).Some?
    ensures IsTree(t, room + 1) && ValueOf(t) == ReadObject(text, room).value.value
    ensures "{" + text == TextOf(t) + ReadObject(text, room).value.rest
    decreases |text|, 4
  {
    hide ReadMembers, AreMembers, MembersText, SkipSpace;
    var s, rest := SkipSpace(text), ReadObject(text, room).value.rest;
    if s != "" && s[0] == '}' {
      var a := SpaceSplits(text);
      t := EmptyObject(a);
      EmptyMeans(a, s, rest);
    } else {
      var members := MembersMean(text, room);
      t := Object(members);
      assert TextOf(t) == "{" + MembersText(members);
    }
  }

  lemma {:induction false} MembersMean(text: string, room: nat) returns (members: Members)
    requires ReadMembers(text, room).Some?
    ensures AreMembers(members, room) && Fields(members) == ReadMembers(text, room).value.value
    ensures text == MembersText(members) + ReadMembers(text, room).value.rest
    decreases |text|, 3
  {
    hide ReadValue, ReadKey, IsTree, IsName, TextOf, ValueOf, NameText;
    var name := NameMeans(text);
    var rest := ReadKey(text).value.rest;
    var a, t := ValueMeans(rest, room);
    var first := ReadValue(rest, room).value;
    var b := SpaceSplits(first.rest);
    var s := SkipSpace(first.rest);
    var slot := Slot(a, t, b);
    assert rest == SlotText(slot) + s;
    assert s == [s[0]] + s[1..];
    if s[0] == '}' {
      members := LastMember(name, slot);
    } else {
      var more := MembersMean(s[1..], room);
      members := MemberThen(name, slot, more);
      LaterCounts(name.key, first.value, Fields(more));
    }
  }

  // ---------------------------------------------------------------- the reader and the grammar agree

  /** The text is a tree that means the value, with space around it, and nests at most 10 000 deep. */
  ghost predicate Document(text: string, v: Json) {
    exists slot :: IsSlot(slot, 10_000) && ValueOf(slot.tree) == v && text == SlotText(slot)
  }

  /** The reader accepts exactly the documents of the grammar, and returns what they mean. */
  lemma ParsesExactly(text: string, v: Json)
    ensures Parse(text) == Some(v) <==> Document(text, v)
  {
    hide ReadValue, IsTree, TextOf, ValueOf;
    if Parse(text) == Some(v) {
      var a, t := ValueMeans(text, MAX_DEPTH);
      var b := SpaceSplits(ReadValue(text, MAX_DEPTH).value.rest);
      assert text == SlotText(Slot(a, t, b));
    }
    if Document(text, v) {
      var slot :| IsSlot(slot, 10_000) && ValueOf(slot.tree) == v && text == SlotText(slot);
      DocumentReads(slot);
    }
  }

  lemma DocumentReads(slot: Slot)
    requires IsSlot(slot, MAX_DEPTH)
    ensures Parse(SlotText(slot)) == Some(ValueOf(slot.tree))
  {
    hide ReadValue, IsTree, TextOf, ValueOf;
    TreeStarts(slot.tree, MAX_DEPTH);
    assert SlotText(slot) == slot.before + (TextOf(slot.tree) + slot.after);
    SpaceBefore(slot.before, TextOf(slot.tree) + slot.after, MAX_DEPTH);
    SpaceDrops(slot.after, "");
    assert slot.after + "" == slot.after;
    if slot.after != "" { assert slot.after[0] in slot.after; }
    TreeReads(slot.tree, MAX_DEPTH, slot.after);
  }

  /** So no text means two values. */
  lemma OneMeaning(text: string, v: Json, w: Json)
    requires Document(text, v) && Document(text, w)
    ensures v == w
  {
    hide Document, Parse;
    ParsesExactly(text, v);
    ParsesExactly(text, w);
  }
}
