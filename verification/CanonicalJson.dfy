/** The canonical JSON writer: object keys in ascending order, nothing else to choose. */
module CanonicalJson {
  import opened StageTypes
  import opened JsonText
  import opened JsonReader

  // ---------------------------------------------------------------- orders of keys

  /** The order of strings by their characters. */
  predicate Less(a: string, b: string) {
    b != "" && (a == "" || a[0] < b[0] || (a[0] == b[0] && Less(a[1..], b[1..])))
  }

  predicate Ascending(s: seq<string>) {
    forall i, j | 0 <= i < j < |s| :: Less(s[i], s[j])
  }

  ghost predicate Lists(s: seq<string>, keys: set<string>) {
    NoRepeats(s) && (forall k :: k in s <==> k in keys)
  }

  /** Where a value stands inside a document. */
  datatype Step = At(index: nat) | Under(key: string)

  type Path = seq<Step>

  /** Some way of listing the keys of every object of a document, for each place by itself. */
  type Order = (Path, set<string>) -> seq<string>

  ghost predicate IsOrder(order: Order) {
    forall path: Path, keys: set<string> :: Lists(order(path, keys), keys)
  }

  lemma {:induction false} LessIsTotal(a: string, b: string)
    ensures a == b || Less(a, b) || Less(b, a)
    ensures !(Less(a, b) && Less(b, a)) && !Less(a, a)
  {
    if a != "" && b != "" && a[0] == b[0] {
      LessIsTotal(a[1..], b[1..]);
      if a[1..] == b[1..] { assert a == [a[0]] + a[1..] && b == [b[0]] + b[1..]; }
    }
    if a != "" { LessIsTotal(a[1..], a[1..]); }
  }

  lemma {:induction false} LessIsTransitive(a: string, b: string, c: string)
    requires Less(a, b) && Less(b, c)
    ensures Less(a, c)
  {
    if a != "" && a[0] == b[0] && b[0] == c[0] { LessIsTransitive(a[1..], b[1..], c[1..]); }
  }

  /** There is only one ascending way to list a set of keys. */
  lemma {:induction false} AscendingIsUnique(s: seq<string>, t: seq<string>)
    requires Ascending(s) && Ascending(t) && forall k :: k in s <==> k in t
    ensures s == t
  {
    assert (t != [] ==> t[0] in t) && (s != [] ==> s[0] in s);
    if s != [] {
      assert s[0] in s && s[0] in t;
      assert t[0] in t && t[0] in s;
      var i :| 0 <= i < |t| && t[i] == s[0];
      var j :| 0 <= j < |s| && s[j] == t[0];
      LessIsTotal(s[0], t[0]);
      assert s[0] == t[0];
      forall k ensures k in s[1..] <==> k in t[1..] {
        InTail(s, k);
        InTail(t, k);
      }
      AscendingIsUnique(s[1..], t[1..]);
    }
  }

  lemma InTail(s: seq<string>, k: string)
    requires s != [] && Ascending(s)
    ensures k in s[1..] <==> k in s && k != s[0]
  {
    assert s == [s[0]] + s[1..];
    if k in s[1..] {
      var i :| 0 <= i < |s| - 1 && s[1..][i] == k;
      assert Less(s[0], s[i + 1]);
      LessIsTotal(s[0], s[0]);
    }
  }

  function Insert(s: seq<string>, k: string): seq<string> {
    if s == [] || Less(k, s[0]) then [k] + s else [s[0]] + Insert(s[1..], k)
  }

  lemma {:induction false} InsertKeeps(s: seq<string>, k: string)
    requires Ascending(s) && k !in s
    ensures Ascending(Insert(s, k)) && forall x :: x in Insert(s, k) <==> x in s || x == k
  {
    if s != [] && !Less(k, s[0]) {
      assert s == [s[0]] + s[1..];
      InsertKeeps(s[1..], k);
      var r := Insert(s[1..], k);
      LessIsTotal(k, s[0]);
      assert s[0] in s;
      forall j | 0 <= j < |r| ensures Less(s[0], r[j]) {
        assert r[j] in r;
        if r[j] != k { InTail(s, r[j]); TailIsLarger(s, r[j]); }
      }
    } else {
      forall j | 0 <= j < |s| ensures Less(k, s[j]) {
        if j > 0 { LessIsTransitive(k, s[0], s[j]); }
      }
    }
  }

  lemma TailIsLarger(s: seq<string>, x: string)
    requires s != [] && Ascending(s) && x in s[1..]
    ensures Less(s[0], x)
  {
    var i :| 0 <= i < |s| - 1 && s[1..][i] == x;
    assert Less(s[0], s[i + 1]);
  }

  /** The keys of an object in ascending order. */
  ghost function Sorted(keys: set<string>): (s: seq<string>)
    ensures Ascending(s) && forall k :: k in s <==> k in keys
  {
    if k :| k in keys then
      var rest := Sorted(keys - {k});
      InsertKeeps(rest, k);
      Insert(rest, k)
    else
      []
  }

  lemma AscendingHasNoRepeats(s: seq<string>)
    requires Ascending(s)
    ensures NoRepeats(s)
  {
    forall i, j | 0 <= i < j < |s| ensures s[i] != s[j] { LessIsTotal(s[i], s[j]); }
  }

  /** Ascending keys in every object. */
  ghost function ByKeys(path: Path, keys: set<string>): seq<string> {
    Sorted(keys)
  }

  lemma SortedIsOrder()
    ensures IsOrder(ByKeys)
  {
    forall path: Path, keys: set<string>
      ensures Lists(ByKeys(path, keys), keys)
    {
      AscendingHasNoRepeats(Sorted(keys));
    }
  }

  // ---------------------------------------------------------------- writing

  /** The text of a value when objects list their keys in this order. */
  ghost function Write(v: Json, order: Order, path: Path): string
    requires IsOrder(order)
    decreases v, 1, 0
  {
    match v
    case Null => "null"
    case Bool(truth) => if truth then "true" else "false"
    case Num(lexeme) => lexeme
    case Str(text) => Quoted(text)
    case Arr(items) => "[" + Items(v, order, path, 0) + "]"
    case Obj(fields) => "{" + Members(v, order, path, order(path, fields.Keys)) + "}"
  }

  /** The items from index i on, with commas between them. */
  ghost function Items(v: Json, order: Order, path: Path, i: nat): string
    requires IsOrder(order) && v.Arr? && i <= |v.items|
    decreases v, 0, |v.items| - i
  {
    if i == |v.items| then ""
    else if i == |v.items| - 1 then Write(v.items[i], order, path + [At(i)])
    else Write(v.items[i], order, path + [At(i)]) + "," + Items(v, order, path, i + 1)
  }

  /** The members with these keys, with commas between them. */
  ghost function Members(v: Json, order: Order, path: Path, keys: seq<string>): string
    requires IsOrder(order) && v.Obj? && forall k | k in keys :: k in v.fields
    decreases v, 0, |keys|
  {
    if keys == [] then ""
    else
      assert keys[0] in keys;
      var member := Quoted(keys[0]) + ":" + Write(v.fields[keys[0]], order, path + [Under(keys[0])]);
      if |keys| == 1 then member else member + "," + Members(v, order, path, keys[1..])
  }

  /** The canonical text. */
  ghost function Canonical(v: Json): string {
    SortedIsOrder();
    Write(v, ByKeys, [])
  }

  // ---------------------------------------------------------------- reading back

  lemma FirstIsSolid(v: Json, order: Order, path: Path)
    requires IsOrder(order) && WellFormed(v)
    ensures var s := Write(v, order, path);
            s != "" && SkipSpace(s) == s && s[0] != ']' && s[0] != '}' && s[0] != ',' && s[0] != ':'
  {
  }

  lemma NumberReads(lexeme: string, room: nat, t: string)
    requires IsNumber(lexeme) && EndsNumber(t)
    ensures ReadValue(lexeme + t, room) == Some(Read(Num(lexeme), t))
  {
    hide IsNumber, NumberLength, EndsNumber, ReadArray, ReadObject, ReadString;
    NumberThen(lexeme, t);
    NumberStart(lexeme);
    assert (lexeme + t)[..|lexeme|] == lexeme && (lexeme + t)[|lexeme|..] == t;
  }

  lemma NumberStart(lexeme: string)
    requires IsNumber(lexeme)
    ensures lexeme != "" && (lexeme[0] == '-' || Digit(lexeme[0]))
  {
  }

  lemma LiteralReads(v: Json, room: nat, t: string)
    requires v.Null? || v.Bool?
    ensures var word := if v.Null? then "null" else if v.truth then "true" else "false";
            ReadValue(word + t, room) == Some(Read(v, t))
  {
    var word := if v.Null? then "null" else if v.truth then "true" else "false";
    assert (word + t)[|word|..] == t;
  }

  lemma TextReads(text: string, room: nat, t: string)
    ensures ReadValue(Quoted(text) + t, room) == Some(Read(Str(text), t))
  {
    hide ReadString, EscapeAll, ReadArray, ReadObject, NumberLength;
    StringBack(text, t);
    assert (Quoted(text) + t)[1..] == EscapeAll(text) + "\"" + t;
  }

  /** What reading a written value gives: the value and the text after it, if there is room. */
  ghost predicate ReadsBack(v: Json, order: Order, path: Path, room: nat, t: string)
    requires IsOrder(order)
  {
    ReadValue(Write(v, order, path) + t, room) == if Fits(v, room) then Some(Read(v, t)) else None
  }

  lemma {:induction false} ValueReads(v: Json, order: Order, path: Path, room: nat, t: string)
    requires IsOrder(order) && WellFormed(v) && EndsNumber(t)
    ensures ReadsBack(v, order, path, room, t)
    decreases v, 1, 0
  {
    match v {
      case Null => LiteralReads(v, room, t);
      case Bool(_) => LiteralReads(v, room, t);
      case Num(lexeme) => NumberReads(lexeme, room, t);
      case Str(text) => TextReads(text, room, t);
      case Arr(_) => ArrayReads(v, order, path, room, t);
      case Obj(_) => ObjectReads(v, order, path, room, t);
    }
  }

  lemma ArrayOpens(inner: string, room: nat)
    ensures ReadValue("[" + inner, room) == if room == 0 then None else ReadArray(inner, room - 1)
  {
    hide ReadArray;
    assert ("[" + inner)[1..] == inner;
  }

  lemma {:induction false} ArrayBody(v: Json, order: Order, path: Path, room: nat, t: string)
    requires IsOrder(order) && WellFormed(v) && v.Arr?
    ensures ReadArray(Items(v, order, path, 0) + "]" + t, room) ==
            if forall k | 0 <= k < |v.items| :: Fits(v.items[k], room) then Some(Read(v, t)) else None
    decreases v, 0, |v.items| + 1
  {
    hide ReadValue, ReadItems, Items, WellFormed, Fits;
    if v.items == [] {
      EmptyArray(v, order, path, room, t);
    } else {
      ItemsRead(v, order, path, 0, room, t);
      ItemsStart(v, order, path, 0, "]" + t);
      Regroup(Items(v, order, path, 0), "]", t);
      assert v.items[0..] == v.items;
    }
  }

  lemma EmptyArray(v: Json, order: Order, path: Path, room: nat, t: string)
    requires IsOrder(order) && v == Arr([])
    ensures ReadArray(Items(v, order, path, 0) + "]" + t, room) == Some(Read(v, t))
  {
    assert Items(v, order, path, 0) + "]" + t == "]" + t && ("]" + t)[1..] == t;
  }

  lemma {:induction false} ArrayReads(v: Json, order: Order, path: Path, room: nat, t: string)
    requires IsOrder(order) && WellFormed(v) && EndsNumber(t) && v.Arr?
    ensures ReadsBack(v, order, path, room, t)
    decreases v, 0, |v.items| + 2
  {
    hide ReadValue, ReadArray, Items, WellFormed;
    var inner := Items(v, order, path, 0) + "]" + t;
    assert Write(v, order, path) + t == "[" + inner;
    ArrayOpens(inner, room);
    if room > 0 { ArrayBody(v, order, path, room - 1, t); }
  }

  lemma ItemsStart(v: Json, order: Order, path: Path, i: nat, t: string)
    requires IsOrder(order) && WellFormed(v) && v.Arr? && i < |v.items|
    ensures var s := Items(v, order, path, i) + t; s != "" && SkipSpace(s) == s && s[0] != ']'
  {
    FirstIsSolid(v.items[i], order, path + [At(i)]);
    var w := Write(v.items[i], order, path + [At(i)]);
    var s := Items(v, order, path, i) + t;
    assert s[0] == w[0];
  }

  lemma LastItem(text: string, room: nat, first: Json, t: string)
    requires ReadValue(text, room) == Some(Read(first, "]" + t))
    ensures ReadItems(text, room) == Some(Read([first], t))
  {
    hide ReadValue;
    assert ("]" + t)[1..] == t;
  }

  lemma NextItem(text: string, room: nat, first: Json, more: string)
    requires ReadValue(text, room) == Some(Read(first, "," + more))
    ensures ReadItems(text, room) ==
            match ReadItems(more, room)
            case None => None
            case Some(items) => Some(Read([first] + items.value, items.rest))
  {
    hide ReadValue;
    assert ("," + more)[1..] == more;
  }

  lemma NoItem(text: string, room: nat)
    requires ReadValue(text, room) == None
    ensures ReadItems(text, room) == None
  {
    hide ReadValue;
  }

  lemma ItemIsWellFormed(v: Json, i: nat)
    requires v.Arr? && WellFormed(v) && i < |v.items|
    ensures WellFormed(v.items[i])
  {
  }

  lemma Regroup(a: string, b: string, c: string)
    ensures (a + b) + c == a + (b + c)
  {
  }

  lemma CommaText(first: string, rest: string, close: string, t: string)
    ensures first + "," + rest + close + t == first + ("," + (rest + close + t))
  {
    Regroup(first + ",", rest, close);
    Regroup(first + ",", rest + close, t);
    Regroup(first, ",", rest + close + t);
  }

  lemma ItemsText(v: Json, order: Order, path: Path, i: nat, t: string)
    requires IsOrder(order) && v.Arr? && i < |v.items|
    ensures var follow := if i == |v.items| - 1 then "]" + t else "," + (Items(v, order, path, i + 1) + "]" + t);
            Items(v, order, path, i) + "]" + t == Write(v.items[i], order, path + [At(i)]) + follow
  {
    hide Write;
    var w := Write(v.items[i], order, path + [At(i)]);
    if i == |v.items| - 1 { Regroup(w, "]", t); } else { CommaText(w, Items(v, order, path, i + 1), "]", t); }
  }

  predicate ItemsFit(items: seq<Json>, i: nat, room: nat) {
    forall k | i <= k < |items| :: Fits(items[k], room)
  }

  lemma TailFrom(items: seq<Json>, i: nat)
    requires i < |items|
    ensures items[i..] == [items[i]] + items[i + 1..]
    ensures i == |items| - 1 ==> items[i..] == [items[i]]
  {
  }

  lemma ItemsFitOn(items: seq<Json>, i: nat, room: nat)
    requires i < |items|
    ensures ItemsFit(items, i, room) <==> Fits(items[i], room) && ItemsFit(items, i + 1, room)
    ensures ItemsFit(items, |items|, room)
  {
    hide Fits;
  }

  lemma {:induction false} ItemsRead(v: Json, order: Order, path: Path, i: nat, room: nat, t: string)
    requires IsOrder(order) && WellFormed(v) && v.Arr? && i < |v.items|
    ensures ReadItems(Items(v, order, path, i) + "]" + t, room) ==
            if ItemsFit(v.items, i, room) then Some(Read(v.items[i..], t)) else None
    decreases v, 0, |v.items| - i
  {
    hide ReadValue, ReadItems, Write, Fits, WellFormed, Items, ItemsFit;
    ItemsFitOn(v.items, i, room);
    TailFrom(v.items, i);
    var first := v.items[i];
    var w := Write(first, order, path + [At(i)]);
    var s := Items(v, order, path, i) + "]" + t;
    var follow := if i == |v.items| - 1 then "]" + t else "," + (Items(v, order, path, i + 1) + "]" + t);
    ItemsText(v, order, path, i, t);
    ItemIsWellFormed(v, i);
    ValueReads(first, order, path + [At(i)], room, follow);
    if !Fits(first, room) {
      NoItem(s, room);
    } else if i == |v.items| - 1 {
      LastItem(s, room, first, t);
    } else {
      NextItem(s, room, first, Items(v, order, path, i + 1) + "]" + t);
      ItemsRead(v, order, path, i + 1, room, t);
    }
  }

  function Pick(fields: map<string, Json>, keys: seq<string>): map<string, Json>
    requires forall k | k in keys :: k in fields
  {
    if keys == [] then map[]
    else
      assert keys[0] in keys;
      map[keys[0] := fields[keys[0]]] + Pick(fields, keys[1..])
  }

  lemma {:induction false} PickHolds(fields: map<string, Json>, keys: seq<string>)
    requires forall k | k in keys :: k in fields
    ensures forall k :: k in Pick(fields, keys) <==> k in keys
    ensures forall k | k in Pick(fields, keys) :: Pick(fields, keys)[k] == fields[k]
  {
    if keys != [] {
      assert keys == [keys[0]] + keys[1..];
      PickHolds(fields, keys[1..]);
    }
  }

  lemma PickAll(fields: map<string, Json>, keys: seq<string>)
    requires forall k :: k in keys <==> k in fields
    ensures Pick(fields, keys) == fields
  {
    PickHolds(fields, keys);
    assert forall k :: k in Pick(fields, keys) <==> k in fields;
  }

  lemma KeyReads(key: string, t: string)
    ensures ReadKey(Quoted(key) + ":" + t) == Some(Read(key, t))
  {
    hide ReadString, EscapeAll;
    var s := Quoted(key) + ":" + t;
    StringBack(key, ":" + t);
    assert s[1..] == EscapeAll(key) + "\"" + (":" + t);
    assert SkipSpace(s) == s && SkipSpace(":" + t) == ":" + t && (":" + t)[1..] == t;
  }

  lemma LastMember(text: string, key: string, u: string, room: nat, first: Json, t: string)
    requires ReadKey(text) == Some(Read(key, u)) && ReadValue(u, room) == Some(Read(first, "}" + t))
    ensures ReadMembers(text, room) == Some(Read(map[key := first], t))
  {
    hide ReadKey, ReadValue;
    assert ("}" + t)[1..] == t;
  }

  lemma NextMember(text: string, key: string, u: string, room: nat, first: Json, more: string)
    requires ReadKey(text) == Some(Read(key, u)) && ReadValue(u, room) == Some(Read(first, "," + more))
    ensures ReadMembers(text, room) ==
            match ReadMembers(more, room)
            case None => None
            case Some(m) => Some(Read(map[key := first] + m.value, m.rest))
  {
    hide ReadKey, ReadValue;
    assert ("," + more)[1..] == more;
  }

  lemma NoMember(text: string, key: string, u: string, room: nat)
    requires ReadKey(text) == Some(Read(key, u)) && ReadValue(u, room) == None
    ensures ReadMembers(text, room) == None
  {
    hide ReadKey, ReadValue;
  }

  lemma MembersText(v: Json, order: Order, path: Path, keys: seq<string>, t: string)
    requires IsOrder(order) && v.Obj? && keys != [] && forall k | k in keys :: k in v.fields
    ensures keys[0] in keys && forall k | k in keys[1..] :: k in v.fields
    ensures var follow := if |keys| == 1 then "}" + t else "," + (Members(v, order, path, keys[1..]) + "}" + t);
            Members(v, order, path, keys) + "}" + t ==
            Quoted(keys[0]) + ":" + (Write(v.fields[keys[0]], order, path + [Under(keys[0])]) + follow)
  {
    hide Write, Quoted;
    var key, w := Quoted(keys[0]) + ":", Write(v.fields[keys[0]], order, path + [Under(keys[0])]);
    if |keys| == 1 {
      Regroup(key + w, "}", t);
      Regroup(key, w, "}" + t);
    } else {
      var rest := Members(v, order, path, keys[1..]);
      CommaText(key + w, rest, "}", t);
      Regroup(key, w, "," + (rest + "}" + t));
    }
  }

  lemma {:induction false} MembersRead(v: Json, order: Order, path: Path, keys: seq<string>, room: nat, t: string)
    requires IsOrder(order) && WellFormed(v) && v.Obj? && keys != [] && NoRepeats(keys)
    requires forall k | k in keys :: k in v.fields
    ensures ReadMembers(Members(v, order, path, keys) + "}" + t, room) ==
            if forall k | k in keys :: Fits(v.fields[k], room) then Some(Read(Pick(v.fields, keys), t)) else None
    decreases v, 0, |keys|
  {
    hide ReadValue, ReadKey, ReadMembers, Write, Fits, Quoted, WellFormed, Members;
    var k := keys[0];
    assert k in keys && keys == [k] + keys[1..];
    var first := v.fields[k];
    var w := Write(first, order, path + [Under(k)]);
    var s := Members(v, order, path, keys) + "}" + t;
    var follow := if |keys| == 1 then "}" + t else "," + (Members(v, order, path, keys[1..]) + "}" + t);
    MembersText(v, order, path, keys, t);
    KeyReads(k, w + follow);
    FieldIsWellFormed(v, k);
    ValueReads(first, order, path + [Under(k)], room, follow);
    if !Fits(first, room) {
      NoMember(s, k, w + follow, room);
    } else if |keys| == 1 {
      LastMember(s, k, w + follow, room, first, t);
      assert Pick(v.fields, keys) == map[k := first];
    } else {
      NextMember(s, k, w + follow, room, first, Members(v, order, path, keys[1..]) + "}" + t);
      MembersRead(v, order, path, keys[1..], room, t);
    }
  }

  lemma FieldIsWellFormed(v: Json, k: string)
    requires v.Obj? && WellFormed(v) && k in v.fields
    ensures WellFormed(v.fields[k])
  {
  }

  lemma ObjectOpens(inner: string, room: nat)
    ensures ReadValue("{" + inner, room) == if room == 0 then None else ReadObject(inner, room - 1)
  {
    hide ReadObject;
    assert ("{" + inner)[1..] == inner;
  }

  lemma ObjectStarts(v: Json, order: Order, path: Path, keys: seq<string>, room: nat, t: string)
    requires IsOrder(order) && v.Obj? && keys != [] && forall k | k in keys :: k in v.fields
    ensures var inner := Members(v, order, path, keys) + "}" + t;
            ReadObject(inner, room) ==
            match ReadMembers(inner, room)
            case None => None
            case Some(fields) => Some(Read(Obj(fields.value), fields.rest))
  {
    hide ReadMembers, Write;
    assert (Members(v, order, path, keys) + "}" + t)[0] == '"';
  }

  lemma {:induction false} ObjectBody(v: Json, order: Order, path: Path, keys: seq<string>, room: nat, t: string)
    requires IsOrder(order) && WellFormed(v) && v.Obj? && Lists(keys, v.fields.Keys)
    ensures ReadObject(Members(v, order, path, keys) + "}" + t, room) ==
            if forall k | k in v.fields :: Fits(v.fields[k], room) then Some(Read(v, t)) else None
    decreases v, 0, |v.fields| + 1
  {
    hide ReadValue, ReadObject, ReadMembers, Members, WellFormed, Fits;
    if keys == [] {
      EmptyObject(v, order, path, room, t);
    } else {
      ListedOnce(keys, v.fields.Keys);
      MembersRead(v, order, path, keys, room, t);
      ObjectStarts(v, order, path, keys, room, t);
      PickAll(v.fields, keys);
    }
  }

  lemma {:induction false} ObjectReads(v: Json, order: Order, path: Path, room: nat, t: string)
    requires IsOrder(order) && WellFormed(v) && EndsNumber(t) && v.Obj?
    ensures ReadsBack(v, order, path, room, t)
    decreases v, 0, |v.fields| + 2
  {
    hide ReadValue, ReadObject, Members, WellFormed;
    var keys := order(path, v.fields.Keys);
    var inner := Members(v, order, path, keys) + "}" + t;
    assert Write(v, order, path) + t == "{" + inner;
    ObjectOpens(inner, room);
    assert Lists(keys, v.fields.Keys);
    if room > 0 { ObjectBody(v, order, path, keys, room - 1, t); }
  }

  lemma EmptyObject(v: Json, order: Order, path: Path, room: nat, t: string)
    requires IsOrder(order) && v.Obj? && forall k :: k !in v.fields
    ensures ReadObject(Members(v, order, path, []) + "}" + t, room) == Some(Read(v, t))
  {
    assert Members(v, order, path, []) + "}" + t == "}" + t && ("}" + t)[1..] == t;
    PickAll(v.fields, []);
  }

  lemma ListedOnce(keys: seq<string>, of: set<string>)
    requires Lists(keys, of)
    ensures |keys| == |of|
    decreases |keys|
  {
    if keys == [] {
      assert forall k :: k in of <==> k in {};
    } else {
      var k := keys[0];
      assert keys == [k] + keys[1..];
      assert forall x :: x in keys[1..] <==> x in of - {k};
      ListedOnce(keys[1..], of - {k});
    }
  }

  // ---------------------------------------------------------------- what the writer is for

  /** Parsing written text gives back the value exactly when its nesting is within the reader's bound,
      and is refused otherwise; whatever order the keys are written in. */
  lemma RoundTrip(v: Json, order: Order)
    requires IsOrder(order) && WellFormed(v)
    ensures Parse(Write(v, order, [])) == if Fits(v, MAX_DEPTH) then Some(v) else None
  {
    hide ReadValue, Write, Fits, WellFormed;
    ValueReads(v, order, [], MAX_DEPTH, "");
    assert Write(v, order, []) + "" == Write(v, order, []);
  }

  ghost function Normalize(raw: string): Option<string> {
    match Parse(raw)
    case None => None
    case Some(v) => Some(Canonical(v))
  }

  lemma ParseIsSound(raw: string)
    requires Parse(raw).Some?
    ensures WellFormed(Parse(raw).value) && Fits(Parse(raw).value, MAX_DEPTH)
  {
    ReadValueSound(raw, MAX_DEPTH);
  }

  /** What normalization writes, it reads back and leaves alone. */
  lemma NormalizeIsIdempotent(raw: string)
    requires Normalize(raw).Some?
    ensures Normalize(Normalize(raw).value) == Normalize(raw)
    ensures Parse(Normalize(raw).value) == Parse(raw)
  {
    hide Parse, Write, Fits, WellFormed;
    ParseIsSound(raw);
    SortedIsOrder();
    RoundTrip(Parse(raw).value, ByKeys);
  }

  /** The order of keys in the input makes no difference, however each object of it lists its own. */
  lemma KeyOrderIsForgotten(v: Json, order: Order)
    requires IsOrder(order) && WellFormed(v) && Fits(v, MAX_DEPTH)
    ensures Normalize(Write(v, order, [])) == Some(Canonical(v))
  {
    hide Parse, Write, Fits, WellFormed;
    RoundTrip(v, order);
  }

  lemma {:induction false} MoreRoom(v: Json, n: nat, m: nat)
    requires Fits(v, n) && n <= m
    ensures Fits(v, m)
    decreases v
  {
    match v {
      case Arr(items) =>
        forall i | 0 <= i < |items| ensures Fits(items[i], m - 1) { MoreRoom(items[i], n - 1, m - 1); }
      case Obj(fields) =>
        forall k | k in fields ensures Fits(fields[k], m - 1) { MoreRoom(fields[k], n - 1, m - 1); }
      case _ =>
    }
  }

  lemma {:induction false} SomeRoom(v: Json) returns (n: nat)
    ensures Fits(v, n)
    decreases v
  {
    n := 1;
    match v {
      case Arr(items) =>
        for i := 0 to |items|
          invariant 1 <= n && forall k | 0 <= k < i :: Fits(items[k], n - 1)
        {
          var m := SomeRoom(items[i]);
          var more := if n < m + 1 then m + 1 else n;
          forall k | 0 <= k < i ensures Fits(items[k], more - 1) { MoreRoom(items[k], n - 1, more - 1); }
          MoreRoom(items[i], m, more - 1);
          n := more;
        }
      case Obj(fields) =>
        var todo := fields.Keys;
        while exists k :: k in todo
          invariant todo <= fields.Keys && 1 <= n
          invariant forall k | k in fields && k !in todo :: Fits(fields[k], n - 1)
          decreases |todo|
        {
          var key :| key in todo;
          var m := SomeRoom(fields[key]);
          var more := if n < m + 1 then m + 1 else n;
          forall k | k in fields && k !in todo
            ensures Fits(fields[k], more - 1)
          {
            MoreRoom(fields[k], n - 1, more - 1);
          }
          MoreRoom(fields[key], m, more - 1);
          n := more;
          todo := todo - {key};
        }
      case _ =>
    }
  }

  /** Different values have different canonical texts, however deep they nest. */
  lemma CanonicalIsInjective(v: Json, w: Json)
    requires WellFormed(v) && WellFormed(w) && Canonical(v) == Canonical(w)
    ensures v == w
  {
    hide ReadValue, Write, Fits, WellFormed;
    SortedIsOrder();
    var n := SomeRoom(v);
    var m := SomeRoom(w);
    var room := if n < m then m else n;
    MoreRoom(v, n, room);
    MoreRoom(w, m, room);
    ValueReads(v, ByKeys, [], room, "");
    ValueReads(w, ByKeys, [], room, "");
  }

  /** Two texts normalize to the same bytes if and only if they mean the same value. */
  lemma SameBytesSameValue(x: string, y: string)
    requires Parse(x).Some? && Parse(y).Some?
    ensures Normalize(x) == Normalize(y) <==> Parse(x) == Parse(y)
  {
    hide Parse, Write, Fits, WellFormed;
    ParseIsSound(x);
    ParseIsSound(y);
    if Normalize(x) == Normalize(y) { CanonicalIsInjective(Parse(x).value, Parse(y).value); }
  }
}
