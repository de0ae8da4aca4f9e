/** Reading a JSON value: the grammar of RFC 8259 with a bound on how deep arrays and objects nest. */
module JsonReader {
  import opened StageTypes
  import opened JsonText

  /** Nesting beyond this is refused. */
  const MAX_DEPTH := 10_000

  function Literal(s: string, word: string, v: Json): (r: Option<Read<Json>>)
    requires word != ""
    ensures r.Some? ==> |r.value.rest| < |s|
  {
    if word <= s then Some(Read(v, s[|word|..])) else None
  }

  /** A value that may nest `room` levels of arrays and objects. */
  function ReadValue(text: string, room: nat): (r: Option<Read<Json>>)
    ensures r.Some? ==> |r.value.rest| < |text|
    decreases |text|, 2
  {
    var s := SkipSpace(text);
    if s == "" then None
    else
      match s[0]
      case 'n' => Literal(s, "null", Null)
      case 't' => Literal(s, "true", Bool(true))
      case 'f' => Literal(s, "false", Bool(false))
      case '"' =>
        (match ReadString(s[1..])
         case None => None
         case Some(text) => Some(Read(Str(text.value), text.rest)))
      case '[' => if room == 0 then None else ReadArray(s[1..], room - 1)
      case '{' => if room == 0 then None else ReadObject(s[1..], room - 1)
      case _ =>
        match NumberLength(s)
        case None => None
        case Some(n) => Some(Read(Num(s[..n]), s[n..]))
  }

  /** After the opening bracket. */
  function ReadArray(text: string, room: nat): (r: Option<Read<Json>>)
    ensures r.Some? ==> |r.value.rest| <= |text|
    decreases |text|, 4
  {
    var s := SkipSpace(text);
    if s != "" && s[0] == ']' then Some(Read(Arr([]), s[1..]))
    else
      match ReadItems(text, room)
      case None => None
      case Some(items) => Some(Read(Arr(items.value), items.rest))
  }

  function ReadItems(text: string, room: nat): (r: Option<Read<seq<Json>>>)
    ensures r.Some? ==> |r.value.rest| <= |text|
    decreases |text|, 3
  {
    match ReadValue(text, room)
    case None => None
    case Some(first) =>
      var s := SkipSpace(first.rest);
      if s != "" && s[0] == ']' then Some(Read([first.value], s[1..]))
      else if s != "" && s[0] == ',' then
        match ReadItems(s[1..], room)
        case None => None
        case Some(more) => Some(Read([first.value] + more.value, more.rest))
      else None
  }

  /** After the opening brace. */
  function ReadObject(text: string, room: nat): (r: Option<Read<Json>>)
    ensures r.Some? ==> |r.value.rest| <= |text|
    decreases |text|, 4
  {
    var s := SkipSpace(text);
    if s != "" && s[0] == '}' then Some(Read(Obj(map[]), s[1..]))
    else
      match ReadMembers(text, room)
      case None => None
      case Some(fields) => Some(Read(Obj(fields.value), fields.rest))
  }

  /** A key and its colon. */
  function ReadKey(text: string): (r: Option<Read<string>>)
    ensures r.Some? ==> |r.value.rest| < |text|
  {
    var s := SkipSpace(text);
    if s == "" || s[0] != '"' then None
    else
      match ReadString(s[1..])
      case None => None
      case Some(key) =>
        var c := SkipSpace(key.rest);
        if c == "" || c[0] != ':' then None else Some(Read(key.value, c[1..]))
  }

  /** Members until the closing brace; of two members with the same key the later one counts. */
  function ReadMembers(text: string, room: nat): (r: Option<Read<map<string, Json>>>)
    ensures r.Some? ==> |r.value.rest| <= |text|
    decreases |text|, 3
  {
    match ReadKey(text)
    case None => None
    case Some(key) =>
      match ReadValue(key.rest, room)
      case None => None
      case Some(first) =>
        var s := SkipSpace(first.rest);
        if s != "" && s[0] == '}' then Some(Read(map[key.value := first.value], s[1..]))
        else if s != "" && s[0] == ',' then
          match ReadMembers(s[1..], room)
          case None => None
          case Some(more) => Some(Read(map[key.value := first.value] + more.value, more.rest))
        else None
  }

  /** One value and nothing but space after it. */
  function Parse(text: string): Option<Json> {
    match ReadValue(text, MAX_DEPTH)
    case None => None
    case Some(v) => if SkipSpace(v.rest) == "" then Some(v.value) else None
  }

  // ---------------------------------------------------------------- what a reader returns

  /** The value nests at most `room` levels. */
  predicate Fits(v: Json, room: nat)
    decreases v
  {
    match v
    case Arr(items) => 0 < room && forall i | 0 <= i < |items| :: Fits(items[i], room - 1)
    case Obj(fields) => 0 < room && forall k | k in fields :: Fits(fields[k], room - 1)
    case _ => true
  }

  /** Every number is spelled as a number. */
  predicate WellFormed(v: Json)
    decreases v
  {
    match v
    case Num(lexeme) => IsNumber(lexeme)
    case Arr(items) => forall i | 0 <= i < |items| :: WellFormed(items[i])
    case Obj(fields) => forall k | k in fields :: WellFormed(fields[k])
    case _ => true
  }

  lemma {:induction false} ReadValueSound(text: string, room: nat)
    requires ReadValue(text, room).Some?
    ensures WellFormed(ReadValue(text, room).value.value) && Fits(ReadValue(text, room).value.value, room)
    decreases |text|, 2
  {
    var s := SkipSpace(text);
    match s[0] {
      case '[' => ReadArraySound(s[1..], room - 1);
      case '{' => ReadObjectSound(s[1..], room - 1);
      case 'n' =>
      case 't' =>
      case 'f' =>
      case '"' =>
      case _ => NumberPrefix(s);
    }
  }

  lemma {:induction false} ReadArraySound(text: string, room: nat)
    requires ReadArray(text, room).Some?
    ensures WellFormed(ReadArray(text, room).value.value) && Fits(ReadArray(text, room).value.value, room + 1)
    decreases |text|, 4
  {
    var s := SkipSpace(text);
    if !(s != "" && s[0] == ']') { ReadItemsSound(text, room); }
  }

  lemma {:induction false} ReadItemsSound(text: string, room: nat)
    requires ReadItems(text, room).Some?
    ensures forall v | v in ReadItems(text, room).value.value :: WellFormed(v) && Fits(v, room)
    decreases |text|, 3
  {
    ReadValueSound(text, room);
    var s := SkipSpace(ReadValue(text, room).value.rest);
    if s[0] != ']' { ReadItemsSound(s[1..], room); }
  }

  lemma {:induction false} ReadObjectSound(text: string, room: nat)
    requires ReadObject(text, room).Some?
    ensures WellFormed(ReadObject(text, room).value.value) && Fits(ReadObject(text, room).value.value, room + 1)
    decreases |text|, 4
  {
    var s := SkipSpace(text);
    if !(s != "" && s[0] == '}') { ReadMembersSound(text, room); }
  }

  lemma {:induction false} ReadMembersSound(text: string, room: nat)
    requires ReadMembers(text, room).Some?
    ensures var m := ReadMembers(text, room).value.value; forall k | k in m :: WellFormed(m[k]) && Fits(m[k], room)
    decreases |text|, 3
  {
    var rest := ReadKey(text).value.rest;
    ReadValueSound(rest, room);
    var s := SkipSpace(ReadValue(rest, room).value.rest);
    if s[0] != '}' { ReadMembersSound(s[1..], room); }
  }
}
