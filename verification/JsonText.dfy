/** JSON text, sections 2 to 7 of RFC 8259: values, a reader that decides the grammar as Go's decoder
    does, and the escaping that its encoder writes. Text is a sequence of Unicode scalar values. */
module JsonText {
  import opened StageTypes

  /** A decoded value; numbers keep their spelling. */
  datatype Json =
    | Null
    | Bool(truth: bool)
    | Num(lexeme: string)
    | Str(text: string)
    | Arr(items: seq<Json>)
    | Obj(fields: map<string, Json>)

  datatype Read<T> = Read(value: T, rest: string)

  function SkipSpace(s: string): (r: string)
    ensures |r| <= |s|
  {
    if s != "" && (s[0] == ' ' || s[0] == '\t' || s[0] == '\n' || s[0] == '\r') then SkipSpace(s[1..]) else s
  }

  // ---------------------------------------------------------------- numbers

  predicate Digit(c: char) {
    '0' <= c <= '9'
  }

  /** How many digits the text starts with. */
  function Digits(s: string): (n: nat)
    ensures n <= |s|
  {
    if s != "" && Digit(s[0]) then 1 + Digits(s[1..]) else 0
  }

  function IntegerLength(s: string): (n: Option<nat>)
    ensures n.Some? ==> 0 < n.value <= |s|
  {
    if s == "" || !Digit(s[0]) then None else if s[0] == '0' then Some(1) else Some(Digits(s))
  }

  function FractionLength(s: string): (n: Option<nat>)
    ensures n.Some? ==> n.value <= |s|
  {
    if s == "" || s[0] != '.' then Some(0) else if Digits(s[1..]) == 0 then None else Some(1 + Digits(s[1..]))
  }

  function SignLength(s: string): (n: nat)
    ensures n <= |s|
  {
    if s != "" && (s[0] == '+' || s[0] == '-') then 1 else 0
  }

  function ExponentLength(s: string): (n: Option<nat>)
    ensures n.Some? ==> n.value <= |s|
  {
    if s == "" || (s[0] != 'e' && s[0] != 'E') then Some(0)
    else
      var sign := SignLength(s[1..]);
      var digits := Digits(s[1 + sign..]);
      if digits == 0 then None else Some(1 + sign + digits)
  }

  /** The length of the number that the text starts with. */
  function NumberLength(s: string): (n: Option<nat>)
    ensures n.Some? ==> 0 < n.value <= |s|
  {
    var minus := if s != "" && s[0] == '-' then 1 else 0;
    match IntegerLength(s[minus..])
    case None => None
    case Some(i) =>
      match FractionLength(s[minus + i..])
      case None => None
      case Some(f) =>
        match ExponentLength(s[minus + i + f..])
        case None => None
        case Some(e) => Some(minus + i + f + e)
  }

  predicate IsNumber(s: string) {
    NumberLength(s) == Some(|s|)
  }

  /** What follows a number must not be able to continue it. */
  predicate EndsNumber(t: string) {
    t == "" || !(Digit(t[0]) || t[0] == '.' || t[0] == 'e' || t[0] == 'E')
  }

  lemma {:induction false} DigitsThen(s: string, t: string)
    requires t == "" || !Digit(t[0])
    ensures Digits(s + t) == Digits(s)
  {
    if s == "" {
      assert s + t == t;
    } else {
      assert (s + t)[1..] == s[1..] + t;
      DigitsThen(s[1..], t);
    }
  }

  lemma IntegerThen(s: string, t: string)
    requires IntegerLength(s).Some? && (t == "" || !Digit(t[0]))
    ensures IntegerLength(s + t) == IntegerLength(s)
  {
    DigitsThen(s, t);
  }

  lemma FractionThen(s: string, t: string)
    requires FractionLength(s).Some? && EndsNumber(t)
    ensures FractionLength(s + t) == FractionLength(s)
  {
    if s == "" {
      assert s + t == t;
    } else {
      assert (s + t)[1..] == s[1..] + t;
      DigitsThen(s[1..], t);
    }
  }

  lemma ExponentThen(s: string, t: string)
    requires ExponentLength(s).Some? && EndsNumber(t)
    ensures ExponentLength(s + t) == ExponentLength(s)
  {
    if s == "" {
      assert s + t == t;
    } else if s[0] == 'e' || s[0] == 'E' {
      var sign := SignLength(s[1..]);
      assert (s + t)[1..] == s[1..] + t;
      assert s[1..] != "";
      assert (s + t)[1 + sign..] == s[1 + sign..] + t;
      DigitsThen(s[1 + sign..], t);
    }
  }

  /** A number is read back whole whatever harmless text follows it. */
  lemma NumberThen(s: string, t: string)
    requires IsNumber(s) && EndsNumber(t)
    ensures NumberLength(s + t) == Some(|s|)
  {
    hide IntegerLength, FractionLength, ExponentLength;
    var minus := if s != "" && s[0] == '-' then 1 else 0;
    var i := IntegerLength(s[minus..]).value;
    var f := FractionLength(s[minus + i..]).value;
    assert (s + t)[minus..] == s[minus..] + t;
    IntegerThen(s[minus..], t);
    assert (s + t)[minus + i..] == s[minus + i..] + t;
    FractionThen(s[minus + i..], t);
    assert (s + t)[minus + i + f..] == s[minus + i + f..] + t;
    ExponentThen(s[minus + i + f..], t);
  }

  lemma {:induction false} DigitsOf(s: string, k: nat)
    requires k <= |s|
    ensures Digits(s[..k]) == if k < Digits(s) then k else Digits(s)
  {
    if k > 0 && Digit(s[0]) {
      assert s[..k][1..] == s[1..][..k - 1];
      DigitsOf(s[1..], k - 1);
    }
  }

  lemma IntegerOf(s: string, k: nat)
    requires IntegerLength(s).Some? && IntegerLength(s).value <= k <= |s|
    ensures IntegerLength(s[..k]) == IntegerLength(s)
  {
    DigitsOf(s, k);
  }

  lemma FractionOf(s: string, k: nat)
    requires FractionLength(s).Some? && FractionLength(s).value <= k <= |s|
    ensures FractionLength(s[..k]) == FractionLength(s)
  {
    if k > 0 {
      assert s[..k][1..] == s[1..][..k - 1];
      DigitsOf(s[1..], k - 1);
    }
  }

  lemma ExponentOf(s: string, k: nat)
    requires ExponentLength(s).Some? && ExponentLength(s).value <= k <= |s|
    ensures ExponentLength(s[..k]) == ExponentLength(s)
  {
    if k > 0 && (s[0] == 'e' || s[0] == 'E') {
      var sign := SignLength(s[1..]);
      assert s[..k][1..] == s[1..][..k - 1];
      assert s[..k][1 + sign..] == s[1 + sign..][..k - 1 - sign];
      DigitsOf(s[1 + sign..], k - 1 - sign);
    }
  }

  /** The number that a text starts with is a number by itself. */
  lemma NumberPrefix(s: string)
    requires NumberLength(s).Some?
    ensures IsNumber(s[..NumberLength(s).value])
  {
    hide IntegerLength, FractionLength, ExponentLength;
    var n := NumberLength(s).value;
    var p := s[..n];
    var minus := if s != "" && s[0] == '-' then 1 else 0;
    var i := IntegerLength(s[minus..]).value;
    var f := FractionLength(s[minus + i..]).value;
    assert p[minus..] == s[minus..][..n - minus];
    IntegerOf(s[minus..], n - minus);
    assert p[minus + i..] == s[minus + i..][..n - minus - i];
    FractionOf(s[minus + i..], n - minus - i);
    assert p[minus + i + f..] == s[minus + i + f..][..n - minus - i - f];
    ExponentOf(s[minus + i + f..], n - minus - i - f);
  }

  // ---------------------------------------------------------------- strings

  function HexDigit(n: int): char
    requires 0 <= n < 16
  {
    if n < 10 then '0' + n as char else 'a' + (n - 10) as char
  }

  function HexValue(c: char): (v: Option<int>)
    ensures v.Some? ==> 0 <= v.value < 16
  {
    if '0' <= c <= '9' then Some(c as int - '0' as int)
    else if 'a' <= c <= 'f' then Some(c as int - 'a' as int + 10)
    else if 'A' <= c <= 'F' then Some(c as int - 'A' as int + 10)
    else None
  }

  /** Four hexadecimal digits. */
  function Hex4(s: string): (n: Option<int>)
    ensures n.Some? ==> 0 <= n.value < 0x10000 && 4 <= |s|
  {
    if |s| < 4 then None
    else
      var a, b, c, d := HexValue(s[0]), HexValue(s[1]), HexValue(s[2]), HexValue(s[3]);
      if a.None? || b.None? || c.None? || d.None? then None
      else Some(((a.value * 16 + b.value) * 16 + c.value) * 16 + d.value)
  }

  const REPLACEMENT: char := '\U{FFFD}'

  /** The character of a \u escape, and how much text it takes: a surrogate pair takes two escapes, a
      lone surrogate becomes the replacement character. */
  function Unicode(s: string): (r: Option<Read<char>>)
    requires 2 <= |s| && s[0] == '\\' && s[1] == 'u'
    ensures r.Some? ==> |r.value.rest| < |s|
  {
    match Hex4(s[2..])
    case None => None
    case Some(n) =>
      if n < 0xD800 || 0xE000 <= n then Some(Read(n as char, s[6..]))
      else if 8 <= |s| && n < 0xDC00 && s[6] == '\\' && s[7] == 'u' && Hex4(s[8..]).Some? &&
              0xDC00 <= Hex4(s[8..]).value < 0xE000
      then Some(Read((0x10000 + (n - 0xD800) * 0x400 + (Hex4(s[8..]).value - 0xDC00)) as char, s[12..]))
      else Some(Read(REPLACEMENT, s[6..]))
  }

  /** One character of a string body, escaped or not. */
  function ReadChar(s: string): (r: Option<Read<char>>)
    requires s != "" && s[0] != '"'
    ensures r.Some? ==> |r.value.rest| < |s|
  {
    if s[0] < ' ' then None
    else if s[0] != '\\' then Some(Read(s[0], s[1..]))
    else if |s| < 2 then None
    else
      match s[1]
      case '"' => Some(Read('"', s[2..]))
      case '\\' => Some(Read('\\', s[2..]))
      case '/' => Some(Read('/', s[2..]))
      case 'b' => Some(Read('\U{8}', s[2..]))
      case 'f' => Some(Read('\U{C}', s[2..]))
      case 'n' => Some(Read('\n', s[2..]))
      case 'r' => Some(Read('\r', s[2..]))
      case 't' => Some(Read('\t', s[2..]))
      case 'u' => Unicode(s)
      case _ => None
  }

  /** The rest of a string after its opening quote. */
  function ReadString(s: string): (r: Option<Read<string>>)
    ensures r.Some? ==> |r.value.rest| < |s|
  {
    if s == "" then None
    else if s[0] == '"' then Some(Read("", s[1..]))
    else
      match ReadChar(s)
      case None => None
      case Some(c) =>
        match ReadString(c.rest)
        case None => None
        case Some(more) => Some(Read([c.value] + more.value, more.rest))
  }

  /** How the encoder writes one character. Angle brackets, ampersands and the two line separators are
      escaped as well. */
  function Escape(c: char): string {
    if c == '"' then "\\\""
    else if c == '\\' then "\\\\"
    else if c == '\U{8}' then "\\b"
    else if c == '\U{C}' then "\\f"
    else if c == '\n' then "\\n"
    else if c == '\r' then "\\r"
    else if c == '\t' then "\\t"
    else if c < ' ' || c == '<' || c == '>' || c == '&' then
      "\\u00" + [HexDigit(c as int / 16), HexDigit(c as int % 16)]
    else if c == '\U{2028}' then "\\u2028"
    else if c == '\U{2029}' then "\\u2029"
    else [c]
  }

  function EscapeAll(s: string): string {
    if s == "" then "" else Escape(s[0]) + EscapeAll(s[1..])
  }

  function Quoted(s: string): string {
    "\"" + EscapeAll(s) + "\""
  }

  lemma HexBack(n: int)
    requires 0 <= n < 16
    ensures HexValue(HexDigit(n)) == Some(n)
  {
  }

  lemma EscapeBack(c: char, t: string)
    ensures var s := Escape(c) + t; s != "" && s[0] != '"' && ReadChar(s) == Some(Read(c, t))
  {
    var s := Escape(c) + t;
    if c < ' ' || c == '<' || c == '>' || c == '&' {
      if |Escape(c)| == 6 {
        HexBack(c as int / 16);
        HexBack(c as int % 16);
        assert s[..6] == Escape(c) && s[6..] == t;
        assert s[2..][0] == '0' && s[2..][1] == '0' && s[2..][2] == HexDigit(c as int / 16) &&
               s[2..][3] == HexDigit(c as int % 16);
        assert Hex4(s[2..]) == Some(c as int);
      } else {
        assert s[2..] == t;
      }
    } else if c == '\U{2028}' || c == '\U{2029}' {
      assert s[6..] == t && s[2..][0] == '2' && s[2..][1] == '0' && s[2..][2] == '2' &&
             s[2..][3] == (if c == '\U{2028}' then '8' else '9');
    } else if c == '"' || c == '\\' {
      assert s[2..] == t;
    } else {
      assert s[1..] == t;
    }
  }

  /** An escaped string is read back, up to its closing quote and no further. */
  lemma {:induction false} StringBack(s: string, t: string)
    ensures ReadString(EscapeAll(s) + "\"" + t) == Some(Read(s, t))
  {
    if s == "" {
      assert EscapeAll(s) + "\"" + t == "\"" + t;
    } else {
      var more := EscapeAll(s[1..]) + "\"" + t;
      assert EscapeAll(s) + "\"" + t == Escape(s[0]) + more;
      EscapeBack(s[0], more);
      StringBack(s[1..], t);
      assert [s[0]] + s[1..] == s;
    }
  }
}
