/** How numbers, strings and space are spelled in JSON, sections 2, 6, 7 and 8 of RFC 8259, and the proof that the
    reader takes exactly these spellings for what they mean. */
module JsonSpelling {
  import opened StageTypes
  import opened JsonText

  // ---------------------------------------------------------------- numbers

  predicate AllDigits(s: string) {
    forall i | 0 <= i < |s| :: '0' <= s[i] <= '9'
  }

  /** No digit but a zero stands alone in front. */
  predicate IntegerPart(s: string) {
    s != "" && AllDigits(s) && (s[0] == '0' ==> s == "0")
  }

  predicate FractionPart(s: string) {
    s == "" || (1 < |s| && s[0] == '.' && AllDigits(s[1..]))
  }

  predicate ExponentPart(s: string) {
    || s == ""
    || (1 < |s| && (s[0] == 'e' || s[0] == 'E') && AllDigits(s[1..]))
    || (2 < |s| && (s[0] == 'e' || s[0] == 'E') && (s[1] == '+' || s[1] == '-') && AllDigits(s[2..]))
  }

  /** The number grammar of section 6 of RFC 8259. */
  predicate NumberParts(minus: string, integer: string, fraction: string, exponent: string) {
    (minus == "" || minus == "-") && IntegerPart(integer) && FractionPart(fraction) && ExponentPart(exponent)
  }

  lemma {:induction false} DigitsAre(s: string)
    ensures AllDigits(s[..Digits(s)])
    ensures Digits(s) < |s| ==> !Digit(s[Digits(s)])
  {
    if s != "" && Digit(s[0]) {
      DigitsAre(s[1..]);
      assert s[1..][..Digits(s[1..])] == s[1..Digits(s)];
    }
  }

  lemma {:induction false} DigitsCount(d: string, t: string)
    requires AllDigits(d) && (t == "" || !Digit(t[0]))
    ensures Digits(d + t) == |d|
  {
    if d == "" {
      assert d + t == t;
    } else {
      assert (d + t)[1..] == d[1..] + t;
      DigitsCount(d[1..], t);
    }
  }

  lemma IntegerIsPart(s: string)
    requires IntegerLength(s).Some?
    ensures IntegerPart(s[..IntegerLength(s).value])
  {
    DigitsAre(s);
  }

  lemma FractionIsPart(s: string)
    requires FractionLength(s).Some?
    ensures FractionPart(s[..FractionLength(s).value])
  {
    if s != "" && s[0] == '.' {
      DigitsAre(s[1..]);
      assert s[..1 + Digits(s[1..])][1..] == s[1..][..Digits(s[1..])];
    }
  }

  lemma ExponentIsPart(s: string)
    requires ExponentLength(s).Some?
    ensures ExponentPart(s[..ExponentLength(s).value])
  {
    if s != "" && (s[0] == 'e' || s[0] == 'E') {
      var sign := SignLength(s[1..]);
      var n := ExponentLength(s).value;
      DigitsAre(s[1 + sign..]);
      assert s[..n][1 + sign..] == s[1 + sign..][..n - 1 - sign];
    }
  }

  /** Every number that the reader takes follows the grammar. */
  lemma NumberHasParts(s: string) returns (minus: string, integer: string, fraction: string, exponent: string)
    requires IsNumber(s)
    ensures NumberParts(minus, integer, fraction, exponent) && s == minus + integer + fraction + exponent
  {
    hide IntegerPart, FractionPart, ExponentPart, IntegerLength, FractionLength, ExponentLength;
    var m := if s != "" && s[0] == '-' then 1 else 0;
    var i := IntegerLength(s[m..]).value;
    var f := FractionLength(s[m + i..]).value;
    minus, integer, fraction, exponent := s[..m], s[m..][..i], s[m + i..][..f], s[m + i + f..];
    IntegerIsPart(s[m..]);
    FractionIsPart(s[m + i..]);
    ExponentIsPart(s[m + i + f..]);
    assert s[m + i + f..][..|s| - m - i - f] == s[m + i + f..];
    assert s == s[..m] + s[m..][..i] + s[m + i..][..f] + s[m + i + f..];
  }

  lemma IntegerCounts(integer: string, t: string)
    requires IntegerPart(integer) && (t == "" || !Digit(t[0]))
    ensures IntegerLength(integer + t) == Some(|integer|)
  {
    DigitsCount(integer, t);
  }

  lemma FractionCounts(fraction: string, t: string)
    requires FractionPart(fraction) && (t == "" || t[0] == 'e' || t[0] == 'E')
    ensures FractionLength(fraction + t) == Some(|fraction|)
  {
    if fraction == "" {
      assert fraction + t == t;
    } else {
      assert (fraction + t)[1..] == fraction[1..] + t;
      DigitsCount(fraction[1..], t);
    }
  }

  lemma ExponentCounts(exponent: string)
    requires ExponentPart(exponent)
    ensures ExponentLength(exponent) == Some(|exponent|)
  {
    if exponent != "" {
      var sign := SignLength(exponent[1..]);
      DigitsCount(exponent[1 + sign..], "");
      assert exponent[1 + sign..] + "" == exponent[1 + sign..];
    }
  }

  lemma FirstsFit(integer: string, fraction: string, exponent: string)
    requires IntegerPart(integer) && FractionPart(fraction) && ExponentPart(exponent)
    ensures integer != "" && integer[0] != '-'
    ensures exponent == "" || exponent[0] == 'e' || exponent[0] == 'E'
    ensures fraction + exponent == "" || !Digit((fraction + exponent)[0])
  {
  }

  /** And whatever follows the grammar is a number. */
  lemma PartsAreNumber(minus: string, integer: string, fraction: string, exponent: string)
    requires NumberParts(minus, integer, fraction, exponent)
    ensures IsNumber(minus + integer + fraction + exponent)
  {
    hide IntegerPart, FractionPart, ExponentPart, IntegerLength, FractionLength, ExponentLength;
    var s := minus + integer + fraction + exponent;
    var tail := fraction + exponent;
    FirstsFit(integer, fraction, exponent);
    IntegerCounts(integer, tail);
    FractionCounts(fraction, exponent);
    ExponentCounts(exponent);
    var m := if s != "" && s[0] == '-' then 1 else 0;
    assert m == |minus|;
    assert s[m..] == integer + tail;
    assert s[m + |integer|..] == fraction + exponent;
    assert s[m + |integer| + |fraction|..] == exponent;
  }

  // ---------------------------------------------------------------- space

  predicate Space(s: string) {
    forall c | c in s :: c in " \t\n\r"
  }

  predicate Solid(c: char) {
    c !in " \t\n\r"
  }

  lemma {:induction false} SpaceSplits(s: string) returns (a: string)
    ensures s == a + SkipSpace(s) && Space(a) && (SkipSpace(s) != "" ==> Solid(SkipSpace(s)[0]))
  {
    if s != "" && (s[0] == ' ' || s[0] == '\t' || s[0] == '\n' || s[0] == '\r') {
      var rest := SpaceSplits(s[1..]);
      a := [s[0]] + rest;
    } else {
      a := "";
    }
  }

  lemma {:induction false} SpaceDrops(a: string, s: string)
    requires Space(a) && (s == "" || Solid(s[0]))
    ensures SkipSpace(a + s) == s
  {
    if a == "" {
      assert a + s == s;
    } else {
      assert a[0] in a && forall c | c in a[1..] :: c in a;
      assert (a + s)[1..] == a[1..] + s;
      SpaceDrops(a[1..], s);
    }
  }

  // ---------------------------------------------------------------- strings

  /** One character as it is, after a backslash, or as four hexadecimal digits with these values. */
  datatype Piece = Raw(itself: char) | Short(sign: char) | Hex(digits: string, a: int, b: int, c: int, d: int)

  function Code(p: Piece): int
    requires p.Hex?
  {
    0x1000 * p.a + 0x100 * p.b + 0x10 * p.c + p.d
  }

  predicate HexIs(c: char, d: int) {
    0 <= d < 16 && (c == "0123456789abcdef"[d] || c == "0123456789ABCDEF"[d])
  }

  predicate IsPiece(p: Piece) {
    match p
    case Raw(c) => ' ' <= c && c != '"' && c != '\\'
    case Short(c) => c in {'"', '\\', '/', 'b', 'f', 'n', 'r', 't'}
    case Hex(digits, a, b, c, d) =>
      |digits| == 4 && HexIs(digits[0], a) && HexIs(digits[1], b) && HexIs(digits[2], c) && HexIs(digits[3], d)
  }

  function Spell(p: Piece): string {
    match p
    case Raw(c) => [c]
    case Short(c) => ['\\', c]
    case Hex(digits, _, _, _, _) => "\\u" + digits
  }

  function SpellAll(ps: seq<Piece>): string {
    if ps == [] then "" else Spell(ps[0]) + SpellAll(ps[1..])
  }

  predicate ShortFor(c: char, meant: char) {
    match c
    case 'b' => meant == '\U{8}'
    case 'f' => meant == '\U{C}'
    case 'n' => meant == '\n'
    case 'r' => meant == '\r'
    case 't' => meant == '\t'
    case _ => meant == c
  }

  predicate High(p: Piece) {
    p.Hex? && 0xD800 <= Code(p) < 0xDC00
  }

  predicate Low(p: Piece) {
    p.Hex? && 0xDC00 <= Code(p) < 0xE000
  }

  /** The first two pieces are one character outside the basic plane. */
  predicate Pair(ps: seq<Piece>) {
    1 < |ps| && High(ps[0]) && Low(ps[1])
  }

  /** What the first piece, or the first pair, stands for; UTF-16 splits a code point like this. A surrogate without
      its partner stands for the replacement character. */
  predicate FirstMeans(ps: seq<Piece>, meant: char)
    requires ps != []
  {
    match ps[0]
    case Raw(c) => meant == c
    case Short(c) => ShortFor(c, meant)
    case Hex(_, _, _, _, _) =>
      if Pair(ps) then
        var n := meant as int - 0x1_0000;
        0 <= n && Code(ps[0]) == 0xD800 + n / 0x400 && Code(ps[1]) == 0xDC00 + n % 0x400
      else if High(ps[0]) || Low(ps[0]) then meant == '\U{FFFD}'
      else meant as int == Code(ps[0])
  }

  predicate Means(ps: seq<Piece>, text: string) {
    if ps == [] then text == ""
    else
      && text != "" && IsPiece(ps[0]) && FirstMeans(ps, text[0])
      && if Pair(ps) then IsPiece(ps[1]) && Means(ps[2..], text[1..]) else Means(ps[1..], text[1..])
  }

  lemma HexReads(c: char)
    ensures HexValue(c).Some? ==> HexIs(c, HexValue(c).value)
    ensures forall d :: HexIs(c, d) ==> HexValue(c) == Some(d)
  {
  }

  lemma Hex4Reads(p: Piece, t: string)
    requires p.Hex? && IsPiece(p)
    ensures Hex4(p.digits + t) == Some(Code(p))
  {
    hide HexIs, HexValue;
    var s := p.digits + t;
    HexReads(p.digits[0]);
    HexReads(p.digits[1]);
    HexReads(p.digits[2]);
    HexReads(p.digits[3]);
  }

  /** The piece that four digits spell. */
  function HexPiece(s: string): (p: Piece)
    requires Hex4(s).Some?
  {
    Hex(s[..4], HexValue(s[0]).value, HexValue(s[1]).value, HexValue(s[2]).value, HexValue(s[3]).value)
  }

  lemma Hex4Means(s: string)
    requires Hex4(s).Some?
    ensures IsPiece(HexPiece(s)) && Code(HexPiece(s)) == Hex4(s).value
  {
    hide HexIs, HexValue;
    HexReads(s[0]);
    HexReads(s[1]);
    HexReads(s[2]);
    HexReads(s[3]);
  }

  predicate StartsHex(s: string) {
    2 <= |s| && s[0] == '\\' && s[1] == 'u'
  }

  /** The text goes on with the escape of a low surrogate. */
  predicate StartsLow(s: string) {
    StartsHex(s) && Hex4(s[2..]).Some? && 0xDC00 <= Hex4(s[2..]).value < 0xE000
  }

  lemma UnicodeIs(s: string)
    requires 2 <= |s| && s[0] == '\\' && s[1] == 'u' && Hex4(s[2..]).Some?
    ensures var n := Hex4(s[2..]).value;
            Unicode(s) == Some(
              if n < 0xD800 || 0xE000 <= n then Read(n as char, s[6..])
              else if n < 0xDC00 && StartsLow(s[6..])
              then Read((0x1_0000 + (n - 0xD800) * 0x400 + (Hex4(s[8..]).value - 0xDC00)) as char, s[12..])
              else Read('\U{FFFD}', s[6..]))
  {
    hide Hex4;
    if StartsLow(s[6..]) { assert s[6..][2..] == s[8..]; }
    if 8 <= |s| { assert s[6..][2..] == s[8..]; }
  }

  lemma HexStarts(p: Piece, more: string)
    requires IsPiece(p)
    ensures StartsHex(Spell(p) + more) <==> p.Hex?
  {
    hide HexIs;
    var s := Spell(p) + more;
    if p.Short? { assert s[1] == p.sign; }
  }

  lemma HexSpells(p: Piece, more: string)
    requires IsPiece(p) && p.Hex?
    ensures var s := Spell(p) + more; Hex4(s[2..]) == Some(Code(p)) && 6 <= |s| && s[6..] == more
  {
    hide HexIs, Hex4;
    var s := Spell(p) + more;
    Hex4Reads(p, more);
    assert s[2..] == p.digits + more;
  }

  /** A string body that starts with a four-digit escape. */
  lemma HexFirst(ps: seq<Piece>, t: string)
    requires ps != [] && IsPiece(ps[0])
    ensures var s := SpellAll(ps) + "\"" + t;
            && (ps[0].Hex? <==> StartsHex(s))
            && (ps[0].Hex? ==>
                  Hex4(s[2..]) == Some(Code(ps[0])) && 6 <= |s| && s[6..] == SpellAll(ps[1..]) + "\"" + t)
  {
    hide Hex4, IsPiece, Spell;
    var s, more := SpellAll(ps) + "\"" + t, SpellAll(ps[1..]) + "\"" + t;
    assert s == Spell(ps[0]) + more;
    HexStarts(ps[0], more);
    if ps[0].Hex? { HexSpells(ps[0], more); }
  }

  lemma LowExactly(ps: seq<Piece>, t: string)
    requires ps == [] || IsPiece(ps[0])
    ensures StartsLow(SpellAll(ps) + "\"" + t) <==> ps != [] && Low(ps[0])
  {
    hide Hex4, IsPiece;
    if ps != [] {
      HexFirst(ps, t);
    } else {
      assert SpellAll(ps) + "\"" + t == "\"" + t;
    }
  }

  /** The reader takes the first piece, or the first pair, as what it stands for. */
  lemma PieceReads(ps: seq<Piece>, text: string, t: string)
    requires ps != [] && Means(ps, text)
    ensures var s := SpellAll(ps) + "\"" + t;
            && s[0] != '"'
            && ReadChar(s) == Some(Read(text[0], SpellAll(if Pair(ps) then ps[2..] else ps[1..]) + "\"" + t))
  {
    hide ReadChar, IsPiece;
    var s, more := SpellAll(ps) + "\"" + t, SpellAll(ps[1..]) + "\"" + t;
    assert s == Spell(ps[0]) + more;
    match ps[0] {
      case Hex(_, _, _, _, _) =>
        HexStarts(ps[0], more);
        ReadsHex(s);
        EscapeReads(ps, text, t);
      case Short(c) => ShortReads(c, text[0], more);
      case Raw(c) => RawReads(c, more);
    }
  }

  lemma ReadsHex(s: string)
    requires StartsHex(s)
    ensures ReadChar(s) == Unicode(s)
  {
    hide Unicode;
  }

  lemma RawReads(c: char, more: string)
    requires IsPiece(Raw(c))
    ensures c != '"' && ReadChar([c] + more) == Some(Read(c, more))
  {
    hide Unicode;
    assert ([c] + more)[1..] == more;
  }

  lemma ShortReads(c: char, meant: char, more: string)
    requires IsPiece(Short(c)) && ShortFor(c, meant)
    ensures ReadChar(['\\', c] + more) == Some(Read(meant, more))
  {
    hide Unicode;
    assert (['\\', c] + more)[2..] == more;
  }

  lemma EscapeReads(ps: seq<Piece>, text: string, t: string)
    requires ps != [] && Means(ps, text) && ps[0].Hex?
    ensures var s := SpellAll(ps) + "\"" + t;
            Unicode(s) == Some(Read(text[0], SpellAll(if Pair(ps) then ps[2..] else ps[1..]) + "\"" + t))
  {
    hide Hex4, IsPiece, Unicode, SpellAll;
    var s := SpellAll(ps) + "\"" + t;
    HexFirst(ps, t);
    UnicodeIs(s);
    if 1 < |ps| { SecondIsPiece(ps, text); }
    LowExactly(ps[1..], t);
    if Pair(ps) {
      HexFirst(ps[1..], t);
      assert s[6..][6..] == s[12..] && s[6..][2..] == s[8..];
      assert ps[1..][1..] == ps[2..];
    }
  }

  lemma SecondIsPiece(ps: seq<Piece>, text: string)
    requires Means(ps, text) && 1 < |ps|
    ensures IsPiece(ps[1])
  {
    hide IsPiece;
  }

  lemma {:induction false} StringReads(ps: seq<Piece>, text: string, t: string)
    requires Means(ps, text)
    ensures ReadString(SpellAll(ps) + "\"" + t) == Some(Read(text, t))
    decreases |ps|
  {
    hide ReadChar, IsPiece, FirstMeans;
    var s := SpellAll(ps) + "\"" + t;
    if ps == [] {
      assert s == "\"" + t && s[1..] == t;
    } else {
      PieceReads(ps, text, t);
      StringReads(if Pair(ps) then ps[2..] else ps[1..], text[1..], t);
      assert [text[0]] + text[1..] == text;
    }
  }

  lemma MeansOneMore(p: Piece, ps: seq<Piece>, c: char, text: string)
    requires IsPiece(p) && Means(ps, text) && !Pair([p] + ps) && FirstMeans([p] + ps, c)
    ensures Means([p] + ps, [c] + text) && SpellAll([p] + ps) == Spell(p) + SpellAll(ps)
  {
    hide IsPiece, FirstMeans, Pair;
    assert ([p] + ps)[1..] == ps && ([c] + text)[1..] == text;
  }

  lemma MeansTwoMore(p: Piece, q: Piece, ps: seq<Piece>, c: char, text: string)
    requires IsPiece(p) && IsPiece(q) && Means(ps, text) && Pair([p, q] + ps) && FirstMeans([p, q] + ps, c)
    ensures Means([p, q] + ps, [c] + text) && SpellAll([p, q] + ps) == Spell(p) + Spell(q) + SpellAll(ps)
  {
    hide IsPiece, FirstMeans, Pair;
    assert ([p, q] + ps)[2..] == ps && ([c] + text)[1..] == text;
    assert ([p, q] + ps)[1..] == [q] + ps && ([q] + ps)[1..] == ps;
  }

  lemma PairMeans(s: string, more: seq<Piece>, text: string, t: string) returns (ps: seq<Piece>)
    requires StartsHex(s) && Hex4(s[2..]).Some? && 0xD800 <= Hex4(s[2..]).value < 0xDC00 && StartsLow(s[6..])
    requires Means(more, text) && s[12..] == SpellAll(more) + "\"" + t
    ensures Unicode(s).Some? && s == SpellAll(ps) + "\"" + t && Means(ps, [Unicode(s).value.value] + text)
  {
    hide Hex4, IsPiece, SpellAll, Means;
    var first, second := HexPiece(s[2..]), HexPiece(s[8..]);
    assert s[6..][2..] == s[8..];
    Hex4Means(s[2..]);
    Hex4Means(s[8..]);
    UnicodeIs(s);
    var c := Unicode(s).value.value;
    PairSplits(Code(first), Code(second), c);
    hide Unicode;
    ps := [first, second] + more;
    assert s == Spell(first) + Spell(second) + s[12..];
    MeansTwoMore(first, second, more, c, text);
  }

  lemma LoneMeans(s: string, more: seq<Piece>, text: string, t: string) returns (ps: seq<Piece>)
    requires StartsHex(s) && Hex4(s[2..]).Some? && !(0xD800 <= Hex4(s[2..]).value < 0xDC00 && StartsLow(s[6..]))
    requires Means(more, text) && s[6..] == SpellAll(more) + "\"" + t
    ensures Unicode(s).Some? && s == SpellAll(ps) + "\"" + t && Means(ps, [Unicode(s).value.value] + text)
  {
    hide Hex4, IsPiece, SpellAll, Means;
    var first := HexPiece(s[2..]);
    Hex4Means(s[2..]);
    UnicodeIs(s);
    var c := Unicode(s).value.value;
    hide Unicode;
    ps := [first] + more;
    assert s == Spell(first) + s[6..];
    FirstIsPiece(more, text);
    LowExactly(more, t);
    MeansOneMore(first, more, c, text);
  }

  /** The same for one escape of four digits, given the pieces of the text behind it. */
  lemma EscapeMeans(s: string, more: seq<Piece>, text: string, t: string) returns (ps: seq<Piece>)
    requires StartsHex(s) && Unicode(s).Some? && Means(more, text) && Unicode(s).value.rest == SpellAll(more) + "\"" + t
    ensures s == SpellAll(ps) + "\"" + t && Means(ps, [Unicode(s).value.value] + text)
  {
    assert Hex4(s[2..]).Some?;
    hide Hex4, IsPiece, SpellAll, Means, Unicode;
    UnicodeIs(s);
    if 0xD800 <= Hex4(s[2..]).value < 0xDC00 && StartsLow(s[6..]) {
      ps := PairMeans(s, more, text, t);
    } else {
      ps := LoneMeans(s, more, text, t);
    }
  }

  lemma PairSplits(high: int, low: int, c: char)
    requires 0xD800 <= high < 0xDC00 <= low < 0xE000 && c as int == 0x1_0000 + (high - 0xD800) * 0x400 + (low - 0xDC00)
    ensures var n := c as int - 0x1_0000; high == 0xD800 + n / 0x400 && low == 0xDC00 + n % 0x400
  {
  }

  lemma FirstIsPiece(ps: seq<Piece>, text: string)
    requires Means(ps, text)
    ensures ps == [] || IsPiece(ps[0])
  {
    hide IsPiece;
  }

  /** The piece that the reader takes when it is not an escape of four digits. */
  lemma SimplePiece(s: string) returns (p: Piece)
    requires s != "" && s[0] != '"' && !StartsHex(s) && ReadChar(s).Some?
    ensures IsPiece(p) && !p.Hex? && s == Spell(p) + ReadChar(s).value.rest
    ensures if p.Raw? then p.itself == ReadChar(s).value.value else ShortFor(p.sign, ReadChar(s).value.value)
  {
    if s[0] != '\\' {
      p := Raw(s[0]);
      assert s == [s[0]] + s[1..];
    } else {
      p := Short(s[1]);
      assert s == [s[0], s[1]] + s[2..];
    }
  }

  lemma SimpleMeans(p: Piece, ps: seq<Piece>, c: char, text: string)
    requires IsPiece(p) && !p.Hex? && Means(ps, text) && (if p.Raw? then p.itself == c else ShortFor(p.sign, c))
    ensures Means([p] + ps, [c] + text) && SpellAll([p] + ps) == Spell(p) + SpellAll(ps)
  {
    hide IsPiece;
    MeansOneMore(p, ps, c, text);
  }

  /** Whatever the reader takes for a string is spelled by pieces that mean it. */
  lemma {:induction false} StringMeans(s: string) returns (ps: seq<Piece>)
    requires ReadString(s).Some?
    ensures s == SpellAll(ps) + "\"" + ReadString(s).value.rest && Means(ps, ReadString(s).value.value)
    decreases |s|
  {
    hide Unicode, IsPiece, FirstMeans, Spell;
    if s[0] == '"' {
      ps := [];
    } else {
      hide ReadChar;
      var c := ReadChar(s).value;
      var r := ReadString(c.rest).value;
      var more := StringMeans(c.rest);
      if StartsHex(s) {
        ReadsHex(s);
        ps := EscapeMeans(s, more, r.value, r.rest);
      } else {
        var p := SimplePiece(s);
        SimpleMeans(p, more, c.value, r.value);
        ps := [p] + more;
      }
    }
  }
}
