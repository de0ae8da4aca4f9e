/** Environment files of the installer: reading them and editing one setting in place. */
module Environment {
  import opened StageTypes
  import opened Text

  // ---------------------------------------------------------------- lines

  /** Where a character first occurs; the length of the text when it does not. */
  function Find(s: string, c: char): (i: nat)
    ensures i <= |s| && c !in s[..i] && (i < |s| ==> s[i] == c)
  {
    if s == "" || s[0] == c then 0
    else
      assert forall k | 0 <= k < Find(s[1..], c) :: s[k + 1] == s[1..][..Find(s[1..], c)][k];
      1 + Find(s[1..], c)
  }

  function Split(s: string): (lines: seq<string>)
    ensures lines != []
    ensures forall l | l in lines :: '\n' !in l
    decreases |s|
  {
    var i := Find(s, '\n');
    if i == |s| then assert s[..i] == s; [s] else [s[..i]] + Split(s[i + 1..])
  }

  function Join(lines: seq<string>): string {
    if lines == [] then "" else if |lines| == 1 then lines[0] else lines[0] + "\n" + Join(lines[1..])
  }

  lemma {:induction false} SplitJoin(lines: seq<string>)
    requires lines != [] && forall l | l in lines :: '\n' !in l
    ensures Split(Join(lines)) == lines
  {
    hide Split, Find;
    assert lines[0] in lines;
    if |lines| == 1 {
      SplitLast(lines[0]);
    } else {
      assert forall l | l in lines[1..] :: l in lines;
      SplitJoin(lines[1..]);
      SplitFirst(lines[0], Join(lines[1..]));
    }
  }

  lemma SplitLast(line: string)
    requires '\n' !in line
    ensures Split(line) == [line]
  {
    FindNone(line);
  }

  lemma SplitFirst(line: string, rest: string)
    requires '\n' !in line
    ensures Split(line + "\n" + rest) == [line] + Split(rest)
  {
    hide Find;
    var s := line + "\n" + rest;
    FindFirst(line, rest);
    assert s[..|line|] == line && s[|line| + 1..] == rest;
  }

  lemma {:induction false} FindNone(s: string)
    requires '\n' !in s
    ensures Find(s, '\n') == |s|
  {
    if s != "" {
      assert s[0] in s && forall c | c in s[1..] :: c in s;
      FindNone(s[1..]);
    }
  }

  lemma FindFirst(a: string, b: string)
    requires '\n' !in a
    ensures Find(a + "\n" + b, '\n') == |a|
  {
    CharFound(a, '\n', "\n" + b);
    assert a + "\n" + b == a + ("\n" + b);
  }

  lemma {:induction false} CharFound(a: string, c: char, b: string)
    requires c !in a && b != "" && b[0] == c
    ensures Find(a + b, c) == |a|
  {
    if a == "" {
      assert a + b == b;
    } else {
      assert a[0] in a && forall x | x in a[1..] :: x in a;
      assert (a + b)[1..] == a[1..] + b;
      CharFound(a[1..], c, b);
    }
  }

  // ---------------------------------------------------------------- reading

  /** A value in matching quotes loses them. */
  function Unquote(v: string): string {
    if 2 <= |v| && ((v[0] == '"' && v[|v| - 1] == '"') || (v[0] == '\'' && v[|v| - 1] == '\''))
    then v[1..|v| - 1] else v
  }

  datatype Line = Skipped | Invalid | Setting(key: string, value: string)

  function ReadLine(line: string): Line {
    var t := Trim(line);
    if t == "" || t[0] == '#' then Skipped
    else
      var i := Find(t, '=');
      if i == |t| then Invalid
      else if Trim(t[..i]) == "" then Invalid
      else Setting(Trim(t[..i]), Unquote(Trim(t[i + 1..])))
  }

  /** Later settings of one key replace earlier ones; one invalid line spoils the file. */
  function ReadLines(lines: seq<string>): Option<map<string, string>> {
    if lines == [] then Some(map[])
    else
      match ReadLines(lines[..|lines| - 1])
      case None => None
      case Some(values) =>
        match ReadLine(lines[|lines| - 1])
        case Skipped => Some(values)
        case Invalid => None
        case Setting(key, value) => Some(values[key := value])
  }

  /** The scanner's buffer, in bytes; it must hold a line and the end of it. */
  const MAX_LINE := 65_536

  function Bytes(s: string): nat {
    if s == "" then 0
    else
      var c := s[|s| - 1] as int;
      Bytes(s[..|s| - 1]) + (if c < 0x80 then 1 else if c < 0x800 then 2 else if c < 0x1_0000 then 3 else 4)
  }

  predicate Scannable(line: string) {
    Bytes(line) < MAX_LINE
  }

  /** One line that is too long spoils the file as well. */
  function ReadFile(lines: seq<string>): Option<map<string, string>> {
    if forall l | l in lines :: Scannable(l) then ReadLines(lines) else None
  }

  predicate Sets(line: string, key: string) {
    ReadLine(line).Setting? && ReadLine(line).key == key
  }

  /** The last line that sets the key gives it this value. */
  ghost predicate SetsLast(lines: seq<string>, key: string, value: string) {
    exists i :: 0 <= i < |lines| && ReadLine(lines[i]) == Setting(key, value) &&
                forall j | i < j < |lines| :: !Sets(lines[j], key)
  }

  ghost predicate NeverSet(lines: seq<string>, key: string) {
    forall l | l in lines :: !Sets(l, key)
  }

  ghost predicate LastSettings(lines: seq<string>, values: map<string, string>) {
    forall k :: if k in values then SetsLast(lines, k, values[k]) else NeverSet(lines, k)
  }

  /** Only an invalid line spoils the file, and the last line that sets a key decides its value. */
  lemma {:induction false} LinesExactly(lines: seq<string>)
    ensures ReadLines(lines).None? <==> exists l :: l in lines && ReadLine(l).Invalid?
    ensures ReadLines(lines).Some? ==> LastSettings(lines, ReadLines(lines).value)
  {
    hide ReadLine, SetsLast, NeverSet;
    if lines != [] {
      var n := |lines| - 1;
      LinesExactly(lines[..n]);
      assert lines == lines[..n] + [lines[n]] && lines[n] in lines;
      assert forall l | l in lines[..n] :: l in lines;
      if ReadLines(lines).Some? {
        var before, values := ReadLines(lines[..n]).value, ReadLines(lines).value;
        forall k ensures if k in values then SetsLast(lines, k, values[k]) else NeverSet(lines, k) {
          if Sets(lines[n], k) {
            LastSets(lines, k);
          } else if k in before {
            SetsStill(lines, k, before[k]);
          } else {
            NeverStill(lines, k);
          }
        }
      }
    } else {
      NothingIsSet();
    }
  }

  lemma NothingIsSet()
    ensures forall k :: NeverSet([], k)
  {
  }

  lemma LastSets(lines: seq<string>, key: string)
    requires lines != [] && Sets(lines[|lines| - 1], key)
    ensures SetsLast(lines, key, ReadLine(lines[|lines| - 1]).value)
  {
    hide ReadLine;
    var n := |lines| - 1;
    assert ReadLine(lines[n]) == Setting(key, ReadLine(lines[n]).value);
  }

  lemma SetsStill(lines: seq<string>, key: string, value: string)
    requires lines != [] && SetsLast(lines[..|lines| - 1], key, value) && !Sets(lines[|lines| - 1], key)
    ensures SetsLast(lines, key, value)
  {
    hide ReadLine;
    var before := lines[..|lines| - 1];
    var i :| 0 <= i < |before| && ReadLine(before[i]) == Setting(key, value) &&
             forall j | i < j < |before| :: !Sets(before[j], key);
    assert lines[i] == before[i];
    forall j | i < j < |lines| ensures !Sets(lines[j], key) {
      if j < |before| { assert before[j] == lines[j]; }
    }
  }

  lemma NeverStill(lines: seq<string>, key: string)
    requires lines != [] && NeverSet(lines[..|lines| - 1], key) && !Sets(lines[|lines| - 1], key)
    ensures NeverSet(lines, key)
  {
    hide ReadLine;
    assert lines == lines[..|lines| - 1] + [lines[|lines| - 1]];
  }

  method ParseEnvironment(content: string) returns (values: Option<map<string, string>>)
    ensures values == ReadFile(Split(content))
    ensures values.None? <==> exists l :: l in Split(content) && (ReadLine(l).Invalid? || !Scannable(l))
    ensures values.Some? ==> LastSettings(Split(content), values.value)
  {
    hide ReadLine, Split, Scannable, LastSettings;
    LinesExactly(Split(content));
    var lines := Split(content);
    var read: map<string, string> := map[];
    for i := 0 to |lines|
      invariant ReadLines(lines[..i]) == Some(read)
      invariant forall l | l in lines[..i] :: Scannable(l)
    {
      assert lines[..i + 1][..i] == lines[..i];
      assert lines[..i + 1] == lines[..i] + [lines[i]];
      if !Scannable(lines[i]) {
        assert lines[i] in lines;
        return None;
      }
      match ReadLine(lines[i]) {
        case Skipped =>
        case Invalid =>
          OneInvalidLine(lines, i + 1);
          return None;
        case Setting(key, value) => read := read[key := value];
      }
    }
    assert lines[..|lines|] == lines;
    values := Some(read);
  }

  lemma {:induction false} OneInvalidLine(lines: seq<string>, n: nat)
    requires n <= |lines| && ReadLines(lines[..n]).None?
    ensures ReadLines(lines).None?
  {
    if n == |lines| {
      assert lines[..n] == lines;
    } else {
      assert lines[..|lines| - 1][..n] == lines[..n];
      OneInvalidLine(lines[..|lines| - 1], n);
    }
  }

  // ---------------------------------------------------------------- editing

  ghost function Edited(lines: seq<string>, key: string, value: string): seq<string> {
    if lines == [] then []
    else
      var last := lines[|lines| - 1];
      Edited(lines[..|lines| - 1], key, value) + [if Sets(last, key) then key + "=" + value else last]
  }

  /** Every line that sets the key is replaced; the file must set it at least once. */
  method ReplaceEnvironmentValue(content: string, key: string, value: string) returns (edited: Option<string>)
    ensures edited.Some? <==> exists l :: l in Split(content) && Sets(l, key)
    ensures edited.Some? ==> edited.value == Join(Edited(Split(content), key, value))
  {
    hide Sets, Trim, Split, Join;
    if Trim(key) == "" {
      BlankKeyIsNeverSet(key);
      return None;
    }
    var before := Split(content);
    var lines, found := before, false;
    for i := 0 to |before|
      invariant |lines| == |before| && lines[i..] == before[i..]
      invariant lines[..i] == Edited(before[..i], key, value)
      invariant found <==> exists l :: l in before[..i] && Sets(l, key)
    {
      assert before[..i + 1] == before[..i] + [before[i]] && lines[i] == before[i..][0];
      var sets := SetsKey(lines[i], key);
      if sets {
        lines := lines[i := key + "=" + value];
        found := true;
      }
      assert lines[..i + 1] == lines[..i] + [lines[i]];
      assert before[i + 1..] == before[i..][1..] && lines[i + 1..] == before[i + 1..];
      assert before[..i + 1][..i] == before[..i];
    }
    assert before[..|before|] == before && lines[..|before|] == lines;
    edited := if found then Some(Join(lines)) else None;
  }

  /** The test of one line, as the loop makes it. */
  method SetsKey(line: string, key: string) returns (sets: bool)
    requires Trim(key) != ""
    ensures sets == Sets(line, key)
  {
    var trimmed := Trim(line);
    if trimmed == "" || trimmed[0] == '#' { return false; }
    var i := Find(trimmed, '=');
    sets := i < |trimmed| && Trim(trimmed[..i]) == key;
  }

  lemma BlankKeyIsNeverSet(key: string)
    requires Trim(key) == ""
    ensures forall line :: !Sets(line, key)
  {
    forall line ensures !Sets(line, key) {
      if Sets(line, key) {
        var t := Trim(line);
        TrimIsTrimmed(t[..Find(t, '=')]);
        TrimIsTrimmed(key);
      }
    }
  }

  // ---------------------------------------------------------------- trimming what was written

  lemma {:induction false} TrimRightAfter(a: string, b: string)
    requires a != "" && !IsSpace(a[|a| - 1])
    ensures TrimRight(a + b) == a + TrimRight(b)
  {
    if b == "" {
      assert a + b == a;
    } else if IsSpace(b[|b| - 1]) {
      assert (a + b)[..|a + b| - 1] == a + b[..|b| - 1];
      TrimRightAfter(a, b[..|b| - 1]);
    }
  }

  lemma {:induction false} TrimLeftBefore(s: string, c: char)
    requires IsSpace(c)
    ensures TrimLeft(s + [c]) == if TrimLeft(s) == "" then "" else TrimLeft(s) + [c]
  {
    if s == "" {
      assert s + [c] == [c];
    } else {
      assert (s + [c])[1..] == s[1..] + [c];
      if IsSpace(s[0]) { TrimLeftBefore(s[1..], c); }
    }
  }

  /** Space at the end makes no difference to trimming. */
  lemma {:induction false} TrimTwice(v: string)
    ensures Trim(TrimRight(v)) == Trim(v)
  {
    if v != "" && IsSpace(v[|v| - 1]) {
      var w := v[..|v| - 1];
      TrimTwice(w);
      TrimLeftBefore(w, v[|v| - 1]);
      assert w + [v[|v| - 1]] == v;
      if TrimLeft(w) != "" { assert (TrimLeft(w) + [v[|v| - 1]])[..|TrimLeft(w)|] == TrimLeft(w); }
    }
  }

  lemma {:induction false} TrimParts(s: string)
    ensures forall c | c in TrimLeft(s) :: c in s
    ensures forall c | c in TrimRight(s) :: c in s
  {
    if s != "" {
      TrimParts(s[1..]);
      TrimParts(s[..|s| - 1]);
    }
  }

  /** What a settable key looks like. */
  predicate KeyShape(key: string) {
    key != "" && !IsSpace(key[0]) && !IsSpace(key[|key| - 1]) && key[0] != '#' && '=' !in key && '\n' !in key
  }

  lemma SetKeyHasShape(line: string, key: string)
    requires Sets(line, key) && '\n' !in line
    ensures KeyShape(key)
  {
    var t := Trim(line);
    var name := t[..Find(t, '=')];
    TrimIsTrimmed(line);
    TrimIsTrimmed(name);
    TrimParts(name);
    TrimParts(TrimLeft(name));
    TrimParts(line);
    TrimParts(TrimLeft(line));
    assert forall c | c in key :: c in name;
    assert forall c | c in name :: c in t;
    TrimRightClean(TrimLeft(name));
  }

  /** The line that an edit writes is read back as the key with the trimmed and unquoted value. */
  lemma WrittenLine(key: string, value: string)
    requires KeyShape(key)
    ensures ReadLine(key + "=" + value) == Setting(key, Unquote(Trim(value)))
  {
    var head := key + "=";
    var line := head + value;
    TrimRightAfter(head, value);
    assert Trim(line) == head + TrimRight(value);
    var t := Trim(line);
    assert t == key + ("=" + TrimRight(value));
    CharFound(key, '=', "=" + TrimRight(value));
    assert t[..|key|] == key && t[|key| + 1..] == TrimRight(value);
    TrimIsTrimmed(key);
    TrimTwice(value);
  }

  // ---------------------------------------------------------------- what an edit does to the settings

  lemma {:induction false} EditedLines(lines: seq<string>, key: string, value: string)
    ensures |Edited(lines, key, value)| == |lines|
    ensures forall i | 0 <= i < |lines| ::
              Edited(lines, key, value)[i] == if Sets(lines[i], key) then key + "=" + value else lines[i]
  {
    hide Sets;
    if lines != [] { EditedLines(lines[..|lines| - 1], key, value); }
  }

  lemma {:induction false} SetsMeansRead(lines: seq<string>, key: string)
    requires ReadLines(lines).Some?
    ensures key in ReadLines(lines).value <==> exists l :: l in lines && Sets(l, key)
  {
    hide ReadLine;
    if lines != [] {
      var n := |lines| - 1;
      SetsMeansRead(lines[..n], key);
      assert lines == lines[..n] + [lines[n]];
      if l :| l in lines && Sets(l, key) { assert l in lines[..n] || l == lines[n]; }
      if Sets(lines[n], key) { assert lines[n] in lines; }
      if l :| l in lines[..n] && Sets(l, key) { assert l in lines; }
    }
  }

  lemma {:induction false} EditedReads(lines: seq<string>, key: string, value: string)
    requires KeyShape(key)
    ensures var before := ReadLines(lines);
            var after := ReadLines(Edited(lines, key, value));
            if before.None? then after.None?
            else after == Some(if key in before.value then before.value[key := Unquote(Trim(value))] else before.value)
  {
    hide ReadLine, Trim, Unquote, KeyShape;
    if lines != [] {
      var n := |lines| - 1;
      EditedReads(lines[..n], key, value);
      EditedLines(lines, key, value);
      EditedLines(lines[..n], key, value);
      WrittenLine(key, value);
      assert Edited(lines, key, value)[..n] == Edited(lines[..n], key, value);
      if ReadLines(lines).Some? {
        var values, stored := ReadLines(lines[..n]).value, Unquote(Trim(value));
        match ReadLine(lines[n]) {
          case Skipped =>
          case Setting(k, v) => UpdateTwice(values, key, stored, k, v);
        }
      }
    }
  }

  lemma UpdateTwice(m: map<string, string>, key: string, stored: string, k: string, v: string)
    ensures k == key ==> m[key := stored][key := stored] == m[k := v][key := stored] == m[key := stored]
    ensures k != key ==> m[key := stored][k := v] == m[k := v][key := stored]
  {
  }

  /** A value that an edit can store exactly: one line, no space around it, no quotes around it. */
  predicate Plain(value: string) {
    '\n' !in value && Trimmed(value) && Unquote(value) == value
  }

  lemma EditedKeepsLines(content: string, key: string, value: string)
    requires '\n' !in key && '\n' !in value
    ensures Split(Join(Edited(Split(content), key, value))) == Edited(Split(content), key, value)
  {
    var lines := Split(content);
    var after := Edited(lines, key, value);
    EditedLines(lines, key, value);
    forall l | l in after ensures '\n' !in l {
      var i :| 0 <= i < |after| && after[i] == l;
      assert lines[i] in lines;
    }
    SplitJoin(after);
  }

  /** An edit with a one-line value replaces the lines that set the key, leaves every other line as it
      is, and changes exactly that setting, to the value as it would be read. */
  lemma EditChangesOneSetting(content: string, key: string, value: string)
    requires (exists l :: l in Split(content) && Sets(l, key)) && '\n' !in value
    ensures var before, after := Split(content), Split(Join(Edited(Split(content), key, value)));
            && |after| == |before|
            && (forall i | 0 <= i < |before| ::
                 after[i] == if Sets(before[i], key) then key + "=" + value else before[i])
            && ReadLines(after) == match ReadLines(before)
                                 case None => None
                                 case Some(values) => Some(values[key := Unquote(Trim(value))])
    ensures var before, after := Split(content), Split(Join(Edited(Split(content), key, value)));
            ReadFile(after) ==
            if Scannable(key + "=" + value) && (forall l | l in before && !Sets(l, key) :: Scannable(l))
                               then ReadLines(after) else None
  {
    var lines := Split(content);
    hide Sets, Join, Edited, ReadLines, Split, Unquote, Trim;
    var l :| l in lines && Sets(l, key);
    SetKeyHasShape(l, key);
    EditedKeepsLines(content, key, value);
    EditedLines(lines, key, value);
    EditedReads(lines, key, value);
    if ReadLines(lines).Some? { SetsMeansRead(lines, key); }
    EditedScans(lines, key, value);
  }

  /** An edited file can be scanned if the new line can, and every line that was kept. */
  lemma EditedScans(lines: seq<string>, key: string, value: string)
    requires exists l :: l in lines && Sets(l, key)
    ensures (forall l | l in Edited(lines, key, value) :: Scannable(l)) <==>
            Scannable(key + "=" + value) && forall l | l in lines && !Sets(l, key) :: Scannable(l)
  {
    hide Sets, Scannable;
    var after := Edited(lines, key, value);
    EditedLines(lines, key, value);
    if forall l | l in after :: Scannable(l) {
      var k :| 0 <= k < |lines| && Sets(lines[k], key);
      assert after[k] in after;
      forall l | l in lines && !Sets(l, key) ensures Scannable(l) {
        var i :| 0 <= i < |lines| && lines[i] == l;
        assert after[i] in after;
      }
    }
    if Scannable(key + "=" + value) && forall l | l in lines && !Sets(l, key) :: Scannable(l) {
      forall l | l in after ensures Scannable(l) {
        var i :| 0 <= i < |after| && after[i] == l;
        assert lines[i] in lines;
      }
    }
  }

  lemma {:induction false} ReadValuesAreLines(lines: seq<string>)
    requires (forall l | l in lines :: '\n' !in l) && ReadLines(lines).Some?
    ensures forall key | key in ReadLines(lines).value :: '\n' !in ReadLines(lines).value[key]
  {
    if lines != [] {
      var n := |lines| - 1;
      assert lines[n] in lines && forall l | l in lines[..n] :: l in lines;
      ReadValuesAreLines(lines[..n]);
      ReadValueIsLine(lines[n]);
    }
  }

  lemma ReadValueIsLine(line: string)
    requires '\n' !in line
    ensures ReadLine(line).Setting? ==> '\n' !in ReadLine(line).value
  {
    var t := Trim(line);
    TrimParts(line);
    TrimParts(TrimLeft(line));
    var i := Find(t, '=');
    if i < |t| {
      var v := t[i + 1..];
      assert forall c | c in v :: c in t;
      TrimParts(v);
      TrimParts(TrimLeft(v));
      assert forall c | c in Unquote(Trim(v)) :: c in Trim(v);
    }
  }

  /** The value is plain, and short enough for one line of the scanner. */
  predicate Storable(key: string, value: string) {
    Plain(value) && Scannable(key + "=" + value)
  }

  /** Reading the edited file gives the old settings with this key set to exactly the given value if
      and only if the value is plain and its line is not too long. */
  lemma EditStoresExactly(content: string, key: string, value: string)
    requires (exists l :: l in Split(content) && Sets(l, key)) && ReadFile(Split(content)).Some?
    ensures ReadFile(Split(Join(Edited(Split(content), key, value)))) ==
            Some(ReadFile(Split(content)).value[key := value])
            <==> Storable(key, value)
  {
    hide Sets, Split, Join, Edited, ReadLines, Unquote, Trim, Trimmed, Scannable;
    var values := ReadLines(Split(content)).value;
    var after := ReadLines(Split(Join(Edited(Split(content), key, value))));
    if '\n' in value {
      NewlineIsLost(Split(Join(Edited(Split(content), key, value))), values[key := value], key);
    } else {
      EditChangesOneSetting(content, key, value);
      assert after == Some(values[key := Unquote(Trim(value))]);
      assert ReadFile(Split(Join(Edited(Split(content), key, value)))) ==
             if Scannable(key + "=" + value) then after else None;
      assert values[key := value][key] == value && values[key := Unquote(Trim(value))][key] == Unquote(Trim(value));
      PlainIsStable(value);
    }
  }

  lemma NewlineIsLost(lines: seq<string>, values: map<string, string>, key: string)
    requires (forall l | l in lines :: '\n' !in l) && key in values && '\n' in values[key]
    ensures ReadLines(lines) != Some(values)
  {
    if ReadLines(lines).Some? { ReadValuesAreLines(lines); }
  }

  lemma PlainIsStable(value: string)
    requires '\n' !in value
    ensures Unquote(Trim(value)) == value <==> Plain(value)
  {
    TrimIsTrimmed(value);
    TrimShrinks(value);
  }

  lemma {:induction false} TrimLeftShrinks(s: string)
    ensures |TrimLeft(s)| <= |s| && (|TrimLeft(s)| == |s| ==> TrimLeft(s) == s)
  {
    if s != "" { TrimLeftShrinks(s[1..]); }
  }

  lemma TrimShrinks(s: string)
    ensures |Trim(s)| <= |s| && (|Trim(s)| == |s| ==> Trim(s) == s)
  {
    TrimLeftShrinks(s);
    TrimRightClean(TrimLeft(s));
  }

  // ---------------------------------------------------------------- a value that is not stored

  const QUOTED: string := ['"', 'a', '"']

  lemma EmptyIsSkipped()
    ensures ReadLine("") == Skipped
  {
  }

  lemma TwoLines(a: string, b: string)
    requires ReadLine(a).Setting? && ReadLine(b).Skipped?
    ensures ReadLines([a, b]) == Some(map[ReadLine(a).key := ReadLine(a).value])
  {
    hide ReadLine;
    assert ReadLines([]) == Some(map[]);
    assert [a, b][..1] == [a] && [a][..0] == [];
    assert ReadLines([a]) == Some(map[][ReadLine(a).key := ReadLine(a).value]);
  }

  lemma JoinLastEmpty(line: string)
    ensures Join([line, ""]) == line + "\n"
  {
    assert [line, ""][1..] == [""] && Join([""]) == "";
  }

  lemma ShortLines(line: string)
    requires |line| < 100
    ensures Scannable(line)
  {
    FewBytes(line);
  }

  lemma {:induction false} FewBytes(s: string)
    ensures Bytes(s) <= 4 * |s|
  {
    if s != "" { FewBytes(s[..|s| - 1]); }
  }

  lemma SmallFile()
    ensures Split("K=v\n") == ["K=v", ""] && Sets("K=v", "K") && !Sets("", "K")
    ensures ReadFile(["K=v", ""]) == Some(map["K" := "v"])
  {
    hide Split, Join, ReadLine, Bytes;
    var lines := ["K=v", ""];
    SplitJoin(lines);
    assert Join(lines) == "K=v\n" by { JoinLastEmpty("K=v"); }
    WrittenLine("K", "v");
    assert "K=v" == "K" + "=" + "v" && Trim("v") == "v";
    assert ReadLine("") == Skipped by { EmptyIsSkipped(); }
    TwoLines("K=v", "");
    ShortLines("K=v");
    ShortLines("");
  }

  lemma QuotesAreLost()
    ensures Trim(QUOTED) == QUOTED && Unquote(QUOTED) == "a"
  {
    assert QUOTED[1..2] == "a";
  }

  /** The edit accepts a value in quotes, but reading the file gives it without them. */
  lemma QuotedValueIsNotStored()
    ensures (exists l :: l in Split("K=v\n") && Sets(l, "K")) && ReadFile(Split("K=v\n")).Some?
    ensures ReadFile(Split(Join(Edited(Split("K=v\n"), "K", QUOTED)))) == Some(map["K" := "a"])
    ensures !Storable("K", QUOTED)
  {
    hide Split, Join, Edited, ReadLines, Sets, Bytes, ReadLine;
    SmallFile();
    var lines := ["K=v", ""];
    assert "K=v" in lines;
    EditChangesOneSetting("K=v\n", "K", QUOTED);
    ShortLines("K" + "=" + QUOTED);
    ShortLines("");
    assert Unquote(Trim(QUOTED)) == "a" by { QuotesAreLost(); }
    assert map["K" := "v"]["K" := "a"] == map["K" := "a"];
  }
}
