/** What the lines of an environment file say, spelled out without the functions that read them. */
module EnvironmentLines {
  import opened Text
  import opened Environment

  predicate Spaces(s: string) {
    forall c | c in s :: IsSpace(c)
  }

  // ---------------------------------------------------------------- trimming

  lemma {:induction false} LeftSplits(s: string) returns (a: string)
    ensures s == a + TrimLeft(s) && Spaces(a)
  {
    if s != "" && IsSpace(s[0]) {
      var rest := LeftSplits(s[1..]);
      a := [s[0]] + rest;
    } else {
      a := "";
    }
  }

  lemma {:induction false} RightSplits(s: string) returns (b: string)
    ensures s == TrimRight(s) + b && Spaces(b)
  {
    if s != "" && IsSpace(s[|s| - 1]) {
      var rest := RightSplits(s[..|s| - 1]);
      b := rest + [s[|s| - 1]];
    } else {
      b := "";
    }
  }

  /** Trimming takes space from both ends and nothing else. */
  lemma TrimSplits(s: string) returns (a: string, b: string)
    ensures s == a + Trim(s) + b && Spaces(a) && Spaces(b) && Trimmed(Trim(s))
  {
    a := LeftSplits(s);
    b := RightSplits(TrimLeft(s));
    TrimIsTrimmed(s);
  }

  lemma {:induction false} LeftDrops(a: string, t: string)
    requires Spaces(a) && (t == "" || !IsSpace(t[0]))
    ensures TrimLeft(a + t) == t
  {
    if a == "" {
      assert a + t == t;
    } else {
      assert a[0] in a && forall c | c in a[1..] :: c in a;
      assert (a + t)[1..] == a[1..] + t;
      LeftDrops(a[1..], t);
    }
  }

  lemma {:induction false} RightDrops(t: string, b: string)
    requires Spaces(b) && (t == "" || !IsSpace(t[|t| - 1]))
    ensures TrimRight(t + b) == t
  {
    if b == "" {
      assert t + b == t;
    } else {
      assert b[|b| - 1] in b && forall c | c in b[..|b| - 1] :: c in b;
      assert (t + b)[..|t + b| - 1] == t + b[..|b| - 1];
      RightDrops(t, b[..|b| - 1]);
    }
  }

  /** And there is only one way to do that. */
  lemma TrimDrops(a: string, t: string, b: string)
    requires Spaces(a) && Spaces(b) && Trimmed(t)
    ensures Trim(a + t + b) == t
  {
    if t == "" {
      assert forall c | c in a + b :: IsSpace(c);
      LeftDrops(a + b, "");
      assert a + t + b == a + b + "";
    } else {
      LeftDrops(a, t + b);
      assert a + t + b == a + (t + b);
      RightDrops(t, b);
    }
  }

  // ---------------------------------------------------------------- lines

  predicate KeyName(k: string) {
    k != "" && Trimmed(k) && k[0] != '#' && '=' !in k
  }

  predicate Wrapped(w: string, v: string) {
    w == "\"" + v + "\"" || w == "'" + v + "'"
  }

  /** One pair of matching quotes is taken off, and nothing else. */
  ghost predicate Means(w: string, v: string) {
    Wrapped(w, v) || (w == v && forall u :: !Wrapped(w, u))
  }

  lemma UnquoteExactly(w: string, v: string)
    ensures Unquote(w) == v <==> Means(w, v)
  {
    var inner := if 2 <= |w| then w[1..|w| - 1] else "";
    if 2 <= |w| && w[0] == w[|w| - 1] && (w[0] == '"' || w[0] == '\'') {
      assert w == [w[0]] + inner + [w[0]];
      assert Wrapped(w, inner);
      if Wrapped(w, v) { assert v == w[1..|w| - 1]; }
    } else {
      forall u ensures !Wrapped(w, u) {
        if Wrapped(w, u) { assert false; }
      }
    }
  }

  predicate SaysAt(line: string, k: string, a: string, b: string, c: string, w: string, d: string) {
    && line == a + k + b + "=" + c + w + d
    && Spaces(a) && Spaces(b) && Spaces(c) && Spaces(d) && Trimmed(w)
  }

  /** The line is the key, an equals sign and the value, with space around any of them. */
  ghost predicate Says(line: string, k: string, v: string) {
    KeyName(k) && exists a, b, c, w, d :: SaysAt(line, k, a, b, c, w, d) && Means(w, v)
  }

  /** Nothing but space, or a comment. */
  ghost predicate SaysNothing(line: string) {
    Spaces(line) || exists a, b :: Comment(line, a, b)
  }

  predicate Comment(line: string, a: string, b: string) {
    line == a + "#" + b && Spaces(a)
  }

  lemma KeySplits(name: string, first: char) returns (b: string)
    requires Trim(name) != "" && name[0] == first && !IsSpace(first) && first != '#' && '=' !in name
    ensures name == Trim(name) + b && Spaces(b) && KeyName(Trim(name))
  {
    var a;
    a, b := TrimSplits(name);
    assert first in a ==> IsSpace(first);
    assert forall c | c in Trim(name) :: c in name;
  }

  lemma KeyPart(t: string, i: nat) returns (b: string)
    requires Trimmed(t) && i == Find(t, '=') < |t| && t[0] != '#' && Trim(t[..i]) != ""
    ensures t[..i] == Trim(t[..i]) + b && Spaces(b) && KeyName(Trim(t[..i]))
  {
    assert i != 0 by { TrimIsTrimmed(""); }
    hide Trim, Find;
    b := KeySplits(t[..i], t[0]);
  }

  lemma EqualsSplits(t: string, i: nat)
    requires i < |t| && t[i] == '='
    ensures t == t[..i] + "=" + t[i + 1..]
  {
  }

  lemma Assemble(k: string, a: string, b: string, c: string, w: string, d: string, e: string)
    requires KeyName(k) && Spaces(a) && Spaces(b) && Spaces(c) && Spaces(d) && Spaces(e) && Trimmed(w)
    ensures forall v | Means(w, v) :: Says(a + (k + b + "=" + (c + w + d)) + e, k, v)
  {
    hide KeyName, Means;
    assert SaysAt(a + (k + b + "=" + (c + w + d)) + e, k, a, b, c, w, d + e);
  }

  lemma SettingIsSaid(line: string)
    requires ReadLine(line).Setting?
    ensures Says(line, ReadLine(line).key, ReadLine(line).value)
  {
    var t, k, v := Trim(line), ReadLine(line).key, ReadLine(line).value;
    var i := Find(t, '=');
    var w := Trim(t[i + 1..]);
    assert k == Trim(t[..i]) != "" && v == Unquote(w) && t[0] != '#';
    var a, e := TrimSplits(line);
    var c, d := TrimSplits(t[i + 1..]);
    var b := KeyPart(t, i);
    hide Trim, Find, Unquote, ReadLine, Says, Means, KeyName, Spaces, Trimmed;
    EqualsSplits(t, i);
    Assemble(k, a, b, c, w, d, e);
    assert line == a + (k + b + "=" + (c + w + d)) + e;
    UnquoteExactly(w, v);
  }

  lemma SaidIsSetting(line: string, k: string, v: string)
    requires Says(line, k, v)
    ensures ReadLine(line) == Setting(k, v)
  {
    var a, b, c, w, d :| SaysAt(line, k, a, b, c, w, d) && Means(w, v);
    SaidReads(k, a, b, c, w, d);
    UnquoteExactly(w, v);
  }

  lemma SaidTrims(k: string, a: string, b: string, c: string, w: string, d: string)
    requires KeyName(k) && Spaces(a) && Spaces(c) && Spaces(d) && Trimmed(w)
    ensures Trim(a + k + b + "=" + c + w + d) == k + b + "=" + if w == "" then "" else c + w
  {
    hide Trim;
    var t := k + b + "=" + if w == "" then "" else c + w;
    var tail := if w == "" then c + d else d;
    assert forall x | x in tail :: IsSpace(x);
    assert a + k + b + "=" + c + w + d == a + t + tail;
    assert t[0] == k[0] && t[|t| - 1] == if w == "" then '=' else w[|w| - 1];
    TrimDrops(a, t, tail);
  }

  lemma PartsTrim(k: string, b: string, c: string, w: string)
    requires Trimmed(k) && Spaces(b) && Spaces(c) && Trimmed(w)
    ensures Trim(k + b) == k && Trim(if w == "" then "" else c + w) == w
  {
    TrimDrops("", k, b);
    assert "" + k + b == k + b;
    if w == "" {
      TrimIsTrimmed("");
    } else {
      TrimDrops(c, w, "");
      assert c + w + "" == c + w;
    }
  }

  lemma PartsRead(line: string, name: string, rest: string)
    requires Trim(line) == name + "=" + rest && '=' !in name && name != "" && name[0] != '#' && Trim(name) != ""
    ensures ReadLine(line) == Setting(Trim(name), Unquote(Trim(rest)))
  {
    hide Trim, Find, Unquote;
    var t := Trim(line);
    CharFound(name, '=', "=" + rest);
    assert t == name + ("=" + rest);
    assert t[..|name|] == name && t[|name| + 1..] == rest && t[0] == name[0];
  }

  lemma SaidReads(k: string, a: string, b: string, c: string, w: string, d: string)
    requires KeyName(k) && Spaces(a) && Spaces(b) && Spaces(c) && Spaces(d) && Trimmed(w)
    ensures ReadLine(a + k + b + "=" + c + w + d) == Setting(k, Unquote(w))
  {
    hide Trim, ReadLine;
    SaidTrims(k, a, b, c, w, d);
    PartsTrim(k, b, c, w);
    assert (k + b)[0] == k[0];
    PartsRead(a + k + b + "=" + c + w + d, k + b, if w == "" then "" else c + w);
  }

  lemma NothingIsSkipped(line: string)
    ensures ReadLine(line) == Skipped <==> SaysNothing(line)
  {
    var t := Trim(line);
    var a, b := TrimSplits(line);
    if t == "" {
      assert Spaces(line);
    } else if t[0] == '#' {
      assert t == "#" + t[1..];
      assert line == a + "#" + (t[1..] + b);
      assert Comment(line, a, t[1..] + b);
    } else {
      assert t[0] in line;
      if x, y :| Comment(line, x, y) {
        LeftDrops(x, "#" + y);
        assert line == x + ("#" + y);
        TrimRightAfter("#", y);
      }
    }
  }

  /** A line is skipped, or says what it is read as, or spoils the file. */
  lemma LineExactly(line: string)
    ensures ReadLine(line).Skipped? <==> SaysNothing(line)
    ensures forall k, v :: ReadLine(line) == Setting(k, v) <==> Says(line, k, v)
    ensures ReadLine(line).Invalid? <==> !SaysNothing(line) && forall k, v :: !Says(line, k, v)
  {
    hide ReadLine, Says, SaysNothing;
    NothingIsSkipped(line);
    forall k, v ensures ReadLine(line) == Setting(k, v) <==> Says(line, k, v) {
      if ReadLine(line) == Setting(k, v) { SettingIsSaid(line); }
      if Says(line, k, v) { SaidIsSetting(line, k, v); }
    }
  }

  // ---------------------------------------------------------------- the bound

  /** How many characters have this code point or a larger one. */
  function From(s: string, code: int): nat {
    if s == "" then 0 else From(s[1..], code) + if code <= s[0] as int then 1 else 0
  }

  lemma {:induction false} BytesSplit(a: string, b: string)
    ensures Bytes(a + b) == Bytes(a) + Bytes(b)
  {
    if b == "" {
      assert a + b == a;
    } else {
      assert (a + b)[..|a + b| - 1] == a + b[..|b| - 1];
      BytesSplit(a, b[..|b| - 1]);
    }
  }

  lemma {:induction false} BytesCounted(s: string)
    ensures Bytes(s) == |s| + From(s, 0x80) + From(s, 0x800) + From(s, 0x1_0000)
  {
    if s != "" {
      BytesCounted(s[1..]);
      BytesSplit([s[0]], s[1..]);
      assert [s[0]] + s[1..] == s;
      assert [s[0]][..0] == "";
    }
  }

  /** A line fits if its UTF-8 form has less than 65 536 bytes: one for each character, and one more from U+0080,
      from U+0800 and from U+10000 on. */
  lemma FitsExactly(line: string)
    ensures Scannable(line) <==> |line| + From(line, 0x80) + From(line, 0x800) + From(line, 0x1_0000) < 65_536
  {
    BytesCounted(line);
  }
}
