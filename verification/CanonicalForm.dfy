/** What canonical text looks like: the characters that are escaped, and one document in full. */
module CanonicalForm {
  import opened JsonText
  import opened CanonicalJson

  // ---------------------------------------------------------------- strings

  /** A character that must not stand in canonical text as it is. */
  predicate Special(c: char) {
    c < ' ' || c in {'"', '\\', '<', '>', '&', '\U{2028}', '\U{2029}'}
  }

  /** Exactly the special characters are escaped: seven of them with one letter or sign, the others with four
      lower-case hexadecimal digits. */
  lemma EscapesExactly(c: char)
    ensures Escape(c) == [c] <==> !Special(c)
    ensures |Escape(c)| == 2 <==> c in {'"', '\\', '\U{8}', '\U{C}', '\n', '\r', '\t'}
    ensures |Escape(c)| in {1, 2, 6} && (1 < |Escape(c)| ==> Escape(c)[0] == '\\')
    ensures |Escape(c)| == 6 ==>
              Escape(c)[1] == 'u' && forall i | 2 <= i < 6 :: '0' <= Escape(c)[i] <= '9' || 'a' <= Escape(c)[i] <= 'f'
  {
  }

  /** So canonical strings hold no control characters, line separators or signs of markup. */
  lemma {:induction false} QuotedIsSafe(s: string)
    ensures forall c | c in EscapeAll(s) :: ' ' <= c && c !in {'<', '>', '&', '\U{2028}', '\U{2029}'}
  {
    if s != "" {
      QuotedIsSafe(s[1..]);
      EscapesExactly(s[0]);
    }
  }

  // ---------------------------------------------------------------- one document

  const LIST: Json := Arr([Str("<"), Null])
  const DOCUMENT: Json := Obj(map["a" := LIST, "B" := Num("1e3")])

  lemma SortedKeys()
    ensures Sorted({"a", "B"}) == ["B", "a"]
  {
    var keys := {"a", "B"};
    assert Ascending(["B", "a"]);
    assert forall k :: k in Sorted(keys) <==> k in ["B", "a"];
    AscendingIsUnique(Sorted(keys), ["B", "a"]);
  }

  lemma QuotedTexts()
    ensures Quoted("B") == "\"B\"" && Quoted("a") == "\"a\"" && Quoted("<") == "\"\\u003c\""
  {
    assert EscapeAll("B") == "B" && EscapeAll("a") == "a";
    assert EscapeAll("<") == Escape('<');
  }

  lemma ListText(path: Path)
    requires IsOrder(ByKeys)
    ensures Write(LIST, ByKeys, path) == "[" + "\"\\u003c\"" + "," + "null" + "]"
  {
    QuotedTexts();
    assert Items(LIST, ByKeys, path, 1) == "null";
    assert Items(LIST, ByKeys, path, 0) == Quoted("<") + "," + "null";
  }

  lemma LastText()
    requires IsOrder(ByKeys)
    ensures Members(DOCUMENT, ByKeys, [], ["a"]) == "\"a\"" + ":" + "[" + "\"\\u003c\"" + "," + "null" + "]"
  {
    hide Quoted;
    QuotedTexts();
    ListText([] + [Under("a")]);
  }

  lemma MembersText()
    requires IsOrder(ByKeys)
    ensures Members(DOCUMENT, ByKeys, [], ["B", "a"]) ==
            "\"B\"" + ":" + "1e3" + "," + Members(DOCUMENT, ByKeys, [], ["a"])
  {
    hide Quoted;
    QuotedTexts();
    assert ["B", "a"][1..] == ["a"];
  }

  /** Keys by their characters, capital letters first; no space anywhere; the angle bracket escaped; the number as it
      was spelled. */
  lemma DocumentText()
    ensures Canonical(DOCUMENT) ==
            "{" + "\"B\"" + ":" + "1e3" + "," + "\"a\"" + ":" + "[" + "\"\\u003c\"" + "," + "null" + "]" + "}"
  {
    hide Members;
    SortedIsOrder();
    SortedKeys();
    assert DOCUMENT.fields.Keys == {"a", "B"};
    LastText();
    MembersText();
  }
}
