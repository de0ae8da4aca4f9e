/** The execution policy of a cue: which cues it starts together with itself. */
module CuePolicy {
  import opened StageTypes
  import opened Text

  const TOGETHER := "TOGETHER"
  const MAX_START_DELAY_MS := 600_000

  /** A stored policy: absent or blank, not JSON of the expected shape, or decoded. */
  datatype RawPolicy = Blank | Malformed | Decoded(linked: seq<string>, mode: string, delay: int)

  datatype Policy = Policy(linked: seq<string>, mode: string, delay: int)

  const NO_POLICY := Policy([], "", 0)

  /** The ids as they are kept: trimmed, blank ones dropped. */
  function Cleaned(ids: seq<string>): seq<string> {
    if ids == [] then []
    else
      var id := Trim(ids[|ids| - 1]);
      Cleaned(ids[..|ids| - 1]) + (if id == "" then [] else [id])
  }

  function ModeOf(linked: seq<string>, mode: string): string {
    var m := Upper(Trim(mode));
    if linked != [] && m == "" then TOGETHER else m
  }

  predicate Acceptable(raw: RawPolicy) {
    raw.Decoded? ==>
      var linked := Cleaned(raw.linked);
      && NoRepeats(linked)
      && (ModeOf(linked, raw.mode) == "" || ModeOf(linked, raw.mode) == TOGETHER)
      && 0 <= raw.delay <= MAX_START_DELAY_MS
  }

  method Parse(raw: RawPolicy) returns (r: Option<Policy>)
    ensures r.Some? <==> !raw.Malformed? && Acceptable(raw)
    ensures raw.Blank? ==> r == Some(NO_POLICY)
    ensures r.Some? && raw.Decoded? ==>
              r.value == Policy(Cleaned(raw.linked), ModeOf(Cleaned(raw.linked), raw.mode), raw.delay)
  {
    hide Trim, Upper;
    match raw {
      case Blank => return Some(NO_POLICY);
      case Malformed => return None;
      case Decoded(linked, mode, delay) =>
        var seen: set<string>, normalized := {}, [];
        for i := 0 to |linked|
          invariant normalized == Cleaned(linked[..i])
          invariant NoRepeats(normalized)
          invariant forall id :: id in seen <==> id in normalized
        {
          assert linked[..i + 1][..i] == linked[..i];
          var id := Trim(linked[i]);
          if id == "" { continue; }
          if id in seen {
            var k :| 0 <= k < |normalized| && normalized[k] == id;
            assert (normalized + [id])[k] == (normalized + [id])[|normalized|];
            RepeatsStay(linked, i + 1);
            return None;
          }
          seen := seen + {id};
          normalized := normalized + [id];
        }
        assert linked[..|linked|] == linked;
        var m := Upper(Trim(mode));
        if normalized != [] && m == "" { m := TOGETHER; }
        if m != "" && m != TOGETHER { return None; }
        if delay < 0 || delay > MAX_START_DELAY_MS { return None; }
        return Some(Policy(normalized, m, delay));
    }
  }

  lemma {:induction false} CleanedPrefix(ids: seq<string>, n: nat)
    requires n <= |ids|
    ensures Cleaned(ids[..n]) <= Cleaned(ids)
  {
    if n == |ids| {
      assert ids[..n] == ids;
    } else {
      CleanedPrefix(ids[..|ids| - 1], n);
      assert ids[..|ids| - 1][..n] == ids[..n];
    }
  }

  lemma RepeatsStay(ids: seq<string>, n: nat)
    requires n <= |ids| && !NoRepeats(Cleaned(ids[..n]))
    ensures !NoRepeats(Cleaned(ids))
  {
    CleanedPrefix(ids, n);
  }

  lemma {:induction false} CleanedIsClean(ids: seq<string>)
    ensures forall i | 0 <= i < |Cleaned(ids)| :: Cleaned(ids)[i] != "" && Trimmed(Cleaned(ids)[i])
  {
    if ids != [] {
      CleanedIsClean(ids[..|ids| - 1]);
      TrimIsTrimmed(ids[|ids| - 1]);
    }
  }

  lemma {:induction false} CleanStays(ids: seq<string>)
    requires forall i | 0 <= i < |ids| :: ids[i] != "" && Trimmed(ids[i])
    ensures Cleaned(ids) == ids
  {
    if ids != [] {
      CleanStays(ids[..|ids| - 1]);
      TrimIsTrimmed(ids[|ids| - 1]);
      assert ids[..|ids| - 1] + [ids[|ids| - 1]] == ids;
    }
  }

  /** Parsing is a normalization: an accepted policy, stored again, is accepted unchanged. */
  lemma ParsedIsStable(raw: RawPolicy)
    requires raw.Decoded? && Acceptable(raw)
    ensures var linked := Cleaned(raw.linked);
            var again := Decoded(linked, ModeOf(linked, raw.mode), raw.delay);
            && Acceptable(again) && Cleaned(again.linked) == linked
            && ModeOf(Cleaned(again.linked), again.mode) == ModeOf(linked, raw.mode)
  {
    CleanedIsClean(raw.linked);
    CleanStays(Cleaned(raw.linked));
    ModeIsStable(Cleaned(raw.linked), raw.mode);
  }

  lemma UpperStays(s: string)
    requires forall i | 0 <= i < |s| :: 'A' <= s[i] <= 'Z'
    ensures Upper(s) == s
  {
    hide Upper;
  }

  lemma ModeIsStable(linked: seq<string>, mode: string)
    requires ModeOf(linked, mode) == "" || ModeOf(linked, mode) == TOGETHER
    ensures ModeOf(linked, ModeOf(linked, mode)) == ModeOf(linked, mode)
  {
    hide Trim, Upper;
    TrimIsTrimmed("");
    UpperStays("");
    TrimIsTrimmed(TOGETHER);
    UpperStays(TOGETHER);
  }

  // ---------------------------------------------------------------- what is accepted

  /** TOGETHER in any mixture of capital and small letters. */
  predicate SpellsTogether(s: string) {
    |s| == 8 && forall i | 0 <= i < 8 :: s[i] == "TOGETHER"[i] || s[i] == "together"[i]
  }

  lemma {:induction false} CleanedHas(ids: seq<string>, x: string)
    ensures x in Cleaned(ids) <==> x != "" && exists i :: 0 <= i < |ids| && Trim(ids[i]) == x
  {
    hide Trim;
    if ids != [] {
      var n := |ids| - 1;
      CleanedHas(ids[..n], x);
      if i :| 0 <= i < |ids| && Trim(ids[i]) == x { assert i < n ==> ids[..n][i] == ids[i]; }
      if i :| 0 <= i < n && Trim(ids[..n][i]) == x { assert ids[..n][i] == ids[i]; }
    }
  }

  /** No two ids that are not blank are the same but for space around them. */
  ghost predicate Distinct(ids: seq<string>) {
    forall i, j | 0 <= i < j < |ids| && Trim(ids[i]) != "" :: Trim(ids[i]) != Trim(ids[j])
  }

  lemma {:induction false} CleanedRepeats(ids: seq<string>)
    ensures NoRepeats(Cleaned(ids)) <==> Distinct(ids)
  {
    hide Trim;
    if ids != [] {
      var n := |ids| - 1;
      var before, id := Cleaned(ids[..n]), Trim(ids[n]);
      CleanedRepeats(ids[..n]);
      CleanedHas(ids[..n], id);
      LastRepeats(before, id);
      LastDistinct(ids);
      assert id == "" ==> Cleaned(ids) == before;
    }
  }

  lemma LastRepeats(s: seq<string>, x: string)
    ensures NoRepeats(s + [x]) <==> NoRepeats(s) && x !in s
  {
    if NoRepeats(s + [x]) {
      forall i, j | 0 <= i < j < |s| ensures s[i] != s[j] { assert (s + [x])[i] == s[i] && (s + [x])[j] == s[j]; }
      forall i | 0 <= i < |s| ensures s[i] != x { assert (s + [x])[i] == s[i] && (s + [x])[|s|] == x; }
    }
  }

  lemma LastDistinct(ids: seq<string>)
    requires ids != []
    ensures var n := |ids| - 1;
            Distinct(ids) <==>
            Distinct(ids[..n]) && (Trim(ids[n]) == "" || forall i | 0 <= i < n :: Trim(ids[..n][i]) != Trim(ids[n]))
  {
    hide Trim;
    var n := |ids| - 1;
    assert forall i | 0 <= i < n :: ids[..n][i] == ids[i];
  }

  lemma UpperSpells(s: string)
    ensures Upper(s) == TOGETHER <==> SpellsTogether(s)
    ensures Upper(s) == "" <==> s == ""
  {
    var u := Upper(s);
    if u == TOGETHER {
      forall i | 0 <= i < 8 ensures s[i] == "TOGETHER"[i] || s[i] == "together"[i] {
        assert UpperChar(s[i]) == "TOGETHER"[i];
      }
    }
    if SpellsTogether(s) {
      forall i | 0 <= i < 8 ensures u[i] == TOGETHER[i] { assert u[i] == UpperChar(s[i]); }
    }
  }

  /** A decoded policy is accepted if and only if its ids are distinct, its mode is blank or TOGETHER, and its delay
      is at most ten minutes; the mode is TOGETHER then, unless it was blank and no cue is linked. */
  lemma AcceptedExactly(linked: seq<string>, mode: string, delay: int)
    ensures Acceptable(Decoded(linked, mode, delay)) <==>
            Distinct(linked) && (Trim(mode) == "" || SpellsTogether(Trim(mode))) && 0 <= delay <= 600_000
    ensures Acceptable(Decoded(linked, mode, delay)) ==>
              ModeOf(Cleaned(linked), mode) ==
              if Trim(mode) == "" && forall i | 0 <= i < |linked| :: Trim(linked[i]) == "" then "" else "TOGETHER"
  {
    hide Trim, Upper, SpellsTogether;
    CleanedRepeats(linked);
    UpperSpells(Trim(mode));
    if i :| 0 <= i < |linked| && Trim(linked[i]) != "" { CleanedHas(linked, Trim(linked[i])); }
    if Cleaned(linked) != [] { CleanedHas(linked, Cleaned(linked)[0]); }
  }
}
