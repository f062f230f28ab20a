/** The scorer of src/scoring.py: a substring block list and a clamped
    additive integer score.  The text of a candidate is always a string (an
    absent text reaches the scorer as ""). */
module Scoring {
  import opened Text

  const BlockPatterns: seq<string> :=
    ["seed phrase", "private key", "send usdt", "send eth", "activation fee",
     "processing fee", "gift card", "guaranteed profit"]

  const GoodHints: seq<string> := ["docs", "official", "blog", "github", "mirror", "snapshot", "quest", "points"]

  /** `hard_block(text)`: the lower-cased text contains one of the block phrases. */
  predicate HardBlock(text: string) {
    exists k :: 0 <= k < |BlockPatterns| && Contains(Lower(text), BlockPatterns[k])
  }

  lemma LowerSlice(s: string, i: nat, j: nat)
    requires i <= j <= |s|
    ensures Lower(s)[i..j] == Lower(s[i..j])
  {
  }

  /** A block phrase written in any letter case is blocked. */
  lemma BlockedInAnyCase(text: string, i: nat, k: nat)
    requires k < |BlockPatterns| && i + |BlockPatterns[k]| <= |text|
    requires Lower(text[i..i + |BlockPatterns[k]|]) == BlockPatterns[k]
    ensures HardBlock(text)
  {
    var p := BlockPatterns[k];
    LowerSlice(text, i, i + |p|);
    ContainsAt(Lower(text), p, i);
  }

  /** `re.sub(r"\s+", " ", s)`: every maximal whitespace run becomes one space. */
  function Collapse(s: string): (r: string)
    ensures |r| <= |s|
    decreases |s|
  {
    if s == [] then []
    else if IsSpace(s[0]) then
      var rest := LStrip(s);
      LStripShrinks(s);
      " " + Collapse(rest)
    else [s[0]] + Collapse(s[1..])
  }

  lemma LStripShrinks(s: string)
    requires |s| > 0 && IsSpace(s[0])
    ensures |LStrip(s)| < |s|
  {
  }

  /** How many of the hints occur in `t` (each counted once). */
  function HintCount(t: string, hints: seq<string>): (n: nat)
    ensures n <= |hints|
  {
    if hints == [] then 0
    else HintCount(t, hints[..|hints| - 1]) + (if Contains(t, hints[|hints| - 1]) then 1 else 0)
  }

  function Clamp(s: int): (r: int)
    ensures 0 <= r <= 100
    ensures 0 <= s <= 100 ==> r == s
  {
    if s < 0 then 0 else if s > 100 then 100 else s
  }

  /** The sum before clamping. */
  function RawScore(text: string, officialUrl: Option<string>, verified: bool): int {
    var t := Lower(text);
    50
    + (if verified then 20 else 0)
    + 6 * HintCount(t, GoodHints)
    + (if officialUrl.Some? && StartsWith(officialUrl.value, "https://") then 5 else 0)
    + (if |Collapse(t)| > 220 then 8 else 0)
    - (if Contains(t, "dm") && !Contains(t, "link") then 8 else 0)
  }

  /** `score(text, official_url, verified)`. */
  function ScoreOf(text: string, officialUrl: Option<string>, verified: bool): (r: int)
    ensures 42 <= r <= 100
  {
    Clamp(RawScore(text, officialUrl, verified))
  }

  /** score: the loop over the good hints, then the fixed adjustments and the clamp. */
  method Score(text: string, officialUrl: Option<string>, verified: bool) returns (s: int)
    ensures s == ScoreOf(text, officialUrl, verified)
    ensures 42 <= s <= 100
  {
    var t := Lower(text);
    s := 50;
    if verified {
      s := s + 20;
    }
    var i := 0;
    while i < |GoodHints|
      invariant 0 <= i <= |GoodHints|
      invariant s == 50 + (if verified then 20 else 0) + 6 * HintCount(t, GoodHints[..i])
    {
      assert GoodHints[..i + 1][..i] == GoodHints[..i];
      if Contains(t, GoodHints[i]) {
        s := s + 6;
      }
      i := i + 1;
    }
    assert GoodHints[..i] == GoodHints;
    if officialUrl.Some? && StartsWith(officialUrl.value, "https://") {
      s := s + 5;
    }
    if |Collapse(t)| > 220 {
      s := s + 8;
    }
    if Contains(t, "dm") && !Contains(t, "link") {
      s := s - 8;
    }
    s := Clamp(s);
  }

  /** Being verified adds exactly 20 points before the cap at 100. */
  lemma {:induction false} VerifiedBonus(text: string, officialUrl: Option<string>)
    ensures ScoreOf(text, officialUrl, true) == Min(100, ScoreOf(text, officialUrl, false) + 20)
    ensures ScoreOf(text, officialUrl, false) <= ScoreOf(text, officialUrl, true)
  {
    var r := RawScore(text, officialUrl, false);
    assert RawScore(text, officialUrl, true) == r + 20;
    assert r >= 42;
  }

  /** The count over a list is the number of its members occurring in `t`. */
  lemma {:induction false} HintCountBounds(t: string, hints: seq<string>)
    ensures HintCount(t, hints) == |set j | 0 <= j < |hints| && Contains(t, hints[j])|
  {
    if hints != [] {
      var n := |hints| - 1;
      HintCountBounds(t, hints[..n]);
      var prev := set j | 0 <= j < n && Contains(t, hints[..n][j]);
      var all := set j | 0 <= j < |hints| && Contains(t, hints[j]);
      assert prev == set j | 0 <= j < n && Contains(t, hints[j]);
      if Contains(t, hints[n]) {
        assert all == prev + {n};
      } else {
        assert all == prev;
      }
    }
  }

  /** A verified text of at most 220 characters that mentions "official" and
      "docs" and no other hint, with no "dm", and an https URL scores 87. */
  lemma {:induction false} ScoreExample(text: string, url: string)
    requires |text| <= 220
    requires Contains(Lower(text), "official") && Contains(Lower(text), "docs")
    requires forall j :: 2 <= j < |GoodHints| ==> !Contains(Lower(text), GoodHints[j])
    requires !Contains(Lower(text), "dm")
    requires StartsWith(url, "https://")
    ensures ScoreOf(text, Some(url), true) == 87
  {
    var t := Lower(text);
    HintCountBounds(t, GoodHints);
    var found := set j | 0 <= j < |GoodHints| && Contains(t, GoodHints[j]);
    assert found == {0, 1} by {
      assert GoodHints[0] == "docs" && GoodHints[1] == "official";
    }
    assert |Collapse(t)| <= 220;
  }
}
