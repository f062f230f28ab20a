/** Text composition of src/compose.py: the project name guessed from a post,
    the four-part drop and sponsored threads and the two-part weekly digest,
    every part cut to the post length cap. */
module Compose {
  import opened Text
  import Templates

  const PartLimit: nat := 275

  // ---------------------------------------------------------------------------
  // project_name_from_text.

  /** `str.isupper()` on ASCII text: some upper-case letter and no lower-case one. */
  predicate IsUpperWord(w: string) {
    (exists i :: 0 <= i < |w| && IsAsciiUpper(w[i])) && forall i :: 0 <= i < |w| ==> !IsAsciiLower(w[i])
  }

  predicate IsNameWord(w: string) { IsUpperWord(w) && 3 <= |w| <= 18 }

  /** The first word of `ws` that is upper-case with 3 to 18 characters. */
  function FirstNameWord(ws: seq<string>): (r: Option<nat>)
    ensures r.Some? ==> r.value < |ws| && IsNameWord(ws[r.value])
                        && forall j :: 0 <= j < r.value ==> !IsNameWord(ws[j])
    ensures r.None? ==> forall j :: 0 <= j < |ws| ==> !IsNameWord(ws[j])
  {
    if ws == [] then None
    else if IsNameWord(ws[0]) then Some(0)
    else
      match FirstNameWord(ws[1..])
      case None => None
      case Some(k) => Some(k + 1)
  }

  /** The name project_name_from_text returns. */
  function ProjectName(text: string): (r: string)
    ensures 0 < |r| <= 18
  {
    var ws := Words(text);
    match FirstNameWord(Min10(ws))
    case Some(k) => ws[k]
    case None => if ws == [] then "PROJECT" else Truncate(ws[0], 18)
  }

  function Min10(ws: seq<string>): (r: seq<string>)
    ensures r == ws[..if |ws| < 10 then |ws| else 10]
  {
    if |ws| <= 10 then ws else ws[..10]
  }

  /** project_name_from_text: scan the first ten words, else fall back. */
  method ProjectNameFromText(text: string) returns (name: string)
    ensures name == ProjectName(text)
    ensures 0 < |name| <= 18
  {
    var words := Words(text);
    var first := Min10(words);
    var i := 0;
    while i < |first|
      invariant 0 <= i <= |first|
      invariant forall j :: 0 <= j < i ==> !IsNameWord(first[j])
    {
      var w := first[i];
      if IsNameWord(w) {
        NameWordIsFirst(first, i);
        return Truncate(w, 18);
      }
      i := i + 1;
    }
    if words == [] {
      return "PROJECT";
    }
    return Truncate(words[0], 18);
  }

  lemma NameWordIsFirst(ws: seq<string>, i: nat)
    requires i < |ws| && IsNameWord(ws[i])
    requires forall j :: 0 <= j < i ==> !IsNameWord(ws[j])
    ensures FirstNameWord(ws) == Some(i)
  {
  }

  /** The name is an upper-case word among the first ten exactly when one
      qualifies; it is then the first such word. */
  lemma {:induction false} ProjectNamePrefersCaps(text: string, i: nat)
    requires i < |Words(text)| && i < 10 && IsNameWord(Words(text)[i])
    requires forall j :: 0 <= j < i ==> !IsNameWord(Words(text)[j])
    ensures ProjectName(text) == Words(text)[i]
  {
    var ws := Words(text);
    NameWordIsFirst(Min10(ws), i);
  }

  // ---------------------------------------------------------------------------
  // Threads.

  /** `[x[:275] for x in parts]`. */
  function CapAll(parts: seq<string>): (r: seq<string>)
    ensures |r| == |parts|
    ensures forall i :: 0 <= i < |r| ==> |r[i]| <= PartLimit && r[i] == Truncate(parts[i], PartLimit)
  {
    seq(|parts|, i requires 0 <= i < |parts| => Truncate(parts[i], PartLimit))
  }

  function Badge(verified: bool): string {
    if verified then "VERIFIED \U{2705}" else "UNVERIFIED \U{26A0}\U{FE0F}"
  }

  /** The badge reads "VERIFIED" at its start exactly for a verified project. */
  lemma BadgeIff(verified: bool)
    ensures StartsWith(Badge(verified), "VERIFIED") <==> verified
  {
    if !verified {
      assert Badge(verified)[..8] != "VERIFIED" by {
        assert Badge(verified)[0] == 'U';
      }
    }
  }

  /** `f" (via @{handle})"` for a non-empty handle. */
  function Via(handle: Option<string>): string {
    if handle.Some? && handle.value != "" then " (via @" + handle.value + ")" else ""
  }

  /** The fourth part with the call to action appended, when there is one. */
  function WithCta(t4: string, cta: Option<string>): string {
    if cta.Some? && cta.value != "" then Strip(t4 + "\n\n" + cta.value) else t4
  }

  function ThreadHead(name: string, officialUrl: string, score: int, verified: bool, handle: Option<string>): string {
    "\U{1FA82} " + name + " \U{2014} " + Badge(verified) + Via(handle)
      + "\nScore: " + IntToString(score) + "/100\nOfficial: " + officialUrl
  }

  /** build_thread.  `draw` is the template index the random choice picks. */
  function BuildThread(name: string, officialUrl: string, score: int, verified: bool, handle: Option<string>,
                       accountTag: string, cta: Option<string>, rotation: bool, draw: nat): (r: seq<string>)
    ensures |r| == 4
    ensures forall i :: 0 <= i < 4 ==> |r[i]| <= PartLimit
    ensures r[0] == Truncate(ThreadHead(name, officialUrl, score, verified, handle), PartLimit)
    ensures r[1] == Templates.Pick(rotation, draw).t2 && r[2] == Templates.Pick(rotation, draw).t3
    ensures r[3] == Truncate(WithCta(Templates.FillTag(Templates.Pick(rotation, draw), accountTag), cta), PartLimit)
  {
    var t := Templates.Pick(rotation, draw);
    Templates.TemplatesShort(t);
    CapAll([ThreadHead(name, officialUrl, score, verified, handle), t.t2, t.t3,
            WithCta(Templates.FillTag(t, accountTag), cta)])
  }

  const SponsoredSafety: string :=
    "\U{1F6E1}\U{FE0F} Safety:\n\U{2022} Never share seed/private key\n\U{2022} Never pay 'fees'\n\U{2022} Use only official links"

  /** build_sponsored_thread. */
  function BuildSponsoredThread(title: string, project: string, officialUrl: string, note: string, tag: string,
                                accountTag: string, cta: Option<string>): (r: seq<string>)
    ensures |r| == 4
    ensures forall i :: 0 <= i < 4 ==> |r[i]| <= PartLimit
    ensures r[0] == Truncate("\U{2B50} " + title + " \U{2014} " + project + "\n" + tag + "\nOfficial: " + officialUrl, PartLimit)
    ensures r[1] == "Why featured: " + Truncate(note, 180)
    ensures r[2] == SponsoredSafety
    ensures r[3] == Truncate(WithCta("Follow " + accountTag + " for VERIFIED drops + weekly digests.", cta), PartLimit)
  {
    CapAll(["\U{2B50} " + title + " \U{2014} " + project + "\n" + tag + "\nOfficial: " + officialUrl,
            "Why featured: " + Truncate(note, 180),
            SponsoredSafety,
            WithCta("Follow " + accountTag + " for VERIFIED drops + weekly digests.", cta)])
  }

  /** Without a call to action the fourth part is the filled template alone
      (for an account tag short enough not to be cut). */
  lemma NoCtaKeepsTemplate(name: string, officialUrl: string, score: int, verified: bool, handle: Option<string>,
                           accountTag: string, cta: Option<string>, rotation: bool, draw: nat)
    requires cta.None? || cta.value == ""
    requires |accountTag| <= 195
    ensures BuildThread(name, officialUrl, score, verified, handle, accountTag, cta, rotation, draw)[3]
         == Templates.FillTag(Templates.Pick(rotation, draw), accountTag)
  {
    Templates.TemplatesShort(Templates.Pick(rotation, draw));
  }

  /** A call to action ending in a visible character is appended after a blank
      line to a fourth part that starts with a visible character, when the
      result fits. */
  lemma {:induction false} CtaAppended(t4: string, cta: string)
    requires |t4| > 0 && !IsSpace(t4[0])
    requires |cta| > 0 && !IsSpace(cta[|cta| - 1])
    ensures WithCta(t4, Some(cta)) == t4 + "\n\n" + cta
  {
    var s := t4 + "\n\n" + cta;
    assert s[0] == t4[0];
    assert LStrip(s) == s;
    assert s[|s| - 1] == cta[|cta| - 1];
    assert RStrip(s) == s;
    assert Strip(s) == s;
  }

  /** A call to action is the last thing in the fourth part of a drop thread
      that fits in one post, after a blank line. */
  lemma CtaEndsThread(name: string, officialUrl: string, score: int, verified: bool, handle: Option<string>,
                      accountTag: string, cta: string, rotation: bool, draw: nat)
    requires |cta| > 0 && !IsSpace(cta[|cta| - 1])
    requires |Templates.FillTag(Templates.Pick(rotation, draw), accountTag)| + 2 + |cta| <= PartLimit
    ensures BuildThread(name, officialUrl, score, verified, handle, accountTag, Some(cta), rotation, draw)[3]
         == Templates.FillTag(Templates.Pick(rotation, draw), accountTag) + "\n\n" + cta
  {
    var t := Templates.Pick(rotation, draw);
    Templates.TemplatesShort(t);
    var t4 := Templates.FillTag(t, accountTag);
    assert t4[0] == t.t4Head[0];
    CtaAppended(t4, cta);
  }

  // ---------------------------------------------------------------------------
  // build_weekly_digest.

  /** The columns of a drop row the digest reads. */
  datatype DigestRow = DigestRow(name: string, officialUrl: string, verified: bool, score: int)

  function DigestLine(r: DigestRow): string {
    (if r.verified then "\U{2705}" else "\U{26A0}\U{FE0F}") + " " + r.name
      + " (" + IntToString(r.score) + "/100) " + r.officialUrl
  }

  function DigestLines(rows: seq<DigestRow>): (ls: seq<string>)
    ensures |ls| == |rows| && forall i :: 0 <= i < |rows| ==> ls[i] == DigestLine(rows[i])
  {
    seq(|rows|, i requires 0 <= i < |rows| => DigestLine(rows[i]))
  }

  function DigestRoot(accountTag: string): string {
    "\U{1F5D3}\U{FE0F} Weekly Airdrop Intel Digest\nTop recent VERIFIED threads & links.\nFollow " + accountTag + "."
  }

  /** The two parts build_weekly_digest returns. */
  function WeeklyDigest(rows: seq<DigestRow>, accountTag: string, cta: Option<string>): (r: seq<string>)
    ensures |r| == 2 && |r[0]| <= PartLimit && |r[1]| <= PartLimit
    ensures StartsWith(r[1], Truncate(Join(DigestLines(rows), "\n"), 270))
    ensures (cta.None? || cta.value == "") ==> r[1] == Truncate(Join(DigestLines(rows), "\n"), 270)
  {
    var body := Truncate(Join(DigestLines(rows), "\n"), 270);
    var full := if cta.Some? && cta.value != "" then Truncate(body + "\n\n" + cta.value, PartLimit) else body;
    assert full[..|body|] == body;
    [Truncate(DigestRoot(accountTag), PartLimit), full]
  }

  /** build_weekly_digest: one line per row, then the caps. */
  method BuildWeeklyDigest(rows: seq<DigestRow>, accountTag: string, cta: Option<string>) returns (parts: seq<string>)
    ensures parts == WeeklyDigest(rows, accountTag, cta)
  {
    var lines: seq<string> := [];
    var i := 0;
    while i < |rows|
      invariant 0 <= i <= |rows|
      invariant lines == DigestLines(rows[..i])
    {
      lines := lines + [DigestLine(rows[i])];
      i := i + 1;
    }
    assert rows[..i] == rows;
    var body := Truncate(Join(lines, "\n"), 270);
    if cta.Some? && cta.value != "" {
      body := Truncate(body + "\n\n" + cta.value, PartLimit);
    }
    parts := [Truncate(DigestRoot(accountTag), PartLimit), body];
  }
}
