/** The two pure helpers of src/x_search.py: the search query and the choice
    of the best link of a found post.  The search call itself is an input:
    the model receives the candidates it returned. */
module XSearch {
  import opened Text

  // ---------------------------------------------------------------------------
  // build_query.

  /** A keyword with a space in it is put in double quotes. */
  function Quote(k: string): (r: string)
    ensures Contains(k, " ") ==> r == "\"" + k + "\""
    ensures !Contains(k, " ") ==> r == k
  {
    if Contains(k, " ") then "\"" + k + "\"" else k
  }

  function QuoteAll(keywords: seq<string>): (r: seq<string>)
    ensures |r| == |keywords| && forall i :: 0 <= i < |r| ==> r[i] == Quote(keywords[i])
  {
    seq(|keywords|, i requires 0 <= i < |keywords| => Quote(keywords[i]))
  }

  const QueryFilters: string := ") -is:retweet -is:reply lang:"

  /** build_query. */
  function BuildQuery(keywords: seq<string>, lang: string): (q: string)
    ensures StartsWith(q, "(") && EndsWith(q, QueryFilters + lang)
  {
    var q := "(" + Join(QuoteAll(keywords), " OR ") + QueryFilters + lang;
    assert q[|q| - |QueryFilters + lang|..] == QueryFilters + lang;
    q
  }

  /** Every keyword, quoted when it holds a space, occurs in the query. */
  lemma {:induction false} QueryHasKeyword(keywords: seq<string>, lang: string, i: nat)
    requires i < |keywords|
    ensures Contains(BuildQuery(keywords, lang), Quote(keywords[i]))
    ensures Contains(BuildQuery(keywords, lang), keywords[i])
  {
    var qs := QuoteAll(keywords);
    var joined := Join(qs, " OR ");
    JoinContains(qs, " OR ", i);
    var q := BuildQuery(keywords, lang);
    assert q == "(" + joined + (QueryFilters + lang);
    ContainsInfix("(", joined, QueryFilters + lang, qs[i]);
    var k := keywords[i];
    assert Contains(qs[i], k) by {
      if Contains(k, " ") {
        ContainsInfix("\"", k, "\"", k) by { ContainsAt(k, k, 0); }
      } else {
        ContainsAt(k, k, 0);
      }
    }
    ContainsTrans(q, qs[i], k);
  }

  /** The quoted keywords stand in the query in their given order, each one
      joined to the next by " OR ", so the query asks for any one of them. */
  lemma {:induction false} QueryJoinsWithOr(keywords: seq<string>, lang: string, i: nat)
    requires i + 1 < |keywords|
    ensures Contains(BuildQuery(keywords, lang), Quote(keywords[i]) + " OR " + Quote(keywords[i + 1]))
  {
    var qs := QuoteAll(keywords);
    var joined := Join(qs, " OR ");
    JoinAdjacent(qs, " OR ", i);
    var q := BuildQuery(keywords, lang);
    assert q == "(" + joined + (QueryFilters + lang);
    ContainsInfix("(", joined, QueryFilters + lang, qs[i] + " OR " + qs[i + 1]);
  }

  // ---------------------------------------------------------------------------
  // extract_best_url.

  /** One entry of a post's `entities.urls`. */
  datatype EntityUrl = EntityUrl(expandedUrl: Option<string>, url: Option<string>)

  /** A found post: its id, its text and the link entities attached to it. */
  datatype Candidate = Candidate(tweetId: string, text: string, entityUrls: seq<EntityUrl>)

  /** The characters stripped from the end of a chosen link. */
  const TrailingPunct: set<char> := {')', '.', ',', '!', '?'}

  /** `u.get("expanded_url") or u.get("url")`. */
  function EntityLink(e: EntityUrl): Option<string> {
    if e.expandedUrl.Some? && e.expandedUrl.value != "" then e.expandedUrl else e.url
  }

  predicate UsableLink(ex: Option<string>) { ex.Some? && ex.value != "" && StartsWith(ex.value, "http") }

  /** The first entity whose link starts with "http". */
  function FirstEntityLink(es: seq<EntityUrl>): (r: Option<string>)
    ensures r.Some? ==> exists k :: 0 <= k < |es| && EntityLink(es[k]) == r && UsableLink(r)
                          && forall j :: 0 <= j < k ==> !UsableLink(EntityLink(es[j]))
    ensures r.None? <==> forall j :: 0 <= j < |es| ==> !UsableLink(EntityLink(es[j]))
  {
    if es == [] then None
    else if UsableLink(EntityLink(es[0])) then EntityLink(es[0])
    else
      var r := FirstEntityLink(es[1..]);
      assert forall j :: 1 <= j < |es| ==> es[j] == es[1..][j - 1];
      r
  }

  /** `https?://\S+` matches at `i`. */
  predicate LinkAt(text: string, i: nat)
    requires i <= |text|
  {
    || (StartsWith(text[i..], "https://") && |text| > i + 8 && !IsSpace(text[i + 8]))
    || (StartsWith(text[i..], "http://") && |text| > i + 7 && !IsSpace(text[i + 7]))
  }

  /** The leftmost position at or after `i` where the pattern matches. */
  function FirstLinkAt(text: string, i: nat): (r: Option<nat>)
    requires i <= |text|
    ensures r.Some? ==> i <= r.value < |text| && LinkAt(text, r.value)
                        && forall j :: i <= j < r.value ==> !LinkAt(text, j)
    ensures r.None? ==> forall j :: i <= j <= |text| ==> !LinkAt(text, j)
    decreases |text| - i
  {
    if i == |text| then None
    else if LinkAt(text, i) then Some(i)
    else FirstLinkAt(text, i + 1)
  }

  /** The capture of `re.search(r"(https?://\S+)", text)`: the run of
      non-whitespace characters from the leftmost match. */
  function TextLink(text: string): (r: Option<string>)
    ensures r.Some? <==> FirstLinkAt(text, 0).Some?
    ensures r.Some? ==> StartsWith(r.value, "http") && NoSpace(r.value)
    ensures r.Some? ==>
              var i := FirstLinkAt(text, 0).value;
              && i + |r.value| <= |text| && r.value == text[i..i + |r.value|]
              && (i + |r.value| == |text| || IsSpace(text[i + |r.value|]))
  {
    match FirstLinkAt(text, 0)
    case None => None
    case Some(i) =>
      var rest := text[i..];
      LinkAtHttp(text, i);
      var n := WordLen(rest);
      assert n >= 4;
      assert rest[..n][..4] == rest[..4];
      assert rest[..n] == text[i..i + n];
      Some(rest[..n])
  }

  lemma LinkAtHttp(text: string, i: nat)
    requires i <= |text| && LinkAt(text, i)
    ensures |text| >= i + 4 && text[i..][..4] == "http"
  {
    var rest := text[i..];
    if StartsWith(rest, "https://") {
      assert rest[..4] == rest[..8][..4];
    } else {
      assert rest[..4] == rest[..7][..4];
    }
  }

  /** `s.rstrip(").,!?")` on a link: the "http" prefix survives. */
  function Trim(s: string): (r: string)
    requires StartsWith(s, "http")
    ensures StartsWith(r, "http")
    ensures |r| > 0 && r[|r| - 1] !in TrailingPunct
    ensures |r| <= |s| && r == s[..|r|] && forall i :: |r| <= i < |s| ==> s[i] in TrailingPunct
  {
    var r := RStripChars(s, TrailingPunct);
    assert s[3] == s[..4][3];
    assert |r| >= 4;
    assert r[..4] == s[..4];
    r
  }

  /** extract_best_url: the first usable entity link, else the first link in
      the text, trimmed of trailing punctuation; None when there is neither. */
  function BestUrl(c: Candidate): (r: Option<string>)
    ensures r.Some? ==> StartsWith(r.value, "http") && r.value[|r.value| - 1] !in TrailingPunct
    ensures r.None? <==> FirstEntityLink(c.entityUrls).None? && TextLink(c.text).None?
    ensures FirstEntityLink(c.entityUrls).Some? ==> r == Some(Trim(FirstEntityLink(c.entityUrls).value))
    ensures FirstEntityLink(c.entityUrls).None? && TextLink(c.text).Some? ==> r == Some(Trim(TextLink(c.text).value))
  {
    match FirstEntityLink(c.entityUrls)
    case Some(ex) => Some(Trim(ex))
    case None =>
      match TextLink(c.text)
      case Some(m) => Some(Trim(m))
      case None => None
  }

  /** extract_best_url: the loop over the entities, then the text search. */
  method ExtractBestUrl(c: Candidate) returns (r: Option<string>)
    ensures r == BestUrl(c)
  {
    var i := 0;
    while i < |c.entityUrls|
      invariant 0 <= i <= |c.entityUrls|
      invariant forall j :: 0 <= j < i ==> !UsableLink(EntityLink(c.entityUrls[j]))
    {
      var ex := EntityLink(c.entityUrls[i]);
      if ex.Some? && ex.value != "" && StartsWith(ex.value, "http") {
        FirstEntityLinkIs(c.entityUrls, i);
        return Some(Trim(ex.value));
      }
      i := i + 1;
    }
    var m := TextLink(c.text);
    if m.Some? {
      return Some(Trim(m.value));
    }
    return None;
  }

  lemma {:induction false} FirstEntityLinkIs(es: seq<EntityUrl>, i: nat)
    requires i < |es| && UsableLink(EntityLink(es[i]))
    requires forall j :: 0 <= j < i ==> !UsableLink(EntityLink(es[j]))
    ensures FirstEntityLink(es) == EntityLink(es[i])
    decreases i
  {
    if i > 0 {
      FirstEntityLinkIs(es[1..], i - 1);
    }
  }
}
