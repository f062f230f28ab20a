/** The link classifier and the ownership check of src/verify.py: URL host and
    scheme, the shortener / social-only / allow-list tests, the scan of a page
    for an X profile link, and the tolerant three-part verification result.
    The page fetch and the profile lookup are inputs (oracles). */
module Verify {
  import opened Text

  const Shorteners: set<string> :=
    {"bit.ly", "t.co", "tinyurl.com", "goo.gl", "ow.ly", "buff.ly", "cutt.ly", "is.gd", "rebrand.ly", "linktr.ee"}
  const SocialOnly: set<string> := {"t.me", "telegram.me", "discord.gg", "discord.com"}

  // ---------------------------------------------------------------------------
  // A simplified urllib.parse.urlsplit: scheme and network location only.

  datatype UrlParts = UrlParts(scheme: string, netloc: string)

  /** Leading C0 control characters and spaces, which urlsplit strips first. */
  function LStripC0(s: string): (r: string)
    ensures |r| <= |s|
  {
    if |s| > 0 && s[0] <= ' ' then LStripC0(s[1..]) else s
  }

  /** urlsplit deletes every tab, carriage return and line feed. */
  function RemoveUnsafe(s: string): (r: string)
    ensures forall i :: 0 <= i < |r| ==> r[i] != '\t' && r[i] != '\r' && r[i] != '\n'
  {
    if s == [] then []
    else (if s[0] == '\t' || s[0] == '\r' || s[0] == '\n' then [] else [s[0]]) + RemoveUnsafe(s[1..])
  }

  lemma {:induction false} RemoveUnsafeKeeps(s: string)
    requires forall i :: 0 <= i < |s| ==> s[i] != '\t' && s[i] != '\r' && s[i] != '\n'
    ensures RemoveUnsafe(s) == s
  {
    if s != [] {
      RemoveUnsafeKeeps(s[1..]);
    }
  }

  predicate IsSchemeChar(c: char) { IsAsciiLetter(c) || IsDigit(c) || c == '+' || c == '-' || c == '.' }

  /** `str.find(c)`: the first index of `c`, or -1. */
  function Find(s: string, c: char): (r: int)
    ensures -1 <= r < |s|
    ensures r >= 0 ==> s[r] == c && forall k :: 0 <= k < r ==> s[k] != c
    ensures r == -1 ==> forall k :: 0 <= k < |s| ==> s[k] != c
  {
    if s == [] then -1
    else if s[0] == c then 0
    else
      var r := Find(s[1..], c);
      if r < 0 then -1 else r + 1
  }

  predicate IsNetlocDelim(c: char) { c == '/' || c == '?' || c == '#' }

  /** Length of the network location at the start of `s`: up to the first `/`, `?` or `#`. */
  function NetlocLen(s: string): (r: nat)
    ensures r <= |s|
    ensures forall i :: 0 <= i < r ==> !IsNetlocDelim(s[i])
    ensures r < |s| ==> IsNetlocDelim(s[r])
  {
    if s == [] || IsNetlocDelim(s[0]) then 0 else 1 + NetlocLen(s[1..])
  }

  /** The netloc length is determined by the first delimiter. */
  lemma NetlocLenIs(s: string, n: nat)
    requires n <= |s|
    requires forall i :: 0 <= i < n ==> !IsNetlocDelim(s[i])
    requires n < |s| ==> IsNetlocDelim(s[n])
    ensures NetlocLen(s) == n
  {
  }

  predicate HasScheme(u: string, i: int) {
    0 < i <= |u| && IsAsciiLetter(u[0]) && forall k :: 0 <= k < i ==> IsSchemeChar(u[k])
  }

  /** The text urlsplit actually parses. */
  function Sanitize(url: string): string { RemoveUnsafe(LStripC0(url)) }

  /** The scheme (lower-cased) and the remainder: a scheme is present when the
      first `:` comes after a letter-led run of scheme characters. */
  function SplitScheme(u: string): (r: (string, string))
    ensures IsLowered(r.0)
  {
    var i := Find(u, ':');
    if HasScheme(u, i) then (Lower(u[..i]), u[i + 1..]) else ("", u)
  }

  /** The network location: after a leading `//`, up to the first delimiter. */
  function NetlocOf(rest: string): string {
    if StartsWith(rest, "//") then rest[2..][..NetlocLen(rest[2..])] else ""
  }

  /** urlsplit raises ValueError when the netloc has only one of `[` and `]`. */
  predicate BracketMismatch(netloc: string) { ('[' in netloc) != (']' in netloc) }

  /** `urlsplit(url)` reduced to (scheme, netloc); None where urlsplit raises
      ValueError. */
  function SplitUrl(url: string): (r: Option<UrlParts>)
    ensures r.Some? ==> IsLowered(r.value.scheme)
  {
    var (scheme, rest) := SplitScheme(Sanitize(url));
    var netloc := NetlocOf(rest);
    if BracketMismatch(netloc) then None else Some(UrlParts(scheme, netloc))
  }

  predicate IsSchemeName(scheme: string) {
    |scheme| > 0 && IsAsciiLetter(scheme[0]) && forall k :: 0 <= k < |scheme| ==> IsSchemeChar(scheme[k])
  }

  predicate NoUnsafe(s: string) { forall i :: 0 <= i < |s| ==> s[i] != '\t' && s[i] != '\r' && s[i] != '\n' }

  predicate NoNetlocDelim(s: string) { forall i :: 0 <= i < |s| ==> !IsNetlocDelim(s[i]) }

  /** A URL that starts with a letter and holds no tab or newline is parsed as written. */
  lemma SanitizeKeeps(url: string)
    requires |url| > 0 && url[0] > ' ' && NoUnsafe(url)
    ensures Sanitize(url) == url
  {
    RemoveUnsafeKeeps(url);
  }

  lemma SplitSchemeOf(scheme: string, rest: string)
    requires IsSchemeName(scheme)
    ensures SplitScheme(scheme + ":" + rest) == (Lower(scheme), rest)
  {
    var u := scheme + ":" + rest;
    assert u[|scheme|] == ':';
    assert forall k :: 0 <= k < |scheme| ==> u[k] == scheme[k];
    assert Find(u, ':') == |scheme|;
    assert u[..|scheme|] == scheme;
  }

  lemma NetlocOfSlashes(h: string, path: string)
    requires NoNetlocDelim(h) && (path == [] || IsNetlocDelim(path[0]))
    ensures NetlocOf("//" + h + path) == h
  {
    var rest := "//" + h + path;
    assert rest[2..] == h + path;
    NetlocLenIs(h + path, |h|);
    assert (h + path)[..|h|] == h;
  }

  /** `scheme://host/path` splits into the lower-cased scheme and the host. */
  lemma {:induction false} SplitSimple(scheme: string, h: string, path: string)
    requires IsSchemeName(scheme) && NoUnsafe(h) && NoUnsafe(path)
    requires NoNetlocDelim(h) && (path == [] || IsNetlocDelim(path[0]))
    requires !BracketMismatch(h)
    ensures SplitUrl(scheme + "://" + h + path) == Some(UrlParts(Lower(scheme), h))
  {
    var url := scheme + "://" + h + path;
    assert url == scheme + ":" + ("//" + h + path);
    assert NoUnsafe(url) by {
      forall i | 0 <= i < |url| ensures url[i] != '\t' && url[i] != '\r' && url[i] != '\n' {
        if i < |scheme| { assert url[i] == scheme[i]; }
        else if i < |scheme| + 3 { }
        else if i < |scheme| + 3 + |h| { assert url[i] == h[i - |scheme| - 3]; }
        else { assert url[i] == path[i - |scheme| - 3 - |h|]; }
      }
    }
    assert url[0] == scheme[0];
    SanitizeKeeps(url);
    SplitSchemeOf(scheme, "//" + h + path);
    NetlocOfSlashes(h, path);
  }

  // ---------------------------------------------------------------------------
  // The classifier.

  /** `host(url)`: the lower-cased network location without one leading
      "www.", or None for a missing/empty URL, an empty host or a parse error. */
  function Host(url: Option<string>): (r: Option<string>)
    ensures r.Some? ==> r.value != "" && IsLowered(r.value)
    ensures url.None? || url.value == "" ==> r.None?
  {
    if url.None? || url.value == "" then None
    else
      match SplitUrl(url.value)
      case None => None
      case Some(p) => if HostOfNetloc(p.netloc) == "" then None else Some(HostOfNetloc(p.netloc))
  }

  /** The lower-cased netloc with one leading "www." removed. */
  function HostOfNetloc(netloc: string): (h: string)
    ensures IsLowered(h)
  {
    var l := Lower(netloc);
    if StartsWith(l, "www.") then l[4..] else l
  }

  /** `is_https(url)`: the URL's scheme, lower-cased, is "https". */
  function IsHttps(url: string): bool {
    match SplitUrl(url)
    case None => false
    case Some(p) => Lower(p.scheme) == "https"
  }

  /** `is_shortener(domain)`: exact membership; None is never a member. */
  function IsShortener(domain: Option<string>): (r: bool)
    ensures r <==> domain.Some? && domain.value in Shorteners
  {
    OrEmpty(domain) in Shorteners
  }

  /** `is_social_only(domain)`: exact membership; None is never a member. */
  function IsSocialOnly(domain: Option<string>): (r: bool)
    ensures r <==> domain.Some? && domain.value in SocialOnly
  {
    OrEmpty(domain) in SocialOnly
  }

  /** `domain_allowed(allowlist, domain)`: an empty list allows everything;
      otherwise the lower-cased domain must equal an entry or end in "." + entry. */
  function DomainAllowed(allowlist: seq<string>, domain: Option<string>): bool {
    if |allowlist| == 0 then true
    else
      var d := Lower(OrEmpty(domain));
      if d == "" then false
      else exists k :: 0 <= k < |allowlist| && (d == allowlist[k] || EndsWith(d, "." + allowlist[k]))
  }

  // ---------------------------------------------------------------------------
  // The profile-link scan of extract_x_handle_from_html.

  predicate IsHandleChar(c: char) { IsAsciiLetter(c) || IsDigit(c) || c == '_' }

  predicate IsHandle(h: string) {
    2 <= |h| <= 15 && forall i :: 0 <= i < |h| ==> IsHandleChar(h[i])
  }

  /** Case-insensitive match of the lower-case literal `p` at index `i`. */
  predicate MatchCI(s: string, i: nat, p: string) {
    i + |p| <= |s| && Lower(s[i..i + |p|]) == p
  }

  /** Length of `https?://` at `i` (0 when absent). */
  function SchemeLen(s: string, i: nat): (n: nat)
    ensures n > 0 ==> i + n <= |s|
  {
    if MatchCI(s, i, "https://") then 8 else if MatchCI(s, i, "http://") then 7 else 0
  }

  /** Length of `(?:www\.)?<site>/` at `j` (0 when absent). */
  function SiteLen(s: string, j: nat, site: string): (n: nat)
    ensures n > 0 ==> j + n <= |s|
  {
    if MatchCI(s, j, "www." + site + "/") then |site| + 5
    else if MatchCI(s, j, site + "/") then |site| + 1
    else 0
  }

  /** Number of `[A-Za-z0-9_]` characters starting at `k`. */
  function RunLen(s: string, k: nat): (n: nat)
    requires k <= |s|
    ensures k + n <= |s|
    ensures forall i :: k <= i < k + n ==> IsHandleChar(s[i])
    ensures k + n < |s| ==> !IsHandleChar(s[k + n])
    decreases |s| - k
  {
    if k == |s| || !IsHandleChar(s[k]) then 0 else 1 + RunLen(s, k + 1)
  }

  /** The handle the pattern `https?://(?:www\.)?<site>/([A-Za-z0-9_]{2,15})(?!/status)`
      captures when its match starts at `i`.  The regular expression backtracks
      into the repetition when the look-ahead fails, so a 3- to 15-character
      run followed by "/status" yields the run minus its last character. */
  function HandleAt(s: string, site: string, i: nat): (r: Option<string>)
    ensures r.Some? ==> IsHandle(r.value)
  {
    var a := SchemeLen(s, i);
    if a == 0 then None
    else
      var b := SiteLen(s, i + a, site);
      if b == 0 then None
      else CaptureAt(s, i + a + b)
  }

  /** The capture group `([A-Za-z0-9_]{2,15})(?!/status)` at `k`. */
  function CaptureAt(s: string, k: nat): (r: Option<string>)
    requires k <= |s|
    ensures r.Some? ==> IsHandle(r.value)
  {
    var n := Min(RunLen(s, k), 15);
    if n < 2 then None
    else if !MatchCI(s, k + n, "/status") then Some(s[k..k + n])
    else if n >= 3 then Some(s[k..k + n - 1])
    else None
  }

  /** `re.search`: the capture of the leftmost match at or after `i`. */
  function FindHandle(s: string, site: string, i: nat): (r: Option<string>)
    ensures r.Some? ==> IsHandle(r.value)
    ensures r.Some? ==> exists j :: i <= j < |s| && r == HandleAt(s, site, j)
                                   && forall k :: i <= k < j ==> HandleAt(s, site, k).None?
    ensures r.None? ==> forall j :: i <= j < |s| ==> HandleAt(s, site, j).None?
    decreases |s| - i
  {
    if i >= |s| then None
    else if HandleAt(s, site, i).Some? then HandleAt(s, site, i)
    else
      var r := FindHandle(s, site, i + 1);
      LeftmostStep(s, site, i, r);
      r
  }

  /** No match at `i`: the leftmost match from `i + 1` is the leftmost from `i`. */
  lemma LeftmostStep(s: string, site: string, i: nat, r: Option<string>)
    requires i < |s| && HandleAt(s, site, i).None?
    requires r.Some? ==> exists j :: i + 1 <= j < |s| && r == HandleAt(s, site, j)
                                   && forall k :: i + 1 <= k < j ==> HandleAt(s, site, k).None?
    requires r.None? ==> forall j :: i + 1 <= j < |s| ==> HandleAt(s, site, j).None?
    ensures r.Some? ==> exists j :: i <= j < |s| && r == HandleAt(s, site, j)
                                   && forall k :: i <= k < j ==> HandleAt(s, site, k).None?
    ensures r.None? ==> forall j :: i <= j < |s| ==> HandleAt(s, site, j).None?
  {
    if r.Some? {
      var j :| i + 1 <= j < |s| && r == HandleAt(s, site, j)
               && forall k :: i + 1 <= k < j ==> HandleAt(s, site, k).None?;
      assert forall k :: i <= k < j ==> HandleAt(s, site, k).None?;
    }
  }

  /** The two profile hosts, in the order the patterns are tried. */
  const Sites: seq<string> := ["x.com", "twitter.com"]

  /** The handle extract_x_handle_from_html returns: an x.com match anywhere
      in the page wins over any twitter.com match. */
  function HandleFromHtml(html: string): Option<string> {
    if FindHandle(html, Sites[0], 0).Some? then FindHandle(html, Sites[0], 0)
    else FindHandle(html, Sites[1], 0)
  }

  /** extract_x_handle_from_html: try each pattern in turn, return the first capture. */
  method ExtractXHandleFromHtml(html: string) returns (h: Option<string>)
    ensures h == HandleFromHtml(html)
    ensures h.Some? ==> IsHandle(h.value)
  {
    var k := 0;
    while k < |Sites|
      invariant 0 <= k <= |Sites|
      invariant forall j :: 0 <= j < k ==> FindHandle(html, Sites[j], 0).None?
    {
      var m := FindHandle(html, Sites[k], 0);
      if m.Some? {
        return m;
      }
      k := k + 1;
    }
    return None;
  }

  // ---------------------------------------------------------------------------
  // The profile check of user_profile_matches_domain.

  /** The fields of an X user the check reads: `url`, the `expanded_url` of
      each entry of `entities.url.urls` (empty when that structure is
      absent) and `description`. */
  datatype Profile = Profile(url: Option<string>, entityUrls: seq<Option<string>>, description: Option<string>)

  /** What `client.get_user` gives: a profile, a response without data, or an exception. */
  datatype Lookup = Found(profile: Profile) | NoData | LookupError

  /** What `fetch_html` gives: the page text or an exception. */
  datatype Fetch = Page(html: string) | FetchFailed

  function NonEmpty(xs: seq<Option<string>>): (r: seq<string>)
    ensures forall u :: u in r ==> u != ""
  {
    if xs == [] then []
    else (if xs[0].Some? && xs[0].value != "" then [xs[0].value] else []) + NonEmpty(xs[1..])
  }

  /** The `urls` list the check collects: the profile URL, then the entity URLs. */
  function ProfileUrls(p: Profile): seq<string> {
    (if p.url.Some? && p.url.value != "" then [p.url.value] else []) + NonEmpty(p.entityUrls)
  }

  /** The domain occurs in the host of the URL (`domain in (host(u) or "")`). */
  predicate HostMentions(u: string, domain: string) { Contains(OrEmpty(Host(Some(u))), domain) }

  /** The domain occurs in the host of a listed URL, or in the lower-cased description. */
  predicate ProfileMatches(p: Option<Profile>, domain: string) {
    && p.Some?
    && ((exists k :: 0 <= k < |ProfileUrls(p.value)| && HostMentions(ProfileUrls(p.value)[k], domain))
        || Contains(Lower(OrEmpty(p.value.description)), domain))
  }

  /** The URL list user_profile_matches_domain builds (profile URL, then entity URLs). */
  method CollectUrls(u: Profile) returns (urls: seq<string>)
    ensures urls == ProfileUrls(u)
  {
    urls := [];
    if u.url.Some? && u.url.value != "" {
      urls := urls + [u.url.value];
    }
    var head := urls;
    var i := 0;
    while i < |u.entityUrls|
      invariant 0 <= i <= |u.entityUrls|
      invariant urls == head + NonEmpty(u.entityUrls[..i])
    {
      var x := u.entityUrls[i];
      if x.Some? && x.value != "" {
        urls := urls + [x.value];
      }
      NonEmptySnoc(u.entityUrls[..i], x);
      assert u.entityUrls[..i + 1] == u.entityUrls[..i] + [x];
      i := i + 1;
    }
    assert u.entityUrls[..i] == u.entityUrls;
  }

  /** The first loop of the check: some listed URL's host mentions the domain. */
  method AnyHostMentions(urls: seq<string>, domain: string) returns (found: bool)
    ensures found <==> exists k :: 0 <= k < |urls| && HostMentions(urls[k], domain)
  {
    var j := 0;
    while j < |urls|
      invariant 0 <= j <= |urls|
      invariant forall k :: 0 <= k < j ==> !HostMentions(urls[k], domain)
    {
      if HostMentions(urls[j], domain) {
        return true;
      }
      NoMentionStep(urls, domain, j);
      j := j + 1;
    }
    return false;
  }

  /** One more URL without a mention extends the mention-free prefix. */
  lemma NoMentionStep(urls: seq<string>, domain: string, j: nat)
    requires j < |urls| && !HostMentions(urls[j], domain)
    requires forall k :: 0 <= k < j ==> !HostMentions(urls[k], domain)
    ensures forall k :: 0 <= k < j + 1 ==> !HostMentions(urls[k], domain)
  {
  }

  /** user_profile_matches_domain over the looked-up data (None: no data). */
  method UserProfileMatchesDomain(resp: Option<Profile>, domain: string) returns (ok: bool)
    ensures ok == ProfileMatches(resp, domain)
  {
    if resp.None? {
      return false;
    }
    var urls := CollectUrls(resp.value);
    var found := AnyHostMentions(urls, domain);
    if found {
      return true;
    }
    return Contains(Lower(OrEmpty(resp.value.description)), domain);
  }

  lemma {:induction false} NonEmptySnoc(xs: seq<Option<string>>, x: Option<string>)
    ensures NonEmpty(xs + [x]) == NonEmpty(xs) + (if x.Some? && x.value != "" then [x.value] else [])
    decreases |xs|
  {
    if xs == [] {
      assert [x][1..] == [];
    } else {
      assert (xs + [x])[1..] == xs[1..] + [x];
      NonEmptySnoc(xs[1..], x);
    }
  }

  // ---------------------------------------------------------------------------
  // verify_official.

  /** The (verified, domain, handle) triple verify_official returns. */
  datatype Verification = Verification(verified: bool, domain: Option<string>, handle: Option<string>)

  /** verify_official: every failure degrades to "not verified" while keeping
      whatever domain and handle were already found. */
  function VerifyOfficial(officialUrl: string, fetch: string -> Fetch, lookup: string -> Lookup): (r: Verification)
    ensures r.domain == Host(Some(officialUrl))
    ensures r.verified ==> r.domain.Some? && r.handle.Some?
    ensures r.handle.Some? ==> IsHandle(r.handle.value)
    ensures r.domain.None? ==> r == Verification(false, None, None)
    ensures r.domain.Some? && fetch(officialUrl).FetchFailed? ==> r == Verification(false, r.domain, None)
    ensures r.domain.Some? && fetch(officialUrl).Page? ==> r.handle == HandleFromHtml(fetch(officialUrl).html)
    ensures r.verified <==>
      && r.domain.Some? && fetch(officialUrl).Page? && r.handle.Some?
      && lookup(r.handle.value).Found? && ProfileMatches(Some(lookup(r.handle.value).profile), r.domain.value)
  {
    var d := Host(Some(officialUrl));
    if d.None? then Verification(false, None, None)
    else
      match fetch(officialUrl)
      case FetchFailed => Verification(false, d, None)
      case Page(html) =>
        match HandleFromHtml(html)
        case None => Verification(false, d, None)
        case Some(h) =>
          match lookup(h)
          case LookupError => Verification(false, d, Some(h))
          case NoData => Verification(ProfileMatches(None, d.value), d, Some(h))
          case Found(p) => Verification(ProfileMatches(Some(p), d.value), d, Some(h))
  }

  // ---------------------------------------------------------------------------
  // Properties of the classifier.

  /** A URL written `scheme://host/path` (no tab or newline, a host free of
      `/ ? #` and with balanced brackets) has the host reduced by HostOfNetloc,
      and it is https exactly when its scheme is, in any letter case. */
  lemma {:induction false} SimpleUrl(scheme: string, h: string, path: string)
    requires IsSchemeName(scheme) && NoUnsafe(h) && NoUnsafe(path)
    requires NoNetlocDelim(h) && (path == [] || IsNetlocDelim(path[0]))
    requires !BracketMismatch(h)
    ensures Host(Some(scheme + "://" + h + path)) == if HostOfNetloc(h) == "" then None else Some(HostOfNetloc(h))
    ensures IsHttps(scheme + "://" + h + path) <==> Lower(scheme) == "https"
  {
    SplitSimple(scheme, h, path);
  }

  /** Text with neither a colon nor a leading `//` has no host: `not a url`
      yields None. */
  lemma {:induction false} NoAuthorityNoHost(url: string)
    requires |url| > 0 && url[0] > ' ' && NoUnsafe(url)
    requires forall i :: 0 <= i < |url| ==> url[i] != ':'
    requires !StartsWith(url, "//")
    ensures Host(Some(url)) == None
  {
    SanitizeKeeps(url);
    assert SplitScheme(url) == ("", url);
  }

  /** One leading "www." is dropped and the rest is lower-cased. */
  lemma {:induction false} DropsWww(h: string)
    requires StartsWith(Lower(h), "www.")
    ensures HostOfNetloc(h) == Lower(h)[4..]
  {
  }

  lemma ExampleScheme() ensures IsSchemeName("https") && Lower("https") == "https" {}
  lemma ExampleNoUnsafe() ensures NoUnsafe("WWW.Example.com") && NoUnsafe("/x") {}
  lemma ExampleNoDelim() ensures NoNetlocDelim("WWW.Example.com") && !BracketMismatch("WWW.Example.com") {}
  lemma ExampleConcat() ensures "https" + "://" + "WWW.Example.com" + "/x" == "https://WWW.Example.com/x" {}
  lemma ExampleHostOfNetloc() ensures HostOfNetloc("WWW.Example.com") == "example.com" {
    assert Lower("WWW.Example.com") == "www.example.com";
  }

  /** `https://WWW.Example.com/x` has host `example.com` and is https. */
  lemma {:induction false} HostExamples()
    ensures Host(Some("https://WWW.Example.com/x")) == Some("example.com")
    ensures IsHttps("https://WWW.Example.com/x")
  {
    ExampleScheme();
    ExampleNoUnsafe();
    ExampleNoDelim();
    ExampleConcat();
    ExampleHostOfNetloc();
    SimpleUrl("https", "WWW.Example.com", "/x");
  }

  /** `not a url` has no host. */
  lemma {:induction false} NoHostExample()
    ensures Host(Some("not a url")) == None
  {
    assert NoUnsafe("not a url") && forall i :: 0 <= i < |"not a url"| ==> "not a url"[i] != ':';
    NoAuthorityNoHost("not a url");
  }

  /** With a non-empty allow-list, a domain is allowed exactly when, lower-cased,
      it is an entry or a subdomain of one. */
  lemma DomainAllowedIff(allowlist: seq<string>, d: string)
    requires |allowlist| > 0
    ensures d != "" ==> (DomainAllowed(allowlist, Some(d)) <==>
      exists k :: 0 <= k < |allowlist| && (Lower(d) == allowlist[k] || EndsWith(Lower(d), "." + allowlist[k])))
    ensures !DomainAllowed(allowlist, None) && !DomainAllowed(allowlist, Some(""))
  {
  }

  /** Any subdomain of an allowed domain is allowed. */
  lemma {:induction false} SubdomainAllowed(allowlist: seq<string>, d: string, sub: string)
    requires DomainAllowed(allowlist, Some(d))
    ensures DomainAllowed(allowlist, Some(sub + "." + d))
  {
    if |allowlist| > 0 {
      var ld := Lower(d);
      var x := Lower(sub + ".");
      var l := Lower(sub + "." + d);
      LowerConcat(sub + ".", d);
      assert l == x + ld;
      assert x[|sub|] == LowerChar((sub + ".")[|sub|]);
      assert x[|x| - 1..] == ".";
      var k :| 0 <= k < |allowlist| && (ld == allowlist[k] || EndsWith(ld, "." + allowlist[k]));
      if ld == allowlist[k] {
        EndsWithJoin(x, ld, ".");
      } else {
        EndsWithConcat(x, ld, "." + allowlist[k]);
      }
      assert EndsWith(l, "." + allowlist[k]) && l != "";
    }
  }

  /** A suffix of `q` is a suffix of `p + q`. */
  lemma EndsWithConcat(p: string, q: string, e: string)
    requires EndsWith(q, e)
    ensures EndsWith(p + q, e)
  {
    assert (p + q)[|p + q| - |e|..] == q[|q| - |e|..];
  }

  /** A suffix `c` of `x` followed by `y` is a suffix of `x + y`. */
  lemma EndsWithJoin(x: string, y: string, c: string)
    requires EndsWith(x, c)
    ensures EndsWith(x + y, c + y)
  {
    assert (x + y)[|x + y| - |c + y|..] == x[|x| - |c|..] + y;
  }

  lemma ExampleAllowList() ensures Lower("sub.example.com") == "sub.example.com" && Lower("notexample.com") == "notexample.com" {}

  lemma ExampleSuffix()
    ensures EndsWith("sub.example.com", ".example.com")
    ensures !EndsWith("notexample.com", ".example.com")
  {
    assert "sub.example.com"[3..] == ".example.com";
    assert "notexample.com"[2] == 't';
  }

  /** With the list ["example.com"], `sub.example.com` is allowed and
      `notexample.com` is not. */
  lemma {:induction false} DomainAllowedExamples()
    ensures DomainAllowed(["example.com"], Some("sub.example.com"))
    ensures !DomainAllowed(["example.com"], Some("notexample.com"))
  {
    ExampleAllowList();
    ExampleSuffix();
    var al := ["example.com"];
    assert "." + al[0] == ".example.com";
    assert Lower(OrEmpty(Some("sub.example.com"))) == "sub.example.com";
    assert Lower(OrEmpty(Some("notexample.com"))) == "notexample.com" != al[0];
  }

  /** An x.com profile link anywhere in the page decides the handle: twitter.com
      links are consulted only when there is none. */
  lemma {:induction false} XComFirst(html: string, i: nat)
    requires i < |html| && HandleAt(html, Sites[0], i).Some?
    ensures HandleFromHtml(html).Some?
    ensures exists j :: 0 <= j <= i && HandleFromHtml(html) == HandleAt(html, Sites[0], j)
  {
  }

  /** The backtracking of the pattern: a 3- to 15-character name followed by
      "/status" is captured without its last character. */
  lemma {:induction false} StatusLinkDropsLastChar(name: string)
    requires 3 <= |name| <= 15 && forall i :: 0 <= i < |name| ==> IsHandleChar(name[i])
    ensures HandleAt("https://x.com/" + name + "/status", Sites[0], 0) == Some(name[..|name| - 1])
  {
    var s := "https://x.com/" + name + "/status";
    XComPrefix(name + "/status");
    assert s == "https://x.com/" + (name + "/status");
    forall i | 14 <= i < 14 + |name| ensures IsHandleChar(s[i]) {
      assert s[i] == name[i - 14];
    }
    assert s[14 + |name|] == '/';
    RunLenIs(s, 14, |name|);
    StatusAt(s, 14 + |name|);
    CaptureStatus(s, 14, |name|);
    InfixSlice("https://x.com/", name, "/status", |name| - 1);
  }

  /** The first `m` characters of the middle part of `p + x + q`. */
  lemma InfixSlice(p: string, x: string, q: string, m: nat)
    requires m <= |x|
    ensures (p + x + q)[|p|..|p| + m] == x[..m]
  {
    var s := p + x + q;
    forall i | 0 <= i < m ensures s[|p|..|p| + m][i] == x[..m][i] {
      assert s[|p| + i] == x[i];
    }
  }

  /** `https://x.com/` is matched by the scheme and the x.com site parts. */
  lemma XComPrefix(rest: string)
    ensures SchemeLen("https://x.com/" + rest, 0) == 8
    ensures SiteLen("https://x.com/" + rest, 8, Sites[0]) == 6
  {
    var s := "https://x.com/" + rest;
    assert s[..8] == "https://";
    assert s[8..14] == "x.com/";
    assert !MatchCI(s, 8, "www." + Sites[0] + "/") by { assert s[8] == 'x'; }
  }

  /** A text ending in "/status" at `k` matches the look-ahead there. */
  lemma StatusAt(s: string, k: nat)
    requires k + 7 == |s| && s[k..] == "/status"
    ensures MatchCI(s, k, "/status")
  {
    assert s[k..k + 7] == "/status";
  }

  /** A run of 3 to 15 name characters followed by "/status" is captured
      without its last character. */
  lemma CaptureStatus(s: string, k: nat, n: nat)
    requires k <= |s| && RunLen(s, k) == n && 3 <= n <= 15
    requires MatchCI(s, k + n, "/status")
    ensures CaptureAt(s, k) == Some(s[k..k + n - 1])
  {
  }

  lemma {:induction false} RunLenIs(s: string, k: nat, n: nat)
    requires k + n <= |s|
    requires forall i :: k <= i < k + n ==> IsHandleChar(s[i])
    requires k + n < |s| ==> !IsHandleChar(s[k + n])
    ensures RunLen(s, k) == n
    decreases n
  {
    if n > 0 {
      RunLenIs(s, k + 1, n - 1);
    }
  }
}
