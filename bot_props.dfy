/** What the decision pipeline of module Bot guarantees: the shape of the
    dupe key, the call-to-action cadence, the filter order and routing of one
    candidate, the counters and the per-run cap of the loop, the queue drain
    and the digest gates, and the table invariants all of them keep. */
module BotProps {
  import opened Text
  import opened Verify
  import opened Scoring
  import opened Compose
  import opened XSearch
  import opened Tables
  import opened Bot

  // ---------------------------------------------------------------------------
  // dupe_key.

  lemma LowerTwice(s: string)
    ensures Lower(Lower(s)) == Lower(s)
  {
  }

  lemma KeyOfLowerDomain(d: string)
    ensures DomainOrUnknown(Some(Lower(d))) == Lower(DomainOrUnknown(Some(d))) || DomainOrUnknown(Some(Lower(d))) == "unknown"
    ensures Lower(DomainOrUnknown(Some(Lower(d)))) == Lower(DomainOrUnknown(Some(d)))
  {
    if d == "" {
      assert Lower(d) == "";
    } else {
      LowerTwice(d);
    }
  }

  /** Names and domains that differ only in letter case share a key; an
      absent, empty or "unknown" domain gives the same key. */
  lemma {:induction false} DupeKeyIgnoresCase(name: string, domain: Option<string>)
    ensures DupeKey(Lower(name), domain) == DupeKey(name, domain)
    ensures domain.Some? ==> DupeKey(name, Some(Lower(domain.value))) == DupeKey(name, domain)
    ensures DupeKey(name, None) == DupeKey(name, Some("")) == DupeKey(name, Some("unknown"))
  {
    LowerTwice(name);
    if domain.Some? {
      KeyOfLowerDomain(domain.value);
    }
  }

  // ---------------------------------------------------------------------------
  // should_add_cta and cta_line.

  /** Without a link hub there is never a call to action; with one, the
      cadence adds it exactly when the next post number is a multiple of n. */
  lemma CtaOff(cfg: Config, st: State)
    requires cfg.linkHubUrl == ""
    ensures !ShouldAddCta(cfg, st) && CtaLine(cfg).None? && CtaFor(cfg, st).None?
  {
  }

  lemma MulAtLeast(k: int, n: int)
    requires n > 0 && k >= 1
    ensures k * n >= n
  {
  }

  lemma MulAtMost(k: int, n: int)
    requires n > 0 && k <= -1
    ensures k * n <= -n
  {
  }

  /** Adding n does not change the remainder. */
  lemma AddModulus(m: int, n: int)
    requires n > 0
    ensures (m + n) % n == m % n
  {
    var k := (m + n) / n - m / n - 1;
    assert k * n == m % n - (m + n) % n;
    if k >= 1 {
      MulAtLeast(k, n);
    }
    if k <= -1 {
      MulAtMost(k, n);
    }
  }

  /** Adding a multiple of n does not change the remainder. */
  lemma {:induction false} ShiftMod(q: nat, n: int, j: int)
    requires n > 0 && 0 <= j < n
    ensures (q * n + j) % n == j
    decreases q
  {
    if q > 0 {
      ShiftMod(q - 1, n, j);
      assert q * n + j == ((q - 1) * n + j) + n;
      AddModulus((q - 1) * n + j, n);
    }
  }

  /** Of the n counters after one where the next post number is a multiple
      of n, only the last one is again. */
  lemma {:induction false} CadenceArith(c0: nat, c1: nat, n: int)
    requires n > 0 && (c0 + 1) % n == 0 && c0 < c1 <= c0 + n
    ensures (c1 + 1) % n == 0 <==> c1 == c0 + n
  {
    var x := c0 + 1;
    var j := c1 - c0;
    var q := x / n;
    assert x == q * n;
    if j < n {
      ShiftMod(q, n, j);
    } else {
      ShiftMod(q + 1, n, 0);
      assert x + j == (q + 1) * n + 0;
    }
  }

  /** With n > 0 the call to action comes once in every n posts: after a
      post that carried it, the next n - 1 do not and the n-th does. */
  lemma {:induction false} CtaOncePerN(cfg: Config, a: State, b: State)
    requires cfg.linkHubUrl != "" && cfg.ctaEveryNPosts > 0 && ShouldAddCta(cfg, a)
    requires GetPostCounter(a) < GetPostCounter(b) <= GetPostCounter(a) + cfg.ctaEveryNPosts
    ensures ShouldAddCta(cfg, b) <==> GetPostCounter(b) == GetPostCounter(a) + cfg.ctaEveryNPosts
  {
    CadenceArith(GetPostCounter(a), GetPostCounter(b), cfg.ctaEveryNPosts);
  }

  /** With n = 3, counter 2 (third post next) carries the call to action and
      counter 1 does not. */
  lemma {:induction false} CtaEveryThird(cfg: Config, a: State, b: State)
    requires cfg.linkHubUrl != "" && cfg.ctaEveryNPosts == 3
    requires GetPostCounter(a) == 2 && GetPostCounter(b) == 1
    ensures ShouldAddCta(cfg, a) && !ShouldAddCta(cfg, b)
  {
  }

  /** A fresh database reads counter 0, so with n = 1 every post carries it and
      with n > 1 the first does not. */
  lemma {:induction false} CtaFirstPost(cfg: Config)
    requires cfg.linkHubUrl != "" && cfg.ctaEveryNPosts > 0
    ensures ShouldAddCta(cfg, Empty) <==> cfg.ctaEveryNPosts == 1
  {
    if cfg.ctaEveryNPosts > 1 {
      assert 1 % cfg.ctaEveryNPosts == 1;
    }
  }

  // ---------------------------------------------------------------------------
  // The filters and the routing of one candidate.

  /** The filters reject in a fixed order: each fires exactly when every
      earlier one passed and it fails. */
  lemma ScreenOrder(cfg: Config, c: Candidate)
    ensures ScreenOf(cfg, c).Reject? && ScreenOf(cfg, c).event == "reject_hard_block" <==> HardBlock(c.text)
    ensures ScreenOf(cfg, c).Reject? && ScreenOf(cfg, c).event == "reject_no_url"
            <==> !HardBlock(c.text) && BestUrl(c).None?
    ensures ScreenOf(cfg, c).Reject? && ScreenOf(cfg, c).event == "reject_not_https"
            <==> !HardBlock(c.text) && BestUrl(c).Some? && cfg.requireHttps && !IsHttps(BestUrl(c).value)
    ensures ScreenOf(cfg, c).Reject? && ScreenOf(cfg, c).event == "reject_shortener"
            <==> !HardBlock(c.text) && BestUrl(c).Some? && !(cfg.requireHttps && !IsHttps(BestUrl(c).value))
                 && cfg.blockShorteners && IsShortener(Host(BestUrl(c)))
    ensures ScreenOf(cfg, c).Reject? && ScreenOf(cfg, c).event == "reject_social_only"
            <==> !HardBlock(c.text) && BestUrl(c).Some? && !(cfg.requireHttps && !IsHttps(BestUrl(c).value))
                 && !(cfg.blockShorteners && IsShortener(Host(BestUrl(c))))
                 && cfg.rejectSocialOnly && IsSocialOnly(Host(BestUrl(c)))
    ensures ScreenOf(cfg, c).Pass? <==>
            !HardBlock(c.text) && BestUrl(c).Some? && !(cfg.requireHttps && !IsHttps(BestUrl(c).value))
            && !(cfg.blockShorteners && IsShortener(Host(BestUrl(c))))
            && !(cfg.rejectSocialOnly && IsSocialOnly(Host(BestUrl(c))))
            && DomainAllowed(cfg.allowlistDomains, Host(BestUrl(c)))
  {
  }

  /** Routing after scoring: a candidate is rejected exactly when it is below
      the queue floor and either unverified under `only_verified` or below its
      publishing threshold; it is published exactly when it may be, reaches
      its threshold and auto-posting is on; every other candidate is queued. */
  lemma RouteCases(cfg: Config, verified: bool, sc: int)
    ensures RouteOf(cfg, verified, sc).ToReject? <==>
      sc < cfg.queueMinScore && ((cfg.onlyVerified && !verified) || sc < MinNeeded(cfg, verified))
    ensures RouteOf(cfg, verified, sc) == ToPublish <==>
      (verified || !cfg.onlyVerified) && sc >= MinNeeded(cfg, verified) && cfg.autoPost
    ensures RouteOf(cfg, verified, sc).ToQueue? <==>
      || (sc >= cfg.queueMinScore && ((cfg.onlyVerified && !verified) || sc < MinNeeded(cfg, verified)))
      || ((verified || !cfg.onlyVerified) && sc >= MinNeeded(cfg, verified) && !cfg.autoPost)
  {
  }

  // ---------------------------------------------------------------------------
  // One candidate.

  /** The dupe key of a candidate that passed the filters. */
  function KeyOf(env: Env, c: Candidate, url: string): string {
    DupeKey(ProjectName(c.text), VerifyOfficial(url, env.fetch, env.lookup).domain)
  }

  lemma SameKeys(a: State, b: State)
    requires a.drops == b.drops && a.queue == b.queue
    ensures DropKeys(a) == DropKeys(b) && QueueKeys(a) == QueueKeys(b)
  {
  }

  /** A candidate already seen is skipped: only the clock (the stamp taken by
      the failed insert) moves. */
  lemma {:induction false} SeenIsSkipped(cfg: Config, env: Env, st: State, c: Candidate)
    requires CfgOk(cfg) && c.tweetId in st.seen
    ensures Process(cfg, env, st, c) == (AlreadySeen, st.(clock := st.clock + 1))
  {
    assert st.seen + {c.tweetId} == st.seen;
  }

  /** Every candidate is seen afterwards, and it counts exactly when it was new. */
  lemma {:induction false} ProcessMarksSeen(cfg: Config, env: Env, st: State, c: Candidate)
    requires CfgOk(cfg)
    ensures Process(cfg, env, st, c).1.seen == st.seen + {c.tweetId}
    ensures Process(cfg, env, st, c).0 == AlreadySeen <==> c.tweetId in st.seen
  {
    var s1 := MarkSeen(st, c.tweetId).1;
    if c.tweetId !in st.seen {
      match ScreenOf(cfg, c)
      case Reject(e, det) =>
      case Pass(url, d) =>
        var v := VerifyOfficial(url, env.fetch, env.lookup);
        var key := KeyOf(env, c, url);
        if !HasDupe(s1, key) {
          RoutedSeen(cfg, env, s1, c, url, v, ProjectName(c.text), key, ScoreOf(c.text, Some(url), v.verified));
        }
    }
  }

  lemma RoutedSeen(cfg: Config, env: Env, st: State, c: Candidate, url: string, v: Verification,
                   name: string, key: string, sc: int)
    requires CfgOk(cfg) && !HasDupe(st, key)
    ensures Routed(cfg, env, st, c, url, v, name, key, sc).1.seen == st.seen
    ensures Routed(cfg, env, st, c, url, v, name, key, sc).0 != AlreadySeen
  {
  }

  /** The steps of one new candidate that passed the filters. */
  lemma ProcessPass(cfg: Config, env: Env, st: State, c: Candidate)
    requires CfgOk(cfg) && c.tweetId !in st.seen && ScreenOf(cfg, c).Pass?
    ensures var s1 := MarkSeen(st, c.tweetId).1;
            var url := ScreenOf(cfg, c).url;
            var v := VerifyOfficial(url, env.fetch, env.lookup);
            Process(cfg, env, st, c)
            == if HasDupe(s1, KeyOf(env, c, url)) then (Rejected, Note(cfg, s1, "reject_dupe", KeyOf(env, c, url)))
               else Routed(cfg, env, s1, c, url, v, ProjectName(c.text), KeyOf(env, c, url),
                           ScoreOf(c.text, Some(url), v.verified))
  {
  }

  /** The publishing branch: the counter goes up by one and exactly one drop
      row is appended, carrying the key and the candidate's data; the row is
      stamped as posted exactly when this is not a dry run, and no earlier row
      changes. */
  lemma {:induction false} PublishEffects(cfg: Config, env: Env, st: State, key: string, name: string, url: string,
                                          v: Verification, sc: int)
    requires CfgOk(cfg) && Valid(st) && key !in DropKeys(st)
    ensures var r := PublishDrop(cfg, env, st, key, name, url, v, sc);
            && r.seen == st.seen && r.queue == st.queue && Valid(r)
            && DropKeys(r) == DropKeys(st) + {key}
            && GetPostCounter(r) == GetPostCounter(st) + 1
            && |r.drops| == |st.drops| + 1 && r.drops[..|st.drops|] == st.drops
            && var d := r.drops[|st.drops|];
               && d.id == st.nextDropId && d.dupeKey == key && d.name == name && d.officialUrl == url
               && d.officialDomain == v.domain && d.verified == v.verified && d.score == sc
               && (d.postedAt.None? <==> cfg.dryRun)
  {
    var (id, s1) := InsertDrop(st, key, name, url, v.domain, v.verified, sc);
    var r := PublishDrop(cfg, env, st, key, name, url, v, sc);
    var n := |st.drops|;
    if !cfg.dryRun {
      var thread := DropThread(cfg, env, s1, name, url, sc, v.verified, v.handle);
      var root := env.publish(s1.clock, thread);
      var s2 := MarkPosted(s1, id, root);
      assert r.drops == s2.drops;
      forall i | 0 <= i < n ensures s2.drops[i] == st.drops[i] {
        assert st.drops[i].id < id;
        assert s1.drops[i] == st.drops[i];
      }
      assert s2.drops[n] == StampRow(s1.drops[n], id, root, s1.clock);
    }
  }

  /** What a routed candidate does to the tables. */
  lemma {:induction false} RoutedEffects(cfg: Config, env: Env, st: State, c: Candidate, url: string, v: Verification,
                                         name: string, key: string, sc: int)
    requires CfgOk(cfg) && Valid(st) && !HasDupe(st, key)
    ensures var (o, r) := Routed(cfg, env, st, c, url, v, name, key, sc);
            && o != AlreadySeen && r.seen == st.seen && Valid(r)
            && (o == Rejected ==> r.drops == st.drops && r.queue == st.queue && r.meta == st.meta)
            && (o == Queued ==> r.drops == st.drops && r.meta == st.meta && QueueKeys(r) == QueueKeys(st) + {key})
            && (o == Published ==> r.queue == st.queue && DropKeys(r) == DropKeys(st) + {key}
                                   && GetPostCounter(r) == GetPostCounter(st) + 1)
  {
    match RouteOf(cfg, v.verified, sc)
    case ToReject(event) =>
    case ToQueue(reason, event) =>
      var s2 := EnqueueReview(st, key, name, url, v.domain, v.verified, sc, reason, Some(c.tweetId), Some(c.text));
      SameKeys(s2, Note(cfg, s2, event, NameScore(name, sc)));
    case ToPublish =>
      PublishEffects(cfg, env, st, key, name, url, v, sc);
  }

  /** What one candidate does to the tables besides `seen`: a skip or a
      rejection leaves drops, queue and meta alone; a queued or published
      candidate passed the filters with a key found neither among the drops
      nor in the queue, and the key is added to exactly one of them; only a
      publication moves the post counter, by one. */
  ghost predicate Effects(cfg: Config, env: Env, st: State, c: Candidate, o: Outcome, r: State) {
    && Valid(r)
    && (o == AlreadySeen || o == Rejected ==> r.drops == st.drops && r.queue == st.queue && r.meta == st.meta)
    && (o == Queued || o == Published ==>
          ScreenOf(cfg, c).Pass? && !HasDupe(st, KeyOf(env, c, ScreenOf(cfg, c).url)))
    && (o == Queued ==> r.drops == st.drops && r.meta == st.meta
                        && QueueKeys(r) == QueueKeys(st) + {KeyOf(env, c, ScreenOf(cfg, c).url)})
    && (o == Published ==> r.queue == st.queue
                           && DropKeys(r) == DropKeys(st) + {KeyOf(env, c, ScreenOf(cfg, c).url)}
                           && GetPostCounter(r) == GetPostCounter(st) + 1)
    && (o != Published ==> GetPostCounter(r) == GetPostCounter(st))
  }

  lemma {:induction false} ProcessEffects(cfg: Config, env: Env, st: State, c: Candidate)
    requires CfgOk(cfg) && Valid(st)
    ensures Effects(cfg, env, st, c, Process(cfg, env, st, c).0, Process(cfg, env, st, c).1)
  {
    if c.tweetId in st.seen {
      SeenIsSkipped(cfg, env, st, c);
    } else if ScreenOf(cfg, c).Pass? {
      PassEffects(cfg, env, st, c);
    }
  }

  lemma {:induction false} PassEffects(cfg: Config, env: Env, st: State, c: Candidate)
    requires CfgOk(cfg) && Valid(st) && c.tweetId !in st.seen && ScreenOf(cfg, c).Pass?
    ensures Effects(cfg, env, st, c, Process(cfg, env, st, c).0, Process(cfg, env, st, c).1)
  {
    var s1 := MarkSeen(st, c.tweetId).1;
    var url := ScreenOf(cfg, c).url;
    var v := VerifyOfficial(url, env.fetch, env.lookup);
    var key := KeyOf(env, c, url);
    ProcessPass(cfg, env, st, c);
    SameKeys(st, s1);
    if !HasDupe(s1, key) {
      RoutedEffects(cfg, env, s1, c, url, v, ProjectName(c.text), key, ScoreOf(c.text, Some(url), v.verified));
    }
  }

  /** One candidate keeps the table invariant and keeps dupe keys apart
      between the drops and the queue. */
  lemma {:induction false} ProcessKeeps(cfg: Config, env: Env, st: State, c: Candidate)
    requires CfgOk(cfg) && Valid(st) && Disjoint(st)
    ensures Valid(Process(cfg, env, st, c).1) && Disjoint(Process(cfg, env, st, c).1)
  {
    ProcessEffects(cfg, env, st, c);
    var (o, r) := Process(cfg, env, st, c);
    assert Effects(cfg, env, st, c, o, r);
    if o == AlreadySeen || o == Rejected {
      SameKeys(st, r);
    } else if o == Queued {
      SameKeys(st, r.(queue := st.queue));
    } else {
      SameKeys(st, r.(drops := st.drops));
    }
  }

  // ---------------------------------------------------------------------------
  // The candidate loop of `run`.

  function Tids(cs: seq<Candidate>): set<string> { set i | 0 <= i < |cs| :: cs[i].tweetId }

  function Total(k: Counts): nat { k.posted + k.queued + k.rejected }

  /** The candidates the loop handled before it stopped. */
  function Consumed(cs: seq<Candidate>, r: Run): seq<Candidate>
    requires |r.rest| <= |cs|
  {
    cs[..|cs| - |r.rest|]
  }

  lemma TidsCons(cs: seq<Candidate>, n: nat)
    requires 0 < n <= |cs|
    ensures Tids(cs[..n]) == {cs[0].tweetId} + Tids(cs[1..][..n - 1])
  {
    var a := cs[..n];
    var b := cs[1..][..n - 1];
    forall t | t in Tids(a) ensures t in {cs[0].tweetId} + Tids(b) {
      var i :| 0 <= i < |a| && a[i].tweetId == t;
      if i > 0 {
        assert a[i] == b[i - 1];
      }
    }
    forall t | t in Tids(b) ensures t in Tids(a) {
      var i :| 0 <= i < |b| && b[i].tweetId == t;
      assert b[i] == a[i + 1];
    }
    assert a[0] == cs[0];
  }

  /** The seen ids after a first step and the rest of the loop. */
  lemma {:induction false} SeenTail(seen0: set<string>, seen1: set<string>, cs: seq<Candidate>, r: Run)
    requires cs != [] && |r.rest| < |cs|
    requires seen1 == seen0 + {cs[0].tweetId} && r.st.seen == seen1 + Tids(Consumed(cs[1..], r))
    ensures r.st.seen == seen0 + Tids(Consumed(cs, r))
  {
    var n := |cs| - |r.rest|;
    assert Consumed(cs[1..], r) == cs[1..][..n - 1];
    TidsCons(cs, n);
  }

  /** The seen ids when the loop stops after the first candidate. */
  lemma SeenFirst(seen0: set<string>, cs: seq<Candidate>, r: Run)
    requires cs != [] && r.rest == cs[1..] && r.st.seen == seen0 + {cs[0].tweetId}
    ensures r.st.seen == seen0 + Tids(Consumed(cs, r))
  {
    assert Consumed(cs, r) == [cs[0]];
    assert Tids([cs[0]]) == {cs[0].tweetId} by {
      assert [cs[0]][0] == cs[0];
    }
  }

  /** Every handled candidate is marked seen, and no other. */
  lemma {:induction false} RunSeen(cfg: Config, env: Env, st: State, cs: seq<Candidate>, k: Counts)
    requires CfgOk(cfg)
    ensures var r := RunLoop(cfg, env, st, cs, k);
            r.st.seen == st.seen + Tids(Consumed(cs, r))
    decreases |cs|
  {
    var r := RunLoop(cfg, env, st, cs, k);
    if cs == [] {
      assert r == Run(k, st, []);
      assert Consumed(cs, r) == [];
      assert Tids([]) == {};
    } else {
      var (o, s1) := Process(cfg, env, st, cs[0]);
      ProcessMarksSeen(cfg, env, st, cs[0]);
      if o == Published && Tally(k, o).posted >= cfg.maxPostsPerRun {
        assert r == Run(Tally(k, o), s1, cs[1..]);
        SeenFirst(st.seen, cs, r);
      } else {
        assert r == RunLoop(cfg, env, s1, cs[1..], Tally(k, o));
        RunSeen(cfg, env, s1, cs[1..], Tally(k, o));
        SeenTail(st.seen, s1.seen, cs, r);
      }
    }
  }

  /** Each new candidate is counted once, as posted, queued or rejected, and
      the seen ones are not counted: the counters grow by the number of ids
      the loop added to `seen`.  `posted` grows exactly as the post counter. */
  lemma {:induction false} RunCounts(cfg: Config, env: Env, st: State, cs: seq<Candidate>, k: Counts)
    requires CfgOk(cfg) && Valid(st)
    ensures var r := RunLoop(cfg, env, st, cs, k);
            && st.seen <= r.st.seen
            && Total(r.counts) == Total(k) + |r.st.seen| - |st.seen|
            && r.counts.posted >= k.posted
            && GetPostCounter(r.st) == GetPostCounter(st) + r.counts.posted - k.posted
    decreases |cs|
  {
    if cs != [] {
      var (o, s1) := Process(cfg, env, st, cs[0]);
      CountStep(cfg, env, st, cs[0], k);
      if !(o == Published && Tally(k, o).posted >= cfg.maxPostsPerRun) {
        RunCounts(cfg, env, s1, cs[1..], Tally(k, o));
      }
    }
  }

  /** One step of RunCounts. */
  lemma {:induction false} CountStep(cfg: Config, env: Env, st: State, c: Candidate, k: Counts)
    requires CfgOk(cfg) && Valid(st)
    ensures var (o, r) := Process(cfg, env, st, c);
            && Valid(r) && st.seen <= r.seen
            && Total(Tally(k, o)) == Total(k) + |r.seen| - |st.seen|
            && Tally(k, o).posted >= k.posted
            && GetPostCounter(r) == GetPostCounter(st) + Tally(k, o).posted - k.posted
  {
    var (o, s1) := Process(cfg, env, st, c);
    ProcessEffects(cfg, env, st, c);
    ProcessMarksSeen(cfg, env, st, c);
    assert Effects(cfg, env, st, c, o, s1);
    if c.tweetId in st.seen {
      assert s1.seen == st.seen;
    } else {
      assert |s1.seen| == |st.seen| + 1;
    }
  }

  function Max(a: int, b: int): int { if a >= b then a else b }

  /** The per-run cap: the loop stops at the publication that reaches
      MAX_POSTS_PER_RUN (one publication when the cap is below one), and it
      only stops early there. */
  lemma {:induction false} RunCap(cfg: Config, env: Env, st: State, cs: seq<Candidate>, k: Counts)
    requires CfgOk(cfg)
    ensures var r := RunLoop(cfg, env, st, cs, k);
            && r.counts.posted <= Max(cfg.maxPostsPerRun, k.posted + 1)
            && (r.rest != [] ==> r.counts.posted >= cfg.maxPostsPerRun && r.counts.posted > k.posted)
  {
    RunCapBound(cfg, env, st, cs, k);
    RunCapStop(cfg, env, st, cs, k);
  }

  /** The bound of RunCap. */
  lemma {:induction false} RunCapBound(cfg: Config, env: Env, st: State, cs: seq<Candidate>, k: Counts)
    requires CfgOk(cfg)
    ensures RunLoop(cfg, env, st, cs, k).counts.posted <= Max(cfg.maxPostsPerRun, k.posted + 1)
    decreases |cs|
  {
    if cs != [] {
      var (o, s1) := Process(cfg, env, st, cs[0]);
      var k1 := Tally(k, o);
      if o == Published && k1.posted >= cfg.maxPostsPerRun {
        assert RunLoop(cfg, env, st, cs, k) == Run(k1, s1, cs[1..]);
      } else {
        RunCapBound(cfg, env, s1, cs[1..], k1);
        assert RunLoop(cfg, env, st, cs, k) == RunLoop(cfg, env, s1, cs[1..], k1);
        assert Max(cfg.maxPostsPerRun, k1.posted + 1) <= Max(cfg.maxPostsPerRun, k.posted + 1);
      }
    } else {
      assert RunLoop(cfg, env, st, cs, k) == Run(k, st, []);
    }
  }

  /** The early stop of RunCap. */
  lemma {:induction false} RunCapStop(cfg: Config, env: Env, st: State, cs: seq<Candidate>, k: Counts)
    requires CfgOk(cfg)
    ensures var r := RunLoop(cfg, env, st, cs, k);
            r.rest != [] ==> r.counts.posted >= cfg.maxPostsPerRun && r.counts.posted > k.posted
    decreases |cs|
  {
    if cs != [] {
      var (o, s1) := Process(cfg, env, st, cs[0]);
      if !(o == Published && Tally(k, o).posted >= cfg.maxPostsPerRun) {
        RunCapStop(cfg, env, s1, cs[1..], Tally(k, o));
      }
    }
  }

  /** The loop keeps the table invariant and keeps dupe keys apart between
      the drops and the queue. */
  lemma {:induction false} RunKeeps(cfg: Config, env: Env, st: State, cs: seq<Candidate>, k: Counts)
    requires CfgOk(cfg) && Valid(st) && Disjoint(st)
    ensures Valid(RunLoop(cfg, env, st, cs, k).st) && Disjoint(RunLoop(cfg, env, st, cs, k).st)
    decreases |cs|
  {
    if cs != [] {
      var (o, s1) := Process(cfg, env, st, cs[0]);
      ProcessKeeps(cfg, env, st, cs[0]);
      if !(o == Published && Tally(k, o).posted >= cfg.maxPostsPerRun) {
        RunKeeps(cfg, env, s1, cs[1..], Tally(k, o));
      }
    }
  }

  // ---------------------------------------------------------------------------
  // Dry runs decide as live runs do.

  /** The decision for one candidate as a function of the seen ids and of
      the dupe keys present among the drops and in the queue. */
  function Decide(cfg: Config, env: Env, seen: set<string>, keys: set<string>, c: Candidate): Outcome {
    if c.tweetId in seen then AlreadySeen
    else
      match ScreenOf(cfg, c)
      case Reject(_, _) => Rejected
      case Pass(url, _) => DecidePass(cfg, env, keys, c, url)
  }

  /** The decision for a candidate that passed the screen with `url`. */
  function DecidePass(cfg: Config, env: Env, keys: set<string>, c: Candidate, url: string): Outcome {
    var v := VerifyOfficial(url, env.fetch, env.lookup);
    if KeyOf(env, c, url) in keys then Rejected
    else
      match RouteOf(cfg, v.verified, ScoreOf(c.text, Some(url), v.verified))
      case ToReject(_) => Rejected
      case ToQueue(_, _) => Queued
      case ToPublish => Published
  }

  lemma HasDupeKeys(st: State, key: string)
    ensures HasDupe(st, key) <==> key in DropKeys(st) + QueueKeys(st)
  {
    if key in DropKeys(st) {
      var i :| 0 <= i < |st.drops| && st.drops[i].dupeKey == key;
    }
    if key in QueueKeys(st) {
      var j :| 0 <= j < |st.queue| && st.queue[j].dupeKey == key;
    }
  }

  lemma RoutedOutcome(cfg: Config, env: Env, st: State, c: Candidate, url: string, v: Verification,
                      name: string, key: string, sc: int)
    requires CfgOk(cfg) && !HasDupe(st, key)
    ensures Routed(cfg, env, st, c, url, v, name, key, sc).0
         == match RouteOf(cfg, v.verified, sc)
            case ToReject(_) => Rejected
            case ToQueue(_, _) => Queued
            case ToPublish => Published
  {
  }

  /** Process decides as Decide does. */
  lemma {:induction false} ProcessDecides(cfg: Config, env: Env, st: State, c: Candidate)
    requires CfgOk(cfg)
    ensures Process(cfg, env, st, c).0 == Decide(cfg, env, st.seen, DropKeys(st) + QueueKeys(st), c)
  {
    if c.tweetId in st.seen {
      SeenIsSkipped(cfg, env, st, c);
    } else if ScreenOf(cfg, c).Pass? {
      var s1 := MarkSeen(st, c.tweetId).1;
      var url := ScreenOf(cfg, c).url;
      var v := VerifyOfficial(url, env.fetch, env.lookup);
      var key := KeyOf(env, c, url);
      ProcessPass(cfg, env, st, c);
      SameKeys(st, s1);
      HasDupeKeys(s1, key);
      if !HasDupe(s1, key) {
        RoutedOutcome(cfg, env, s1, c, url, v, ProjectName(c.text), key, ScoreOf(c.text, Some(url), v.verified));
      }
    }
  }

  /** The dry-run flag plays no part in screening or routing. */
  lemma ScreenIgnoresDryRun(cfg: Config, dry: bool, c: Candidate)
    ensures ScreenOf(cfg.(dryRun := dry), c) == ScreenOf(cfg, c)
  {
    var cfg2 := cfg.(dryRun := dry);
    assert cfg2.requireHttps == cfg.requireHttps && cfg2.blockShorteners == cfg.blockShorteners;
    assert cfg2.rejectSocialOnly == cfg.rejectSocialOnly && cfg2.allowlistDomains == cfg.allowlistDomains;
  }

  lemma RouteIgnoresDryRun(cfg: Config, dry: bool, verified: bool, sc: int)
    ensures RouteOf(cfg.(dryRun := dry), verified, sc) == RouteOf(cfg, verified, sc)
  {
    var cfg2 := cfg.(dryRun := dry);
    assert cfg2.onlyVerified == cfg.onlyVerified && cfg2.queueMinScore == cfg.queueMinScore;
    assert MinNeeded(cfg2, verified) == MinNeeded(cfg, verified);
    assert cfg2.autoPost == cfg.autoPost;
  }

  lemma {:induction false} SameDecision(cfg: Config, dry: bool, env: Env, seen: set<string>, keys: set<string>,
                                        c: Candidate)
    ensures Decide(cfg.(dryRun := dry), env, seen, keys, c) == Decide(cfg, env, seen, keys, c)
  {
    ScreenIgnoresDryRun(cfg, dry, c);
    if c.tweetId !in seen && ScreenOf(cfg, c).Pass? {
      PassIgnoresDryRun(cfg, dry, env, keys, c, ScreenOf(cfg, c).url);
    }
  }

  lemma PassIgnoresDryRun(cfg: Config, dry: bool, env: Env, keys: set<string>, c: Candidate, url: string)
    ensures DecidePass(cfg.(dryRun := dry), env, keys, c, url) == DecidePass(cfg, env, keys, c, url)
  {
    var v := VerifyOfficial(url, env.fetch, env.lookup);
    RouteIgnoresDryRun(cfg, dry, v.verified, ScoreOf(c.text, Some(url), v.verified));
  }

  /** Two states that agree on what the decisions read and on the post counter. */
  ghost predicate Alike(a: State, b: State) {
    && a.seen == b.seen && DropKeys(a) == DropKeys(b) && QueueKeys(a) == QueueKeys(b)
    && GetPostCounter(a) == GetPostCounter(b)
  }

  /** What one candidate leaves in the tables, besides `seen`, follows from
      its outcome. */
  lemma {:induction false} EffectsKeys(cfg: Config, env: Env, st: State, c: Candidate, o: Outcome, r: State)
    requires Effects(cfg, env, st, c, o, r)
    ensures o == AlreadySeen || o == Rejected ==> DropKeys(r) == DropKeys(st) && QueueKeys(r) == QueueKeys(st)
    ensures o == Queued ==> DropKeys(r) == DropKeys(st)
    ensures o == Published ==> QueueKeys(r) == QueueKeys(st)
  {
    if o == AlreadySeen || o == Rejected {
      SameKeys(st, r);
    } else if o == Queued {
      SameKeys(st, r.(queue := st.queue));
    } else if o == Published {
      SameKeys(st, r.(drops := st.drops));
    }
  }

  /** The key a candidate adds to a table, if its outcome is `want`. */
  ghost function Added(cfg: Config, env: Env, c: Candidate, o: Outcome, want: Outcome): set<string> {
    if o == want && ScreenOf(cfg, c).Pass? then {KeyOf(env, c, ScreenOf(cfg, c).url)} else {}
  }

  /** One candidate in the terms the dry-run comparison needs: the decision,
      the seen ids, the two key sets and the counter after it. */
  ghost predicate Summary(cfg: Config, env: Env, st: State, c: Candidate, o: Outcome, r: State) {
    && Valid(r)
    && o == Decide(cfg, env, st.seen, DropKeys(st) + QueueKeys(st), c)
    && r.seen == st.seen + {c.tweetId}
    && DropKeys(r) == DropKeys(st) + Added(cfg, env, c, o, Published)
    && QueueKeys(r) == QueueKeys(st) + Added(cfg, env, c, o, Queued)
    && GetPostCounter(r) == GetPostCounter(st) + (if o == Published then 1 else 0)
  }

  lemma {:induction false} StepSummary(cfg: Config, env: Env, st: State, c: Candidate)
    requires CfgOk(cfg) && Valid(st)
    ensures Summary(cfg, env, st, c, Process(cfg, env, st, c).0, Process(cfg, env, st, c).1)
  {
    var (o, r) := Process(cfg, env, st, c);
    ProcessDecides(cfg, env, st, c);
    ProcessMarksSeen(cfg, env, st, c);
    ProcessEffects(cfg, env, st, c);
    EffectsKeys(cfg, env, st, c, o, r);
  }

  /** The same candidate on alike tables, with or without the dry-run flag:
      the same outcome and alike tables again. */
  lemma {:induction false} StepAlike(cfg: Config, dry: bool, env: Env, a: State, b: State, c: Candidate)
    requires CfgOk(cfg) && Valid(a) && Valid(b) && Alike(a, b)
    ensures var (o1, r1) := Process(cfg, env, a, c);
            var (o2, r2) := Process(cfg.(dryRun := dry), env, b, c);
            o1 == o2 && Alike(r1, r2) && Valid(r1) && Valid(r2)
  {
    var cfg2 := cfg.(dryRun := dry);
    StepSummary(cfg, env, a, c);
    StepSummary(cfg2, env, b, c);
    SameDecision(cfg, dry, env, a.seen, DropKeys(a) + QueueKeys(a), c);
    ScreenIgnoresDryRun(cfg, dry, c);
  }

  /** A dry run and a live run of the loop over the same candidates, from
      alike tables, count the same posted, queued and rejected candidates,
      stop at the same place and leave alike tables: the same seen ids, the
      same dupe keys among the drops and in the queue, the same post counter. */
  lemma {:induction false} DryRunDecidesAlike(cfg: Config, dry: bool, env: Env, a: State, b: State,
                                              cs: seq<Candidate>, k: Counts)
    requires CfgOk(cfg) && Valid(a) && Valid(b) && Alike(a, b)
    ensures var r1 := RunLoop(cfg, env, a, cs, k);
            var r2 := RunLoop(cfg.(dryRun := dry), env, b, cs, k);
            r1.counts == r2.counts && r1.rest == r2.rest && Alike(r1.st, r2.st)
    decreases |cs|
  {
    if cs != [] {
      var cfg2 := cfg.(dryRun := dry);
      var (o1, s1) := Process(cfg, env, a, cs[0]);
      var (o2, s2) := Process(cfg2, env, b, cs[0]);
      StepAlike(cfg, dry, env, a, b, cs[0]);
      if !(o1 == Published && Tally(k, o1).posted >= cfg.maxPostsPerRun) {
        DryRunDecidesAlike(cfg, dry, env, s1, s2, cs[1..], Tally(k, o1));
      }
    }
  }

  // ---------------------------------------------------------------------------
  // approve_and_post.

  /** What draining one popped row does: the row is skipped exactly when
      `only_verified` holds and it is unverified, and either way its id leaves
      the queue.  A skipped row changes neither the drops nor the counter; a
      posted one adds one to the counter; a dry run adds no drop, and a live
      post appends one drop row, stamped as posted, with the row's key and
      data, leaving the earlier rows alone. */
  ghost predicate DrainEffects(cfg: Config, st: State, r: QueueRow, p: bool, s': State) {
    && s'.queue == WithoutId(st.queue, r.id) && Valid(s')
    && (p <==> !(cfg.onlyVerified && !r.verified))
    && (!p ==> s'.drops == st.drops && GetPostCounter(s') == GetPostCounter(st))
    && (p ==> GetPostCounter(s') == GetPostCounter(st) + 1)
    && (p && cfg.dryRun ==> s'.drops == st.drops)
    && (p && !cfg.dryRun ==>
          && |s'.drops| == |st.drops| + 1 && s'.drops[..|st.drops|] == st.drops
          && var d := s'.drops[|st.drops|];
             && d.dupeKey == r.dupeKey && d.name == r.name && d.officialUrl == r.officialUrl
             && d.officialDomain == r.officialDomain && d.verified == r.verified && d.score == r.score
             && d.postedAt.Some?)
  }

  lemma {:induction false} DrainRowEffects(cfg: Config, env: Env, st: State, r: QueueRow)
    requires CfgOk(cfg) && Valid(st) && Disjoint(st) && r in st.queue
    ensures DrainEffects(cfg, st, r, DrainRow(cfg, env, st, r).0, DrainRow(cfg, env, st, r).1)
  {
    if !(cfg.onlyVerified && !r.verified) && !cfg.dryRun {
      DrainLive(cfg, env, st, r);
    }
  }

  lemma {:induction false} DrainLive(cfg: Config, env: Env, st: State, r: QueueRow)
    requires CfgOk(cfg) && Valid(st) && Disjoint(st) && r in st.queue
    requires !(cfg.onlyVerified && !r.verified) && !cfg.dryRun
    ensures DrainEffects(cfg, st, r, DrainRow(cfg, env, st, r).0, DrainRow(cfg, env, st, r).1)
  {
    var thread := DropPost(r.name, r.officialUrl, r.score, r.verified, None, cfg.accountTag, CtaFor(cfg, st),
                           cfg.templateRotation, env.draw(st.clock));
    var root := env.publish(st.clock, thread);
    assert r.dupeKey in QueueKeys(st);
    var (id, s1) := InsertDrop(st, r.dupeKey, r.name, r.officialUrl, r.officialDomain, r.verified, r.score);
    var s2 := MarkPosted(s1, id, root);
    var n := |st.drops|;
    forall i | 0 <= i < n ensures s2.drops[i] == st.drops[i] {
      assert st.drops[i].id < id;
      assert s1.drops[i] == st.drops[i];
    }
    assert s2.drops[n] == StampRow(s1.drops[n], id, root, s1.clock);
    var s3 := RemoveFromQueue(IncPostCounter(s2).1, r.id);
    assert DrainRow(cfg, env, st, r) == (true, Note(cfg, s3, "approve_posted", NameRootScore(r.name, root, r.score)));
  }

  /** The number of popped rows that pass the `only_verified` gate. */
  function Postable(cfg: Config, rows: seq<QueueRow>): nat {
    if rows == [] then 0 else (if cfg.onlyVerified && !rows[0].verified then 0 else 1) + Postable(cfg, rows[1..])
  }

  lemma IdsCons(rows: seq<QueueRow>)
    requires rows != []
    ensures IdsOf(rows) == {rows[0].id} + IdsOf(rows[1..])
  {
    forall x | x in IdsOf(rows) ensures x in {rows[0].id} + IdsOf(rows[1..]) {
      var i :| 0 <= i < |rows| && rows[i].id == x;
      if i > 0 {
        assert rows[1..][i - 1] == rows[i];
      }
    }
    forall x | x in IdsOf(rows[1..]) ensures x in IdsOf(rows) {
      var i :| 0 <= i < |rows[1..]| && rows[1..][i].id == x;
      assert rows[i + 1] == rows[1..][i];
    }
  }

  /** The drain posts every row that passes the gate, and only those, and adds
      that many to the post counter. */
  lemma {:induction false} DrainLoopCounts(cfg: Config, env: Env, st: State, rows: seq<QueueRow>, posted: nat)
    requires CfgOk(cfg) && DrainOk(st, rows)
    ensures var (n, s') := DrainLoop(cfg, env, st, rows, posted);
            && n == posted + Postable(cfg, rows)
            && GetPostCounter(s') == GetPostCounter(st) + Postable(cfg, rows)
    decreases |rows|
  {
    if rows != [] {
      var (p, s1) := DrainRow(cfg, env, st, rows[0]);
      DrainRowEffects(cfg, env, st, rows[0]);
      assert DrainEffects(cfg, st, rows[0], p, s1);
      DrainRowKeeps(cfg, env, st, rows);
      DrainLoopCounts(cfg, env, s1, rows[1..], if p then posted + 1 else posted);
    }
  }

  /** The drain removes every popped row from the queue, leaves every other
      queued row, and keeps the invariant and the dupe keys apart. */
  lemma {:induction false} DrainLoopQueue(cfg: Config, env: Env, st: State, rows: seq<QueueRow>, posted: nat)
    requires CfgOk(cfg) && DrainOk(st, rows)
    ensures var s' := DrainLoop(cfg, env, st, rows, posted).1;
            && Valid(s') && Disjoint(s')
            && forall x :: x in s'.queue <==> x in st.queue && x.id !in IdsOf(rows)
    decreases |rows|
  {
    if rows != [] {
      var (p, s1) := DrainRow(cfg, env, st, rows[0]);
      var p1 := if p then posted + 1 else posted;
      DrainQueueStep(cfg, env, st, rows);
      DrainLoopQueue(cfg, env, s1, rows[1..], p1);
      var s' := DrainLoop(cfg, env, s1, rows[1..], p1).1;
      assert DrainLoop(cfg, env, st, rows, posted).1 == s';
      QueueAfterRows(st, s1, s', rows);
    }
  }

  /** Removing the first row, then the rest, removes them all. */
  lemma QueueAfterRows(st: State, s1: State, s': State, rows: seq<QueueRow>)
    requires rows != []
    requires forall x :: x in s1.queue <==> x in st.queue && x.id != rows[0].id
    requires forall x :: x in s'.queue <==> x in s1.queue && x.id !in IdsOf(rows[1..])
    ensures forall x :: x in s'.queue <==> x in st.queue && x.id !in IdsOf(rows)
  {
    IdsCons(rows);
  }

  /** One row of DrainLoopQueue. */
  lemma {:induction false} DrainQueueStep(cfg: Config, env: Env, st: State, rows: seq<QueueRow>)
    requires CfgOk(cfg) && DrainOk(st, rows) && rows != []
    ensures var s1 := DrainRow(cfg, env, st, rows[0]).1;
            && DrainOk(s1, rows[1..])
            && forall x :: x in s1.queue <==> x in st.queue && x.id != rows[0].id
  {
    var s1 := DrainRow(cfg, env, st, rows[0]).1;
    DrainRowEffects(cfg, env, st, rows[0]);
    assert s1.queue == WithoutId(st.queue, rows[0].id);
    DrainRowKeeps(cfg, env, st, rows);
  }

  /** approve_and_post approves before it reads: with a row waiting for
      approval and a limit other than zero, the rows it drains are never
      empty. */
  lemma {:induction false} ApproveBeforeRead(st: State, limit: int)
    requires Valid(st) && Unapproved(st.queue) != [] && limit != 0
    ensures PopApproved(ApproveTop(st, limit), limit) != []
  {
    var q := st.queue;
    var picks := ApprovalPicks(q, limit);
    assert |picks| >= 1;
    var x := picks[0];
    assert x in picks;
    assert x in q;
    var i :| 0 <= i < |q| && q[i] == x;
    ApproveTopExact(st, limit);
    var q' := ApproveTop(st, limit).queue;
    assert q'[i].approved;
    assert q'[i] in Approved(q');
  }

  /** approve_and_post as a whole: it posts exactly the popped rows that pass
      the gate, adds that many to the post counter, empties the queue of the
      popped rows and keeps the invariant. */
  lemma {:induction false} ApproveFlowEffects(cfg: Config, env: Env, st: State)
    requires CfgOk(cfg) && Valid(st) && Disjoint(st)
    ensures var rows := PopApproved(ApproveTop(st, cfg.approvePostLimit), cfg.approvePostLimit);
            var (n, s') := ApproveFlow(cfg, env, st);
            && n == Postable(cfg, rows)
            && GetPostCounter(s') == GetPostCounter(st) + n
            && Valid(s') && Disjoint(s')
            && forall x :: x in s'.queue ==> x.id !in IdsOf(rows)
  {
    var s1 := ApproveTop(st, cfg.approvePostLimit);
    var rows := PopApproved(s1, cfg.approvePostLimit);
    PopApprovedDrainOk(s1, cfg.approvePostLimit);
    DrainLoopCounts(cfg, env, s1, rows, 0);
    DrainLoopQueue(cfg, env, s1, rows, 0);
    assert GetPostCounter(s1) == GetPostCounter(st);
  }

  // ---------------------------------------------------------------------------
  // maybe_post_weekly_digest.

  /** The day setting names Monday to Sunday as 0 to 6; a name outside the
      seven falls back to Monday. */
  lemma DayIndexRange(day: string)
    ensures DayIndex(day) < 7
    ensures day !in {"MON", "TUE", "WED", "THU", "FRI", "SAT", "SUN"} ==> DayIndex(day) == 0
    ensures DayIndex("SUN") == 6
  {
  }

  /** When a gate fails nothing changes. */
  lemma DigestNotDue(cfg: Config, env: Env, st: State, weekday: nat, today: string)
    requires !DigestDue(cfg, st, weekday, today)
    ensures Digest(cfg, env, st, weekday, today) == st
  {
  }

  /** A due digest lists some posted drop and records the day; a dry run
      leaves the counter, a live digest adds one; neither touches the drops,
      the queue or `seen`, and the invariant holds afterwards. */
  lemma {:induction false} DigestDueEffects(cfg: Config, env: Env, st: State, weekday: nat, today: string)
    requires Valid(st) && DigestDue(cfg, st, weekday, today)
    ensures exists d :: d in st.drops && d.postedAt.Some?
    ensures var r := Digest(cfg, env, st, weekday, today);
            && GetLastDigestDay(r) == Some(today)
            && GetPostCounter(r) == GetPostCounter(st) + (if cfg.dryRun then 0 else 1)
            && r.drops == st.drops && r.queue == st.queue && r.seen == st.seen
            && Valid(r)
  {
    var top := TopRecentDrops(st, DigestSize);
    assert top[0] in top;
    if !cfg.dryRun {
      var s1 := IncPostCounter(SetLastDigestDay(st, today)).1;
      assert GetLastDigestDay(s1) == Some(today) by {
        assert LastDigestDayKey != PostCounterKey;
        assert s1.meta[LastDigestDayKey] == today;
      }
    }
  }

  /** The digest lists the eight latest posted drops (all of them when there
      are fewer), so its "some posted drop" gate holds exactly when a drop
      has been posted. */
  lemma {:induction false} DigestLists(st: State)
    ensures var top := TopRecentDrops(st, DigestSize);
            && |top| == (if |Posted(st.drops)| <= DigestSize then |Posted(st.drops)| else DigestSize)
            && (top != [] <==> exists d :: d in st.drops && d.postedAt.Some?)
  {
    var top := TopRecentDrops(st, DigestSize);
    if exists d :: d in st.drops && d.postedAt.Some? {
      var d :| d in st.drops && d.postedAt.Some?;
      assert d in Posted(st.drops);
    }
    if top != [] {
      assert top[0] in top;
    }
  }

  /** At most one digest a day: a second call on the same day changes nothing. */
  lemma {:induction false} DigestOncePerDay(cfg: Config, env: Env, st: State, weekday: nat, today: string)
    requires Valid(st)
    ensures var r := Digest(cfg, env, st, weekday, today);
            Digest(cfg, env, r, weekday, today) == r
  {
    if DigestDue(cfg, st, weekday, today) {
      DigestDueEffects(cfg, env, st, weekday, today);
    }
  }
}
