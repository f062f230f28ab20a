/** The decision pipeline of src/bot.py: the dupe key, the call-to-action
    cadence, the per-candidate state machine of `run`, the drain of the review
    queue (`approve_and_post`) and the gating of the weekly digest.

    Each step is a function from the tables (module Tables) to an outcome and
    new tables; the methods perform the same steps on a Db.Store and are
    proved to agree with the functions.  The network is an Env of oracles:
    the page fetch and profile lookup of the ownership check, the publisher,
    which returns the root post id, and the template draw.  What is handed to
    the publisher is an Outgoing post: the arguments of the builder whose
    result, `Parts`, is the text `post_thread` sends. */
module Bot {
  import opened Text
  import opened Verify
  import opened Scoring
  import opened Compose
  import opened XSearch
  import opened Tables
  import opened Sorting
  import Db

  /** The settings the pipeline reads.  An empty link hub means "none". */
  datatype Config = Config(
    linkHubUrl: string, ctaText: string, ctaEveryNPosts: int, metricsEnabled: bool,
    requireHttps: bool, blockShorteners: bool, rejectSocialOnly: bool, allowlistDomains: seq<string>,
    onlyVerified: bool, queueMinScore: int, minScoreVerified: int, minScoreUnverified: int,
    autoPost: bool, dryRun: bool, maxPostsPerRun: int, accountTag: string, templateRotation: bool,
    approvePostLimit: int, weeklyDigest: bool, weeklyDigestDay: string)

  /** The cadence divides by `ctaEveryNPosts` whenever a link hub is set. */
  predicate CfgOk(cfg: Config) { cfg.linkHubUrl != "" ==> cfg.ctaEveryNPosts != 0 }

  /** A post handed to the publisher: a drop's thread or the weekly digest,
      given by the arguments of the builder that produces its parts. */
  datatype Outgoing =
    | DropPost(name: string, officialUrl: string, score: int, verified: bool, handle: Option<string>,
               accountTag: string, cta: Option<string>, rotation: bool, draw: nat)
    | DigestPost(rows: seq<DigestRow>, accountTag: string, cta: Option<string>)

  /** The text parts the post consists of. */
  function Parts(p: Outgoing): (r: seq<string>)
    ensures p.DropPost? ==> |r| == 4
    ensures p.DigestPost? ==> |r| == 2
    ensures forall i :: 0 <= i < |r| ==> |r[i]| <= PartLimit
  {
    match p
    case DropPost(name, url, sc, verified, handle, tag, cta, rotation, draw) =>
      BuildThread(name, url, sc, verified, handle, tag, cta, rotation, draw)
    case DigestPost(rows, tag, cta) => WeeklyDigest(rows, tag, cta)
  }

  /** The outside world.  `publish` receives the store clock at the call and
      the post and returns the root post id; `draw` gives the template index
      the random choice picks at a given clock. */
  datatype Env = Env(fetch: string -> Fetch, lookup: string -> Lookup,
                     publish: (nat, Outgoing) -> string, draw: nat -> nat)

  // ---------------------------------------------------------------------------
  // dupe_key, should_add_cta, cta_line.

  /** `(domain or 'unknown')`: an absent or empty domain reads "unknown". */
  function DomainOrUnknown(domain: Option<string>): string {
    if domain.Some? && domain.value != "" then domain.value else "unknown"
  }

  /** dupe_key: lower-cased and stripped name and domain around "::". */
  function DupeKey(name: string, domain: Option<string>): string {
    Strip(Lower(name)) + "::" + Strip(Lower(DomainOrUnknown(domain)))
  }

  /** should_add_cta: a link hub is set and the next post number is a multiple of n. */
  function ShouldAddCta(cfg: Config, st: State): bool
    requires CfgOk(cfg)
  {
    cfg.linkHubUrl != "" && (GetPostCounter(st) + 1) % cfg.ctaEveryNPosts == 0
  }

  /** cta_line: the text and the hub, stripped; None without a hub. */
  function CtaLine(cfg: Config): (r: Option<string>)
    ensures r.None? <==> cfg.linkHubUrl == ""
  {
    if cfg.linkHubUrl == "" then None else Some(Strip(cfg.ctaText + " " + cfg.linkHubUrl))
  }

  /** `cta_line(cfg) if should_add_cta(cfg, conn) else None`. */
  function CtaFor(cfg: Config, st: State): Option<string>
    requires CfgOk(cfg)
  {
    if ShouldAddCta(cfg, st) then CtaLine(cfg) else None
  }

  /** `if cfg.metrics_enabled: log_metric(...)`. */
  function Note(cfg: Config, st: State, event: string, detail: string): (r: State)
    ensures r.drops == st.drops && r.queue == st.queue && r.meta == st.meta && r.seen == st.seen
    ensures r.nextDropId == st.nextDropId && r.nextQueueId == st.nextQueueId
  {
    if cfg.metricsEnabled then LogMetric(st, event, Some(detail)) else st
  }

  function NameScore(name: string, sc: int): string { name + "|" + IntToString(sc) }

  function NameRootScore(name: string, root: string, sc: int): string {
    name + "|" + root + "|" + IntToString(sc)
  }

  // ---------------------------------------------------------------------------
  // One candidate of `run`.

  /** The filters before verification, in the order the source applies them. */
  datatype Screen = Reject(event: string, detail: string) | Pass(url: string, domain: Option<string>)

  function ScreenOf(cfg: Config, c: Candidate): (r: Screen)
    ensures r.Pass? ==> BestUrl(c) == Some(r.url) && r.domain == Host(Some(r.url))
  {
    if HardBlock(c.text) then Reject("reject_hard_block", c.tweetId)
    else
      match BestUrl(c)
      case None => Reject("reject_no_url", c.tweetId)
      case Some(url) =>
        var d := Host(Some(url));
        if cfg.requireHttps && !IsHttps(url) then Reject("reject_not_https", url)
        else if cfg.blockShorteners && IsShortener(d) then Reject("reject_shortener", OrEmpty(d))
        else if cfg.rejectSocialOnly && IsSocialOnly(d) then Reject("reject_social_only", OrEmpty(d))
        else if !DomainAllowed(cfg.allowlistDomains, d) then Reject("reject_allowlist", OrEmpty(d))
        else Pass(url, d)
  }

  /** Where a new, undeduplicated candidate goes after scoring. */
  datatype Route = ToQueue(reason: string, event: string) | ToReject(event: string) | ToPublish

  /** The score threshold a candidate must reach to be published. */
  function MinNeeded(cfg: Config, verified: bool): int {
    if verified then cfg.minScoreVerified else cfg.minScoreUnverified
  }

  function RouteOf(cfg: Config, verified: bool, sc: int): Route {
    if cfg.onlyVerified && !verified then
      if sc >= cfg.queueMinScore then ToQueue("not_verified", "queued_not_verified")
      else ToReject("reject_not_verified_low")
    else if sc < MinNeeded(cfg, verified) then
      if sc >= cfg.queueMinScore then ToQueue("below_threshold(" + IntToString(MinNeeded(cfg, verified)) + ")", "queued_below_threshold")
      else ToReject("reject_low_score")
    else if !cfg.autoPost then ToQueue("auto_post_disabled", "queued_auto_disabled")
    else ToPublish
  }

  datatype Outcome = AlreadySeen | Rejected | Queued | Published

  /** The thread of a drop, built on the tables as they are when it is built. */
  function DropThread(cfg: Config, env: Env, st: State, name: string, url: string, sc: int, verified: bool,
                      handle: Option<string>): Outgoing
    requires CfgOk(cfg)
  {
    DropPost(name, url, sc, verified, handle, cfg.accountTag, CtaFor(cfg, st), cfg.templateRotation, env.draw(st.clock))
  }

  /** The publishing branch: reserve the drop row, then either count a dry
      run or publish, stamp the row and count. */
  function PublishDrop(cfg: Config, env: Env, st: State, key: string, name: string, url: string,
                       v: Verification, sc: int): (r: State)
    requires CfgOk(cfg) && key !in DropKeys(st)
  {
    var (id, s1) := InsertDrop(st, key, name, url, v.domain, v.verified, sc);
    var thread := DropThread(cfg, env, s1, name, url, sc, v.verified, v.handle);
    if cfg.dryRun then
      Note(cfg, IncPostCounter(s1).1, "dry_run_post", NameScore(name, sc))
    else
      var root := env.publish(s1.clock, thread);
      Note(cfg, IncPostCounter(MarkPosted(s1, id, root)).1, "posted", NameRootScore(name, root, sc))
  }

  /** One iteration of the candidate loop of `run`. */
  function Process(cfg: Config, env: Env, st: State, c: Candidate): (r: (Outcome, State))
    requires CfgOk(cfg)
  {
    var (isNew, s1) := MarkSeen(st, c.tweetId);
    if !isNew then (AlreadySeen, s1)
    else
      match ScreenOf(cfg, c)
      case Reject(event, detail) => (Rejected, Note(cfg, s1, event, detail))
      case Pass(url, d) =>
        var v := VerifyOfficial(url, env.fetch, env.lookup);
        var name := ProjectName(c.text);
        var key := DupeKey(name, v.domain);
        if HasDupe(s1, key) then (Rejected, Note(cfg, s1, "reject_dupe", key))
        else Routed(cfg, env, s1, c, url, v, name, key, ScoreOf(c.text, Some(url), v.verified))
  }

  /** The routing of a new key after scoring. */
  function Routed(cfg: Config, env: Env, st: State, c: Candidate, url: string, v: Verification,
                  name: string, key: string, sc: int): (r: (Outcome, State))
    requires CfgOk(cfg) && !HasDupe(st, key)
  {
    match RouteOf(cfg, v.verified, sc)
    case ToReject(event) => (Rejected, Note(cfg, st, event, NameScore(name, sc)))
    case ToQueue(reason, event) =>
      var s2 := EnqueueReview(st, key, name, url, v.domain, v.verified, sc, reason, Some(c.tweetId), Some(c.text));
      (Queued, Note(cfg, s2, event, NameScore(name, sc)))
    case ToPublish => (Published, PublishDrop(cfg, env, st, key, name, url, v, sc))
  }

  // ---------------------------------------------------------------------------
  // The candidate loop of `run`.

  datatype Counts = Counts(posted: nat, queued: nat, rejected: nat)

  function Tally(k: Counts, o: Outcome): Counts {
    match o
    case AlreadySeen => k
    case Rejected => k.(rejected := k.rejected + 1)
    case Queued => k.(queued := k.queued + 1)
    case Published => k.(posted := k.posted + 1)
  }

  /** The counters, the tables and the candidates left untouched by the loop. */
  datatype Run = Run(counts: Counts, st: State, rest: seq<Candidate>)

  /** The loop: every candidate in turn, stopping right after a publication
      that brings `posted` to the per-run cap. */
  function RunLoop(cfg: Config, env: Env, st: State, cs: seq<Candidate>, k: Counts): (r: Run)
    requires CfgOk(cfg)
    ensures |r.rest| <= |cs| && r.rest == cs[|cs| - |r.rest|..]
    decreases |cs|
  {
    if cs == [] then Run(k, st, [])
    else
      var (o, s1) := Process(cfg, env, st, cs[0]);
      var k1 := Tally(k, o);
      if o == Published && k1.posted >= cfg.maxPostsPerRun then Run(k1, s1, cs[1..])
      else
        var r := RunLoop(cfg, env, s1, cs[1..], k1);
        assert cs[1..][|cs| - 1 - |r.rest|..] == cs[|cs| - |r.rest|..];
        r
  }

  // ---------------------------------------------------------------------------
  // approve_and_post.

  /** The rows of `pop_approved` have distinct ids. */
  predicate DistinctIds(rows: seq<QueueRow>) {
    forall i, j :: 0 <= i < j < |rows| ==> rows[i].id != rows[j].id
  }

  /** What the drain needs of the tables: the invariant, no key both a drop and
      queued, and every row still to drain present in the queue. */
  predicate DrainOk(st: State, rows: seq<QueueRow>) {
    Valid(st) && Disjoint(st) && DistinctIds(rows) && forall i :: 0 <= i < |rows| ==> rows[i] in st.queue
  }

  /** One row of the drain.  The result says whether it counts as posted. */
  function DrainRow(cfg: Config, env: Env, st: State, r: QueueRow): (res: (bool, State))
    requires CfgOk(cfg) && Disjoint(st) && r in st.queue
  {
    if cfg.onlyVerified && !r.verified then
      (false, Note(cfg, RemoveFromQueue(st, r.id), "approve_skip_not_verified", r.name))
    else
      var thread := DropPost(r.name, r.officialUrl, r.score, r.verified, None, cfg.accountTag, CtaFor(cfg, st),
                             cfg.templateRotation, env.draw(st.clock));
      if cfg.dryRun then
        (true, Note(cfg, RemoveFromQueue(IncPostCounter(st).1, r.id), "approve_dry_run_post", NameScore(r.name, r.score)))
      else
        var root := env.publish(st.clock, thread);
        assert r.dupeKey in QueueKeys(st);
        var (id, s1) := InsertDrop(st, r.dupeKey, r.name, r.officialUrl, r.officialDomain, r.verified, r.score);
        var s2 := RemoveFromQueue(IncPostCounter(MarkPosted(s1, id, root)).1, r.id);
        (true, Note(cfg, s2, "approve_posted", NameRootScore(r.name, root, r.score)))
  }

  /** The loop over the popped rows, counting the posted ones. */
  function DrainLoop(cfg: Config, env: Env, st: State, rows: seq<QueueRow>, posted: nat): (r: (nat, State))
    requires CfgOk(cfg) && DrainOk(st, rows)
    decreases |rows|
  {
    if rows == [] then (posted, st)
    else
      var (p, s1) := DrainRow(cfg, env, st, rows[0]);
      DrainRowKeeps(cfg, env, st, rows);
      DrainLoop(cfg, env, s1, rows[1..], if p then posted + 1 else posted)
  }

  /** One row of the drain: the rest of the loop runs on the state that row leaves. */
  lemma DrainLoopStep(cfg: Config, env: Env, st: State, rows: seq<QueueRow>, posted: nat)
    requires CfgOk(cfg) && DrainOk(st, rows) && rows != []
    ensures DrainOk(DrainRow(cfg, env, st, rows[0]).1, rows[1..])
    ensures DrainLoop(cfg, env, st, rows, posted)
         == DrainLoop(cfg, env, DrainRow(cfg, env, st, rows[0]).1, rows[1..],
                      if DrainRow(cfg, env, st, rows[0]).0 then posted + 1 else posted)
  {
    DrainRowKeeps(cfg, env, st, rows);
  }

  /** approve_and_post after connecting: approve, read the approved rows, drain them. */
  function ApproveFlow(cfg: Config, env: Env, st: State): (r: (nat, State))
    requires CfgOk(cfg) && Valid(st) && Disjoint(st)
  {
    var s1 := ApproveTop(st, cfg.approvePostLimit);
    var rows := PopApproved(s1, cfg.approvePostLimit);
    PopApprovedDrainOk(s1, cfg.approvePostLimit);
    DrainLoop(cfg, env, s1, rows, 0)
  }

  // ---------------------------------------------------------------------------
  // What the drain relies on.

  /** Under the invariant, two different queue rows differ in both id and key. */
  lemma QueueRowsDiffer(q: seq<QueueRow>, x: QueueRow, y: QueueRow)
    requires QueueOrdered(q) && QueueKeysDistinct(q) && x in q && y in q && x != y
    ensures x.id != y.id && x.dupeKey != y.dupeKey
  {
    var i :| 0 <= i < |q| && q[i] == x;
    var j :| 0 <= j < |q| && q[j] == y;
    assert i != j;
  }

  /** Removing the drained row keeps the rest of the rows in the queue and
      drops the row's key from the queue keys. */
  lemma {:induction false} RemoveRowKeeps(st: State, rows: seq<QueueRow>)
    requires DrainOk(st, rows) && rows != []
    ensures forall i :: 1 <= i < |rows| ==> rows[i] in RemoveFromQueue(st, rows[0].id).queue
    ensures QueueKeys(RemoveFromQueue(st, rows[0].id)) == QueueKeys(st) - {rows[0].dupeKey}
  {
    var r := rows[0];
    var q' := RemoveFromQueue(st, r.id).queue;
    forall i | 1 <= i < |rows| ensures rows[i] in q' {
      assert rows[0].id != rows[i].id;
    }
    forall k | k in QueueKeys(RemoveFromQueue(st, r.id)) ensures k in QueueKeys(st) - {r.dupeKey} {
      var a :| 0 <= a < |q'| && q'[a].dupeKey == k;
      assert q'[a] in q' && q'[a].id != r.id;
      QueueRowsDiffer(st.queue, q'[a], r);
    }
    forall k | k in QueueKeys(st) - {r.dupeKey} ensures k in QueueKeys(RemoveFromQueue(st, r.id)) {
      var a :| 0 <= a < |st.queue| && st.queue[a].dupeKey == k;
      assert st.queue[a] in st.queue;
      QueueRowsDiffer(st.queue, st.queue[a], r);
      assert st.queue[a] in q';
    }
  }

  /** The drain invariant survives one row. */
  lemma {:induction false} DrainRowKeeps(cfg: Config, env: Env, st: State, rows: seq<QueueRow>)
    requires CfgOk(cfg) && DrainOk(st, rows) && rows != []
    ensures DrainOk(DrainRow(cfg, env, st, rows[0]).1, rows[1..])
  {
    var r := rows[0];
    RemoveRowKeeps(st, rows);
    var s' := DrainRow(cfg, env, st, r).1;
    assert r.dupeKey in QueueKeys(st);
    assert QueueKeys(s') == QueueKeys(st) - {r.dupeKey};
    assert DropKeys(s') <= DropKeys(st) + {r.dupeKey};
    assert forall i :: 1 <= i < |rows| ==> rows[i] in s'.queue;
  }

  /** A sequence in which no value occurs twice has distinct positions. */
  lemma SingletonsDistinct(s: seq<QueueRow>, i: nat, j: nat)
    requires forall x :: multiset(s)[x] <= 1
    requires i < j < |s|
    ensures s[i] != s[j]
  {
    assert s == s[..j] + s[j..];
    assert multiset(s)[s[i]] == multiset(s[..j])[s[i]] + multiset(s[j..])[s[i]];
    assert multiset(s[..j])[s[i]] >= 1 by { assert s[..j][i] == s[i]; }
    assert multiset(s[j..])[s[j]] >= 1 by { assert s[j..][0] == s[j]; }
  }

  /** The rows pop_approved returns satisfy the drain invariant. */
  lemma {:induction false} PopApprovedDrainOk(st: State, limit: int)
    requires Valid(st) && Disjoint(st)
    ensures DrainOk(st, PopApproved(st, limit))
  {
    var rows := PopApproved(st, limit);
    PopApprovedSingletons(st, limit);
    forall i, j | 0 <= i < j < |rows| ensures rows[i].id != rows[j].id {
      SingletonsDistinct(rows, i, j);
      QueueRowsDiffer(st.queue, rows[i], rows[j]);
    }
  }

  /** pop_approved returns no row twice. */
  lemma {:induction false} PopApprovedSingletons(st: State, limit: int)
    requires Valid(st)
    ensures forall x :: multiset(PopApproved(st, limit))[x] <= 1
  {
    var q := st.queue;
    var all := SortBy(Approved(q), RankLe);
    var rows := PopApproved(st, limit);
    assert rows == Take(all, limit);
    assert all == rows + all[|rows|..];
    assert multiset(rows) <= multiset(all);
    ApprovedSub(q);
    forall x ensures multiset(rows)[x] <= 1 {
      QueueSingletons(q, x);
    }
  }

  // ---------------------------------------------------------------------------
  // maybe_post_weekly_digest.

  /** `DAY_MAP.get(day, 0)`. */
  function DayIndex(day: string): nat {
    if day == "MON" then 0 else if day == "TUE" then 1 else if day == "WED" then 2
    else if day == "THU" then 3 else if day == "FRI" then 4 else if day == "SAT" then 5
    else if day == "SUN" then 6 else 0
  }

  function DigestRowOf(d: Drop): DigestRow { DigestRow(d.name, d.officialUrl, d.verified, d.score) }

  function DigestRows(ds: seq<Drop>): (rs: seq<DigestRow>)
    ensures |rs| == |ds| && forall i :: 0 <= i < |ds| ==> rs[i] == DigestRowOf(ds[i])
  {
    seq(|ds|, i requires 0 <= i < |ds| => DigestRowOf(ds[i]))
  }

  const DigestSize: int := 8

  /** The four gates of the digest: enabled, the configured weekday (Monday
      is 0), not yet sent today, and some posted drop to list. */
  predicate DigestDue(cfg: Config, st: State, weekday: nat, today: string) {
    && cfg.weeklyDigest
    && weekday == DayIndex(cfg.weeklyDigestDay)
    && GetLastDigestDay(st) != Some(today)
    && TopRecentDrops(st, DigestSize) != []
  }

  /** maybe_post_weekly_digest, with the weekday and the date of "now" as inputs. */
  function Digest(cfg: Config, env: Env, st: State, weekday: nat, today: string): State {
    if !DigestDue(cfg, st, weekday, today) then st
    else if cfg.dryRun then SetLastDigestDay(st, today)
    else
      var digest := DigestPost(DigestRows(TopRecentDrops(st, DigestSize)), cfg.accountTag, CtaLine(cfg));
      var root := env.publish(st.clock, digest);
      Note(cfg, IncPostCounter(SetLastDigestDay(st, today)).1, "weekly_digest_posted", root)
  }

  // ---------------------------------------------------------------------------
  // The same steps on the store.

  /** One candidate: mark it seen, screen it, verify, deduplicate, score, route. */
  method ProcessCandidate(store: Db.Store, cfg: Config, env: Env, c: Candidate) returns (o: Outcome)
    modifies store
    requires CfgOk(cfg) && store.Valid()
    ensures (o, store.State()) == Process(cfg, env, old(store.State()), c)
    ensures store.Valid()
  {
    ghost var s0 := store.State();
    var isNew := store.MarkSeen(c.tweetId);
    ghost var s1 := store.State();
    assert (isNew, s1) == MarkSeen(s0, c.tweetId);
    if !isNew {
      return AlreadySeen;
    }
    var gate := ScreenOf(cfg, c);
    if gate.Reject? {
      NoteOnStore(store, cfg, gate.event, gate.detail);
      return Rejected;
    }
    var url := gate.url;
    var v := VerifyOfficial(url, env.fetch, env.lookup);
    var name := ProjectNameFromText(c.text);
    var key := DupeKey(name, v.domain);
    var dupe := store.HasDupe(key);
    if dupe {
      NoteOnStore(store, cfg, "reject_dupe", key);
      return Rejected;
    }
    var sc := Score(c.text, Some(url), v.verified);
    o := RouteCandidate(store, cfg, env, c, url, v, name, key, sc);
  }

  /** The routing after the dedupe check, on the store. */
  method RouteCandidate(store: Db.Store, cfg: Config, env: Env, c: Candidate, url: string, v: Verification,
                        name: string, key: string, sc: int) returns (o: Outcome)
    modifies store
    requires CfgOk(cfg) && store.Valid() && !HasDupe(store.State(), key)
    ensures (o, store.State()) == Routed(cfg, env, old(store.State()), c, url, v, name, key, sc)
    ensures store.Valid()
  {
    match RouteOf(cfg, v.verified, sc) {
      case ToReject(event) =>
        NoteOnStore(store, cfg, event, NameScore(name, sc));
        return Rejected;
      case ToQueue(reason, event) =>
        store.EnqueueReview(key, name, url, v.domain, v.verified, sc, reason, Some(c.tweetId), Some(c.text));
        NoteOnStore(store, cfg, event, NameScore(name, sc));
        return Queued;
      case ToPublish =>
        PublishOnStore(store, cfg, env, key, name, url, v, sc);
        return Published;
    }
  }

  /** The publishing branch on the store. */
  method PublishOnStore(store: Db.Store, cfg: Config, env: Env, key: string, name: string, url: string,
                        v: Verification, sc: int)
    modifies store
    requires CfgOk(cfg) && store.Valid() && key !in DropKeys(store.State())
    ensures store.State() == PublishDrop(cfg, env, old(store.State()), key, name, url, v, sc)
    ensures store.Valid()
  {
    ghost var s0 := store.State();
    var dropId := store.InsertDrop(key, name, url, v.domain, v.verified, sc);
    ghost var s1 := store.State();
    assert (dropId, s1) == InsertDrop(s0, key, name, url, v.domain, v.verified, sc);
    var thread := DropThread(cfg, env, store.State(), name, url, sc, v.verified, v.handle);
    if cfg.dryRun {
      var _ := store.IncPostCounter();
      NoteOnStore(store, cfg, "dry_run_post", NameScore(name, sc));
      return;
    }
    var root := env.publish(store.clock, thread);
    store.MarkPosted(dropId, root);
    ghost var s2 := store.State();
    assert s2 == MarkPosted(s1, dropId, root);
    var _ := store.IncPostCounter();
    assert store.State() == IncPostCounter(s2).1;
    NoteOnStore(store, cfg, "posted", NameRootScore(name, root, sc));
  }

  /** `if cfg.metrics_enabled: log_metric(conn, event, detail)` on the store. */
  method NoteOnStore(store: Db.Store, cfg: Config, event: string, detail: string)
    modifies store
    requires store.Valid()
    ensures store.State() == Note(cfg, old(store.State()), event, detail)
    ensures store.Valid()
  {
    if cfg.metricsEnabled {
      store.LogMetric(event, Some(detail));
    }
  }

  /** The candidate loop of `run`, with its three counters. */
  method RunCandidates(store: Db.Store, cfg: Config, env: Env, cs: seq<Candidate>)
    returns (posted: nat, queued: nat, rejected: nat)
    modifies store
    requires CfgOk(cfg) && store.Valid()
    ensures Counts(posted, queued, rejected) == RunLoop(cfg, env, old(store.State()), cs, Counts(0, 0, 0)).counts
    ensures store.State() == RunLoop(cfg, env, old(store.State()), cs, Counts(0, 0, 0)).st
    ensures store.Valid()
  {
    posted, queued, rejected := 0, 0, 0;
    var i := 0;
    while i < |cs|
      invariant 0 <= i <= |cs| && store.Valid()
      invariant RunLoop(cfg, env, old(store.State()), cs, Counts(0, 0, 0))
             == RunLoop(cfg, env, store.State(), cs[i..], Counts(posted, queued, rejected))
      decreases |cs| - i
    {
      assert cs[i..][0] == cs[i] && cs[i..][1..] == cs[i + 1..];
      ghost var before := store.State();
      var k := Counts(posted, queued, rejected);
      var o := ProcessCandidate(store, cfg, env, cs[i]);
      var k1 := Tally(k, o);
      posted, queued, rejected := k1.posted, k1.queued, k1.rejected;
      RunLoopStep(cfg, env, before, cs[i..], k);
      if o == Published && posted >= cfg.maxPostsPerRun {
        return;
      }
      i := i + 1;
    }
  }

  /** One turn of RunLoop. */
  lemma RunLoopStep(cfg: Config, env: Env, st: State, cs: seq<Candidate>, k: Counts)
    requires CfgOk(cfg) && cs != []
    ensures var (o, s1) := Process(cfg, env, st, cs[0]);
            RunLoop(cfg, env, st, cs, k)
            == if o == Published && Tally(k, o).posted >= cfg.maxPostsPerRun then Run(Tally(k, o), s1, cs[1..])
               else RunLoop(cfg, env, s1, cs[1..], Tally(k, o))
  {
  }

  /** One popped row on the store. */
  method DrainRowOnStore(store: Db.Store, cfg: Config, env: Env, r: QueueRow) returns (p: bool)
    modifies store
    requires CfgOk(cfg) && store.Valid() && Disjoint(store.State()) && r in store.queue
    ensures (p, store.State()) == DrainRow(cfg, env, old(store.State()), r)
    ensures store.Valid()
  {
    if cfg.onlyVerified && !r.verified {
      store.RemoveFromQueue(r.id);
      NoteOnStore(store, cfg, "approve_skip_not_verified", r.name);
      return false;
    }
    ghost var s0 := store.State();
    var thread := DropPost(r.name, r.officialUrl, r.score, r.verified, None, cfg.accountTag,
                           CtaFor(cfg, store.State()), cfg.templateRotation, env.draw(store.clock));
    if cfg.dryRun {
      var _ := store.IncPostCounter();
      store.RemoveFromQueue(r.id);
      NoteOnStore(store, cfg, "approve_dry_run_post", NameScore(r.name, r.score));
      return true;
    }
    var root := env.publish(store.clock, thread);
    assert r.dupeKey in QueueKeys(store.State());
    var dropId := store.InsertDrop(r.dupeKey, r.name, r.officialUrl, r.officialDomain, r.verified, r.score);
    ghost var s1 := store.State();
    assert (dropId, s1) == InsertDrop(s0, r.dupeKey, r.name, r.officialUrl, r.officialDomain, r.verified, r.score);
    store.MarkPosted(dropId, root);
    ghost var s2 := store.State();
    assert s2 == MarkPosted(s1, dropId, root);
    var _ := store.IncPostCounter();
    ghost var s3 := store.State();
    assert s3 == IncPostCounter(s2).1;
    store.RemoveFromQueue(r.id);
    assert store.State() == RemoveFromQueue(s3, r.id);
    NoteOnStore(store, cfg, "approve_posted", NameRootScore(r.name, root, r.score));
    return true;
  }

  /** approve_and_post after connecting. */
  method ApproveAndPost(store: Db.Store, cfg: Config, env: Env) returns (posted: nat)
    modifies store
    requires CfgOk(cfg) && store.Valid() && Disjoint(store.State())
    ensures (posted, store.State()) == ApproveFlow(cfg, env, old(store.State()))
    ensures store.Valid()
  {
    store.ApproveTop(cfg.approvePostLimit);
    var rows := store.PopApproved(cfg.approvePostLimit);
    PopApprovedDrainOk(store.State(), cfg.approvePostLimit);
    posted := DrainOnStore(store, cfg, env, rows);
  }

  /** The loop of approve_and_post over the popped rows. */
  method DrainOnStore(store: Db.Store, cfg: Config, env: Env, rows: seq<QueueRow>) returns (posted: nat)
    modifies store
    requires CfgOk(cfg) && store.Valid() && DrainOk(store.State(), rows)
    ensures (posted, store.State()) == DrainLoop(cfg, env, old(store.State()), rows, 0)
    ensures store.Valid()
  {
    posted := 0;
    var i := 0;
    assert rows[i..] == rows;
    while i < |rows|
      invariant 0 <= i <= |rows| && store.Valid()
      invariant DrainOk(store.State(), rows[i..])
      invariant DrainLoop(cfg, env, old(store.State()), rows, 0) == DrainLoop(cfg, env, store.State(), rows[i..], posted)
      decreases |rows| - i
    {
      ghost var before := store.State();
      assert rows[i..][0] == rows[i] && rows[i..][1..] == rows[i + 1..];
      DrainLoopStep(cfg, env, before, rows[i..], posted);
      var p := DrainRowOnStore(store, cfg, env, rows[i]);
      assert (p, store.State()) == DrainRow(cfg, env, before, rows[i..][0]);
      if p {
        posted := posted + 1;
      }
      i := i + 1;
    }
    assert rows[i..] == [];
  }

  /** maybe_post_weekly_digest on the store. */
  method MaybePostWeeklyDigest(store: Db.Store, cfg: Config, env: Env, weekday: nat, today: string)
    modifies store
    requires store.Valid()
    ensures store.State() == Digest(cfg, env, old(store.State()), weekday, today)
    ensures store.Valid()
  {
    if !cfg.weeklyDigest {
      return;
    }
    if weekday != DayIndex(cfg.weeklyDigestDay) {
      return;
    }
    var last := store.GetLastDigestDay();
    if last == Some(today) {
      return;
    }
    var rows := store.TopRecentDrops(DigestSize);
    if rows == [] {
      return;
    }
    if cfg.dryRun {
      store.SetLastDigestDay(today);
      return;
    }
    var root := env.publish(store.clock, DigestPost(DigestRows(rows), cfg.accountTag, CtaLine(cfg)));
    store.SetLastDigestDay(today);
    var _ := store.IncPostCounter();
    if cfg.metricsEnabled {
      store.LogMetric("weekly_digest_posted", Some(root));
    }
  }
}
