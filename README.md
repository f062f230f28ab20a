# Airdrop candidate triage: a Dafny model

This project models the decision pipeline of a bot that reads posts announcing
projects. For each candidate post, the bot:

- extracts the project's official link;
- checks that the site's own page links back to an account whose profile names the same domain;
- scores the candidate;
- lastly routes it to one of three outcomes: publishing, the manual review queue, or rejection.

All three outcomes are recorded in an SQLite store. The store:

- makes ingestion idempotent: each post id is handled at most once;
- keeps a project from being surfaced twice: a dupe key `name::domain` is unique in both tables.

The modelled core:

- **The store** (`src/db.py`) is the class `Db.Store`. Its fields are the tables:
  - `seen`, a set of post ids;
  - `drops` and `review_queue`, as sequences of rows in insertion order;
  - `meta`, a map;
  - `metrics`, an append-only log;
  - the next AUTOINCREMENT ids;
  - a logical clock.

  Each method performs its SQL statement in place and is proved equal to a function of module `Tables`; the properties are lemmas about those functions. The schema's UNIQUE and NULL constraints are the invariant `Tables.Valid`:
  - ids and stamps grow along each table;
  - dupe keys are distinct;
  - a drop has `root_tweet_id` exactly when it has `posted_at`;
  - the post counter is a decimal string.

  Every `now()` reads the logical clock and advances it, so creation and posting stamps are distinct and ordered by call. A negative SQLite `LIMIT` means "no limit" (`Sorting.Take`).
- **The pipeline** (`src/bot.py`), module `Bot`:
  - `dupe_key`, the call-to-action cadence and the per-candidate state machine of `run`. A pure function (`Bot.Process`) maps the tables to an outcome and new tables; the method `Bot.ProcessCandidate` performs it on a `Db.Store`.
  - The candidate loop with its per-run cap (`Bot.RunLoop`, `Bot.RunCandidates`).
  - The review-queue drain of `approve_and_post` (`Bot.ApproveFlow`, `Bot.ApproveAndPost`).
  - The gating of the weekly digest (`Bot.Digest`, `Bot.MaybePostWeeklyDigest`).

  The network is an `Env` of oracles:
  - the page fetch and the profile lookup of the ownership check;
  - the publisher, which gets the store clock and an `Outgoing` post and returns the root post id. An `Outgoing` post holds the arguments of the thread builder (a drop, or the weekly digest), and the text that `post_thread` sends is `Bot.Parts` of it;
  - the template draw that stands for `random.choice`.

  The weekday and today's date of the digest are parameters.
- **The link classifier and ownership check** (`src/verify.py`), module `Verify`:
  - a reduced `urllib.parse.urlsplit`: the C0/space strip, removal of tab and newline, the scheme split, the netloc up to `/?#`, and the ValueError on an unmatched bracket;
  - `host`, `is_https`, the membership tests and `domain_allowed`;
  - the handle scan of `extract_x_handle_from_html`, a character-level rendering of its two regular expressions;
  - the profile match over an abstract profile record;
  - the failure-tolerant triple of `verify_official`.
- **The scorer** (`src/scoring.py`): `hard_block` and `score`, module `Scoring`.
- **Thread composition** (`src/compose.py`, `src/templates.py`): the project name, the three builders with their 275-character caps, and the fixed template table, in modules `Compose` and `Templates`.
- **Query and link extraction** (`src/x_search.py`): `build_query` and `extract_best_url`, module `XSearch`.

Modules `Text` (string helpers that mirror Python's `str` methods) and `Sorting` (a stable insertion sort proved sorted and a permutation) support the others.

Details of the code that the model follows:

- `dupe_key` lower-cases before it strips. This gives the same key as stripping first, because lower-casing leaves white space alone.
- `domain_allowed` lower-cases the domain but not the allow-list entries. An entry with an upper-case letter never matches.
- `score` can never go below 42: the raw sum is at least 50 − 8. The clamp to 0 never acts.
- A dry run and a live run take the same decisions. They leave the same seen ids, the same dupe keys and the same post counter (`BotProps.DryRunDecidesAlike`). Their rows are not identical beyond the root id and the posting stamp, because a live publication takes one more timestamp (`mark_posted`). Every later `created_at` is therefore shifted.

## Model

| member | source | states |
|---|---|---|
| Db.Store.constructor | src/db.py:7-55 | a new database has empty tables, satisfies the schema invariant and has no dupe key in both tables |
| Db.Store.LogMetric | src/db.py:70-72 | appends one metric stamped with the current time; the invariant is kept |
| Db.Store.MarkSeen | src/db.py:74-80 | returns whether the id was new; afterwards it is in `seen` |
| Db.Store.HasDupe | src/db.py:82-87 | true exactly when the key is the dupe key of a drop or of a queued row |
| Db.Store.InsertDrop | src/db.py:89-98 | appends one unposted drop under the next id and returns that id; the key must be new |
| Db.Store.MarkPosted | src/db.py:100-102 | stamps root id and posting time on the row with that id, in place, row by row |
| Db.Store.GetPostCounter | src/db.py:115-117 | the stored counter, 0 when absent |
| Db.Store.IncPostCounter | src/db.py:104-113 | read-modify-write upsert; returns the old value plus one |
| Db.Store.GetLastDigestDay | src/db.py:119-121 | the stored day, none when absent |
| Db.Store.SetLastDigestDay | src/db.py:123-128 | upserts the day and nothing else |
| Db.Store.TopRecentDrops | src/db.py:130-138 | the read equals `Tables.TopRecentDrops`: min(limit, number posted) posted drops, latest first |
| Db.Store.EnqueueReview | src/db.py:140-153 | a new key appends an unapproved row with the source text cut to 2000 characters; a known key is ignored |
| Db.Store.ApproveTop | src/db.py:155-166 | sets `approved` in place on the rows the ranked selection picks |
| Db.Store.PopApproved | src/db.py:168-175 | the approved rows best first, at most `limit`; nothing changes |
| Db.Store.RemoveFromQueue | src/db.py:177-179 | deletes the rows with that id, keeping the others in order |
| Tables.MarkSeen | src/db.py:74-80 | the insert succeeds exactly when the id was not seen; `seen` gains the id; the invariant is kept |
| Tables.MarkSeenOnce | src/db.py:12 | a second `mark_seen` of the same id reports false, and `seen` only grows |
| Tables.HasDupe | src/db.py:82-87 | true iff some drop or some queued row carries the key |
| Tables.InsertDrop | src/db.py:89-98 | exactly one row is appended, with a fresh id, no root and no posting time; the drop keys gain the key |
| Tables.MarkPosted | src/db.py:100-102 | every row keeps its id and key; root and posting time are set together, so the invariant holds |
| Tables.IncPostCounter | src/db.py:104-113 | returns the old counter plus one, and a following read returns it |
| Tables.GetPostCounter | src/db.py:115-117 | reference definition: the stored counter read as a number, 0 when the key is absent; `Tables.CounterAfterInc` relates it to the increment |
| Tables.CounterAfterInc | src/db.py:104-117 | increments are seen by the next read; a fresh store counts 0 and its first increment returns 1 |
| Text.ParseNatToString | src/db.py:104-117 | the counter written as decimal text reads back as the same number |
| Tables.IncKeepsOtherMeta | src/db.py:104-113 | no meta key other than the counter changes |
| Tables.SetLastDigestDay | src/db.py:123-128 | the day reads back; the post counter is untouched |
| Tables.GetLastDigestDay | src/db.py:119-121 | reference definition: the stored day, none when the key is absent; `Tables.DigestDayRoundTrip` relates it to the setter |
| Tables.DigestDayRoundTrip | src/db.py:119-128 | set then get returns the day; a fresh store has none; other meta keys are unchanged |
| Tables.TopRecentDrops | src/db.py:130-138 | exactly min(limit, number posted) rows (all posted rows for a negative limit), a sub-multiset of the posted drops, ordered by posting time descending |
| Tables.TopRecentComplete | src/db.py:130-138 | with a large or negative limit it returns every posted drop; a posted drop left out was posted no later than every one returned |
| Tables.EnqueueReview | src/db.py:140-153 | a known key leaves the queue alone; a new key appends an unapproved row with truncated text; the queue keys gain the key |
| Tables.ApprovalPicks | src/db.py:157-162 | min(limit, number unapproved) rows, a sub-multiset of the unapproved rows, ranked by score descending then creation ascending |
| Tables.ApprovalPicksSingletons | src/db.py:157-162 | under the queue invariant no row is picked twice |
| Tables.ApprovalPicksBest | src/db.py:157-162 | every picked row ranks at least as high as every unapproved row not picked |
| Tables.ApproveTopExact | src/db.py:155-166 | each row afterwards is the row before, with `approved` set iff it was approved or picked; no other field or row changes |
| Tables.ApproveTop | src/db.py:155-166 | setting `approved` by the picked ids keeps the queue keys and the invariant |
| Tables.ApproveTopCount | src/db.py:155-166 | the number of approved rows grows by exactly min(limit, number unapproved), a negative limit meaning all |
| Tables.PopApproved | src/db.py:168-175 | only approved rows of the queue, ranked, and exactly min(limit, number approved) of them |
| Tables.PopApprovedComplete | src/db.py:168-175 | with no effective limit it returns all approved rows; otherwise every returned row outranks every approved row left |
| Tables.RemoveFromQueue | src/db.py:177-179 | the queue loses exactly the rows with that id; the invariant is kept |
| Tables.RemoveExactlyOne | src/db.py:177-179 | under the order invariant, removing a row's id removes that one row only |
| Tables.NoIdLeft | src/db.py:177-179 | removing an absent id changes nothing |
| Tables.LogMetric | src/db.py:70-72 | the log is append-only: one metric is added at the end, stamped with the current time |
| Sorting.SortBySorted | src/db.py:133-136 | the ORDER BY sort returns its input sorted by a total preorder |
| Sorting.SortBy | src/db.py:133-136 | the sort is a permutation of its input |
| Sorting.TakeIsBest | src/db.py:133-136 | LIMIT on a sorted list keeps rows ranked at least as high as every row dropped |
| Sorting.Take | src/db.py:136 | a negative or large LIMIT keeps all rows; otherwise the first `limit` |
| Bot.Parts | src/bot.py:241-261 | a drop is sent as the four parts of its thread, and the weekly digest (built at line 85) as two; each part is at most 275 characters |
| Bot.DupeKey | src/bot.py:20-21 | reference definition: the stripped, lower-cased name, `::`, and the stripped, lower-cased domain or `unknown`; `BotProps.DupeKeyIgnoresCase` states its properties |
| Bot.ShouldAddCta | src/bot.py:24-28 | reference definition: a link hub is set and the next post number (counter plus one) is a multiple of n; `BotProps.CtaOncePerN`, `CtaOff`, `CtaEveryThird` and `CtaFirstPost` state its cadence |
| Bot.CtaFor | src/bot.py:239-240 | reference definition: the call-to-action line when `should_add_cta` holds, none otherwise |
| Bot.RouteOf | src/bot.py:207-237 | reference definition of the routing by verification and score; `BotProps.RouteCases` characterises each route |
| Bot.Process | src/bot.py:151-270 | reference definition of one candidate's turn of the loop; `BotProps.ProcessMarksSeen`, `ProcessEffects`, `ProcessDecides` and `ProcessKeeps` state its effects |
| Bot.RunLoop | src/bot.py:144-273 | the loop over the candidates; what it leaves unprocessed is a suffix of the input; `BotProps.RunSeen`, `RunCounts`, `RunCap` and `RunKeeps` state the rest |
| Bot.DrainRow | src/bot.py:293-333 | reference definition of one approved row: skipped and removed when unverified under only_verified, otherwise posted (or counted in a dry run) and removed; `BotProps.DrainRowEffects` states its effects |
| Bot.DrainLoop | src/bot.py:293-335 | reference definition of the drain over the popped rows; `BotProps.DrainLoopCounts` and `DrainLoopQueue` state its effects |
| Bot.ApproveFlow | src/bot.py:285-338 | reference definition of approve_and_post after connecting: approve, pop, drain; `BotProps.ApproveFlowEffects` states its effects |
| Bot.DigestDue | src/bot.py:68-82 | reference definition of the four digest gates: enabled, the configured weekday, not sent today, some posted drop |
| Bot.Digest | src/bot.py:67-101 | reference definition of maybe_post_weekly_digest; `BotProps.DigestNotDue`, `DigestDueEffects` and `DigestOncePerDay` state its effects |
| Bot.CtaLine | src/bot.py:31-34 | there is a call-to-action line exactly when a link hub is configured |
| BotProps.DupeKeyIgnoresCase | src/bot.py:20-21 | the key does not depend on the letter case of name or domain; an absent, empty or "unknown" domain gives the same key |
| BotProps.CtaOff | src/bot.py:24-34 | without a link hub there is never a call to action |
| BotProps.CtaOncePerN | src/bot.py:24-28 | after a post that carried the call to action, the next one to carry it is exactly n posts later |
| BotProps.CtaEveryThird | src/bot.py:24-28 | with n = 3, counter 2 adds the call to action and counter 1 does not |
| BotProps.CtaFirstPost | src/bot.py:24-28 | on a fresh store the first post carries the call to action iff n = 1 |
| Bot.ScreenOf | src/bot.py:157-191 | a passing candidate's link is the best link of the post and its domain is that link's host |
| BotProps.ScreenOrder | src/bot.py:157-191 | each reject event fires iff every earlier filter passed and this one fails, in the order hard block, no URL, https, shortener, social-only, allowlist |
| BotProps.RouteCases | src/bot.py:207-237 | reject iff the score is below the queue floor and (unverified under only_verified, or below threshold); publish iff allowed by only_verified, at or above threshold and auto_post on; queue otherwise |
| BotProps.SeenIsSkipped | src/bot.py:151-154 | an already seen post changes nothing but the clock |
| BotProps.ProcessMarksSeen | src/bot.py:151-154 | every candidate is in `seen` afterwards, and it is skipped exactly when it was already there |
| BotProps.ProcessEffects | src/bot.py:151-270 | a rejection changes only `seen` and the log; a queued or published candidate passed every filter with a key found in neither table, and that key is added to exactly one table; only a publication moves the counter, by one |
| BotProps.PublishEffects | src/bot.py:239-266 | publishing appends exactly one drop with the candidate's data, stamped as posted iff not a dry run, and adds one to the counter; earlier rows and the queue are untouched |
| BotProps.ProcessKeeps | src/bot.py:151-270 | one candidate keeps the schema invariant and keeps the drop keys and queue keys disjoint |
| BotProps.ProcessDecides | src/bot.py:151-237 | the outcome of a candidate depends only on the seen ids and the set of dupe keys present, as the reference function Decide states |
| BotProps.DryRunDecidesAlike | src/bot.py:247-270 | a dry run and a live run over the same candidates count the same, stop at the same place, and leave the same seen ids, dupe keys and post counter |
| Bot.ProcessCandidate | src/bot.py:151-270 | one loop iteration on the store equals the state machine `Process` and keeps the invariant |
| Bot.RunCandidates | src/bot.py:144-273 | the loop on the store returns the counters and leaves the tables of `RunLoop` |
| BotProps.RunSeen | src/bot.py:151-154 | exactly the candidates the loop reached are added to `seen`; those after the cap stay unseen |
| BotProps.RunCounts | src/bot.py:147-270 | posted + queued + rejected grows by the number of newly seen ids; `posted` grows exactly as the stored post counter |
| BotProps.RunCap | src/bot.py:252-253 | `posted` never exceeds the cap (or one publication when the cap is below one), and the loop stops early only at a publication reaching the cap |
| BotProps.RunKeeps | src/bot.py:144-273 | the loop keeps the invariant and the disjointness of dupe keys |
| BotProps.ApproveBeforeRead | src/bot.py:285-286 | when unapproved rows exist and the limit is not 0, the read after approving finds rows |
| BotProps.DrainRowEffects | src/bot.py:293-333 | each drained row leaves the queue; it is skipped iff only_verified and unverified, and a skip changes neither drops nor counter; a post adds one to the counter; a dry run inserts no drop; a live post appends a posted drop with the row's key and data |
| BotProps.DrainLoopCounts | src/bot.py:292-333 | the returned count is the number of rows not skipped, and the counter grows by that number |
| BotProps.DrainLoopQueue | src/bot.py:293-333 | afterwards exactly the rows that were not drained remain queued; invariant and disjointness are kept |
| BotProps.ApproveFlowEffects | src/bot.py:285-338 | approve, read, drain: the count is the number of postable popped rows, the counter grows by it, every popped row is gone from the queue |
| Bot.ApproveAndPost | src/bot.py:285-338 | the drain on the store equals `ApproveFlow` and keeps the invariant |
| Bot.DrainOnStore | src/bot.py:293-335 | the in-place loop over the popped rows ends with the count and the tables `Bot.DrainLoop` gives, and keeps the invariant |
| BotProps.DayIndexRange | src/bot.py:72 | a day name maps to 0..6, an unknown name to 0 (Monday) |
| BotProps.DigestNotDue | src/bot.py:67-83 | disabled, wrong weekday, already done today or nothing posted yet: nothing changes |
| BotProps.DigestDueEffects | src/bot.py:81-101 | a due digest has a posted drop to show, records today as the digest day, adds one to the counter only when live, and touches no drop, queued row or seen id |
| BotProps.DigestOncePerDay | src/bot.py:76-79 | a second digest call on the same day changes nothing |
| BotProps.DigestLists | src/bot.py:80-82 | the digest lists min(8, number posted) drops, and its "some drop" gate holds iff a drop has been posted |
| Bot.MaybePostWeeklyDigest | src/bot.py:67-101 | the digest on the store equals `Digest` and keeps the invariant |
| Verify.Host | src/verify.py:12-21 | a result is non-empty and lower-case; no URL or an empty URL gives none |
| Verify.IsHttps | src/verify.py:23-27 | reference definition: the scheme, lower-cased, is `https`; false when the URL cannot be split; `Verify.SimpleUrl` gives its value on a `scheme://host/path` URL |
| Verify.SimpleUrl | src/verify.py:12-27 | for `scheme://netloc/path`, the host is the lower-cased netloc without one leading `www.`, none if that is empty; `is_https` iff the lower-cased scheme is `https` |
| Verify.NoAuthorityNoHost | src/verify.py:12-21 | text with no colon that does not start with `//` has no host |
| Verify.DropsWww | src/verify.py:16-18 | a netloc starting with `www.` in any case loses exactly those four characters |
| Verify.HostExamples | src/verify.py:12-27 | `https://WWW.Example.com/x` has host `example.com` and is https |
| Verify.NoHostExample | src/verify.py:12-21 | `not a url` has no host |
| Verify.IsShortener | src/verify.py:29-30 | exact membership in the shortener set; none is never a member |
| Verify.IsSocialOnly | src/verify.py:32-33 | exact membership in the social-only set; none is never a member |
| Verify.DomainAllowedIff | src/verify.py:35-41 | with a non-empty list: a non-empty domain is allowed iff, lower-cased, it equals an entry or ends with `.` + entry; none and empty are refused |
| Verify.DomainAllowed | src/verify.py:35-41 | reference definition: an empty list allows everything; otherwise a non-empty lower-cased domain equal to an entry or ending in `.` + entry |
| Verify.SubdomainAllowed | src/verify.py:35-41 | a subdomain of an allowed domain is allowed |
| Verify.DomainAllowedExamples | src/verify.py:35-41 | with `example.com` listed, `sub.example.com` is allowed and `notexample.com` is not |
| Verify.FindHandle | src/verify.py:50-56 | the scan returns the match at the leftmost position, or none when no position matches |
| Verify.HandleFromHtml | src/verify.py:48-57 | reference definition: the x.com capture if any, else the twitter.com capture; `Verify.XComFirst` and `Verify.ExtractXHandleFromHtml` state its properties |
| Verify.ExtractXHandleFromHtml | src/verify.py:48-57 | the pattern loop returns the first capture; any handle has 2 to 15 letters, digits or underscores |
| Verify.XComFirst | src/verify.py:49-57 | an x.com match anywhere wins over every twitter.com match |
| Verify.StatusLinkDropsLastChar | src/verify.py:50 | a link `x.com/<name>/status` yields the name without its last character |
| Verify.AnyHostMentions | src/verify.py:76-78 | the scan finds a URL whose host contains the domain iff one exists |
| Verify.UserProfileMatchesDomain | src/verify.py:59-81 | true iff the profile exists and the domain occurs in the host of its URL or an expanded entity URL, or in its lower-cased description |
| Verify.ProfileMatches | src/verify.py:59-81 | reference definition: a profile exists and the domain occurs in the host of one of its URLs or in its lower-cased description |
| Verify.CollectUrls | src/verify.py:65-72 | the list holds the profile URL, then the non-empty expanded entity URLs, in order |
| Verify.VerifyOfficial | src/verify.py:83-101 | the domain is always the host; no host gives (false, none, none); a fetch failure gives (false, d, none); on a fetched page the handle is the page's handle, so no handle gives (false, d, none); verified iff that handle's profile was found and matches the domain, so a lookup error gives (false, d, handle); verified implies domain and handle |
| Scoring.HardBlock | src/scoring.py:10-12 | reference definition: the lower-cased text contains one of the block phrases; `Scoring.BlockedInAnyCase` states it for any position and letter case |
| Scoring.BlockedInAnyCase | src/scoring.py:10-12 | a block phrase at any position, in any letter case, blocks the text |
| Scoring.ScoreOf | src/scoring.py:14-34 | the score lies between 42 and 100 |
| Scoring.Score | src/scoring.py:14-34 | the accumulating loop computes the clamped sum, between 42 and 100 |
| Scoring.HintCountBounds | src/scoring.py:21-23 | the hint bonus counts each distinct hint word present once |
| Scoring.VerifiedBonus | src/scoring.py:18-19 | verification adds 20 up to the cap, so verified is never worse |
| Scoring.ScoreExample | src/scoring.py:14-34 | a short verified text naming "official" and "docs", with no other hint and no "dm", with an https link, scores 87 |
| Compose.FirstNameWord | src/compose.py:5-7 | the first word that is upper-case with 3 to 18 characters, none if there is none |
| Compose.ProjectName | src/compose.py:3-8 | the name is non-empty and at most 18 characters |
| Compose.ProjectNamePrefersCaps | src/compose.py:5-7 | the first qualifying word among the first ten is the name |
| Compose.ProjectNameFromText | src/compose.py:3-8 | the search with early return computes `ProjectName` |
| Compose.BadgeIff | src/compose.py:12 | the badge starts with "VERIFIED" iff the project is verified |
| Compose.BuildThread | src/compose.py:10-25 | four parts of at most 275 characters; parts 2 and 3 are the template's; only part 4 can carry the call to action |
| Compose.NoCtaKeepsTemplate | src/compose.py:20-25 | without a call to action, part 4 is the filled template |
| Compose.CtaEndsThread | src/compose.py:22-25 | with a call to action that fits, part 4 is the template, a blank line and the line |
| Compose.BuildSponsoredThread | src/compose.py:27-35 | four parts of at most 275 characters; the note is cut to 180 characters; part 1 is the title, project, tag and official-URL block cut to 275, part 2 is the note line and part 3 the fixed safety text, so only part 4 can carry the call to action |
| Compose.DigestLines | src/compose.py:40-42 | one line per row, in order |
| Compose.WeeklyDigest | src/compose.py:37-46 | two parts of at most 275 characters; the body starts with the joined lines cut to 270, and is exactly that without a call to action |
| Compose.BuildWeeklyDigest | src/compose.py:37-46 | the appending loop computes `WeeklyDigest` |
| Templates.Pick | src/templates.py:30-31 | the template is one of the table; without rotation it is the first |
| Templates.TemplatesShort | src/templates.py:3-28 | every template's parts fit their caps |
| XSearch.Quote | src/x_search.py:6 | exactly the keywords holding a space are quoted |
| XSearch.BuildQuery | src/x_search.py:5-7 | the query opens with `(` and ends with the retweet, reply and language filters; its keyword part is stated by QueryHasKeyword and QueryJoinsWithOr |
| XSearch.QueryHasKeyword | src/x_search.py:5-7 | every keyword, quoted when it holds a space, occurs in the query |
| XSearch.QueryJoinsWithOr | src/x_search.py:6-7 | each quoted keyword is followed in the query by ` OR ` and the next quoted keyword, in list order, so the query asks for any of them |
| XSearch.FirstEntityLink | src/x_search.py:34-39 | the first entity whose link (expanded, else short) starts with "http", none if no entity has one |
| XSearch.FirstLinkAt | src/x_search.py:41-43 | the leftmost position where `https?://\S` matches |
| XSearch.TextLink | src/x_search.py:41-43 | a link exists iff the pattern matches somewhere; it starts at the leftmost match, starts with "http" and is the whole run of non-white-space there |
| XSearch.Trim | src/x_search.py:39-43 | strips exactly the trailing run of `).,!?` and keeps the "http" prefix |
| XSearch.BestUrl | src/x_search.py:33-44 | the first usable entity link, trimmed, wins; otherwise the text link, trimmed; the result starts with "http" and does not end in `).,!?`; none iff neither exists |
| XSearch.ExtractBestUrl | src/x_search.py:33-44 | the loop with early returns computes `BestUrl` |

## Left out

- Client construction, thread posting and media upload (`make_clients`; `src/posting.py`), because they are network calls. The publisher is an oracle that returns the root id. A publish failure, which leaves a reserved but unstamped drop, is not modelled.
- `fetch_html` and its 400000-character cap, and `client.get_user`, because they are HTTP calls. The page and the profile lookup are oracles with explicit failure results.
- `search_candidates`, a network call. The candidates are an input sequence.
- The sponsored-post branch of `run` (`src/bot.py:116-142`). Only its thread builder, `Compose.BuildSponsoredThread`, is modelled.
- `random.choice` in `pick_template`, which is a random draw. The template index is an oracle of the clock.
- The wall clock `now()`, `today_utc()` and `weekday()`, because they depend on time. The store owns a logical clock, and the digest receives the weekday and the date as parameters.
- `print` output and the contents of the metrics log beyond its append-only shape, because the pipeline never reads them.
- `src/config.py`, `src/card.py` and `run_bot.py`: these are not part of this model (environment, image rendering and entry point).
- SQLite mechanics: WAL mode, `executescript` and races between concurrent processes, because they concern concurrency. Uniqueness is the invariant `Tables.Valid`.
- Unicode case mapping and code-point counting, because strings are `seq<char>`. `lower` and `isupper` act on ASCII letters only, and an emoji counts as its code points. Likewise the case-insensitive matching of the two handle patterns is ASCII-only: Python's `re.IGNORECASE` also lets `[A-Za-z]` and the scheme and site literals match U+0130, U+0131, U+017F and U+212A, so src/verify.py:50-56 can return a handle with those characters, which `Verify.IsHandle` excludes.
- `urllib.parse` beyond the scheme split, the netloc and the bracket check, because full URL parsing is out of scope: no port or IPv6 validation. Python's regular-expression engine is likewise rendered only for the two handle patterns and `https?://\S+`.
- Bot.ShouldAddCta: requires `cta_every_n_posts != 0` whenever a link hub is set (`Bot.CfgOk`). Python raises ZeroDivisionError there, and the model does not include that crash.
- Tables.InsertDrop: requires a key new to `drops`. The IntegrityError the source does not catch is not modelled as a result.
- Tables.Disjoint: that no key is both a drop and queued is an application invariant the pipeline keeps. The schema alone does not enforce it. `approve_and_post` needs it so that its `insert_drop` cannot fail.
- Verify.DomainAllowedIff: states only the non-empty domain and the none/empty cases for a non-empty list. An empty list allows everything by definition.
