/** The five tables of src/db.py as one value, and every table operation as a
    function from the old tables to the result and the new tables.  The
    store class in module Db performs the same operations in place.

    Timestamps come from a logical clock owned by the tables: every call of
    `now()` in the source reads the clock and advances it, so creation and
    posting stamps are distinct naturals that grow in call order. */
module Tables {
  import opened Text
  import opened Sorting

  /** A row of `drops`. */
  datatype Drop = Drop(id: nat, dupeKey: string, name: string, officialUrl: string, officialDomain: Option<string>,
                       verified: bool, score: int, rootTweetId: Option<string>, postedAt: Option<nat>, createdAt: nat)

  /** A row of `review_queue`. */
  datatype QueueRow = QueueRow(id: nat, dupeKey: string, name: string, officialUrl: string,
                               officialDomain: Option<string>, verified: bool, score: int, reason: string,
                               sourceTweetId: Option<string>, sourceText: string, createdAt: nat, approved: bool)

  /** A row of `metrics`. */
  datatype Metric = Metric(ts: nat, event: string, detail: Option<string>)

  /** All tables, the next AUTOINCREMENT ids of `drops` and `review_queue`, and the clock. */
  datatype State = State(seen: set<string>, drops: seq<Drop>, queue: seq<QueueRow>, meta: map<string, string>,
                         metrics: seq<Metric>, nextDropId: nat, nextQueueId: nat, clock: nat)

  const PostCounterKey: string := "post_counter"
  const LastDigestDayKey: string := "last_digest_day"
  const SourceTextLimit: nat := 2000

  /** A freshly created database. */
  const Empty: State := State({}, [], [], map[], [], 1, 1, 0)

  // ---------------------------------------------------------------------------
  // The invariant: the UNIQUE and NOT NULL constraints of the schema, the
  // AUTOINCREMENT ids, and "root_tweet_id set exactly when posted_at is set".

  predicate DropOk(d: Drop, nextId: nat, clock: nat) {
    && d.id < nextId && d.createdAt < clock
    && (d.rootTweetId.Some? <==> d.postedAt.Some?)
    && (d.postedAt.Some? ==> d.postedAt.value < clock)
  }

  predicate DropsValid(ds: seq<Drop>, nextId: nat, clock: nat) {
    && (forall i, j :: 0 <= i < j < |ds| ==> ds[i].id < ds[j].id)
    && (forall i, j :: 0 <= i < j < |ds| ==> ds[i].dupeKey != ds[j].dupeKey)
    && (forall i :: 0 <= i < |ds| ==> DropOk(ds[i], nextId, clock))
  }

  /** Rows are kept in insertion order: ids and creation stamps grow along the queue. */
  predicate Before(a: QueueRow, b: QueueRow) { a.id < b.id && a.createdAt < b.createdAt }

  predicate QueueOrdered(q: seq<QueueRow>) {
    forall i, j :: 0 <= i < j < |q| ==> Before(q[i], q[j])
  }

  predicate QueueKeysDistinct(q: seq<QueueRow>) {
    forall i, j :: 0 <= i < j < |q| ==> q[i].dupeKey != q[j].dupeKey
  }

  predicate QueueValid(q: seq<QueueRow>, nextId: nat, clock: nat) {
    && QueueOrdered(q) && QueueKeysDistinct(q)
    && (forall i :: 0 <= i < |q| ==> q[i].id < nextId && q[i].createdAt < clock)
  }

  /** The metrics log is append-only: stamps grow along it. */
  predicate MetricsValid(ms: seq<Metric>, clock: nat) {
    && (forall i, j :: 0 <= i < j < |ms| ==> ms[i].ts < ms[j].ts)
    && (forall i :: 0 <= i < |ms| ==> ms[i].ts < clock)
  }

  predicate Valid(st: State) {
    && DropsValid(st.drops, st.nextDropId, st.clock)
    && QueueValid(st.queue, st.nextQueueId, st.clock)
    && MetricsValid(st.metrics, st.clock)
    && (PostCounterKey in st.meta ==> IsDigits(st.meta[PostCounterKey]))
  }

  function DropKeys(st: State): set<string> { set i | 0 <= i < |st.drops| :: st.drops[i].dupeKey }

  function QueueKeys(st: State): set<string> { set i | 0 <= i < |st.queue| :: st.queue[i].dupeKey }

  /** No dupe key is both a drop and a queued item.  The schema does not say
      so; the decision pipeline keeps it (it checks has_dupe before writing). */
  predicate Disjoint(st: State) { DropKeys(st) !! QueueKeys(st) }

  lemma EmptyValid()
    ensures Valid(Empty) && Disjoint(Empty)
  {
  }

  // ---------------------------------------------------------------------------
  // Operations.

  /** log_metric: append one stamped row. */
  function LogMetric(st: State, event: string, detail: Option<string>): (r: State)
    ensures r == st.(metrics := st.metrics + [Metric(st.clock, event, detail)], clock := st.clock + 1)
    ensures Valid(st) ==> Valid(r)
  {
    st.(metrics := st.metrics + [Metric(st.clock, event, detail)], clock := st.clock + 1)
  }

  /** mark_seen: true exactly when the id was not yet seen; it is seen afterwards. */
  function MarkSeen(st: State, tweetId: string): (r: (bool, State))
    ensures r.0 <==> tweetId !in st.seen
    ensures r.1 == st.(seen := st.seen + {tweetId}, clock := st.clock + 1)
    ensures Valid(st) ==> Valid(r.1)
  {
    (tweetId !in st.seen, st.(seen := st.seen + {tweetId}, clock := st.clock + 1))
  }

  /** has_dupe: the key is a drop's key or a queued item's key. */
  function HasDupe(st: State, key: string): (r: bool)
    ensures r <==> (exists i :: 0 <= i < |st.drops| && st.drops[i].dupeKey == key)
                   || (exists j :: 0 <= j < |st.queue| && st.queue[j].dupeKey == key)
  {
    key in DropKeys(st) || key in QueueKeys(st)
  }

  /** insert_drop: append a row with the next id and neither root nor posting
      stamp.  The source lets the UNIQUE violation of a repeated key escape,
      so callers must pass a new key. */
  function InsertDrop(st: State, key: string, name: string, url: string, domain: Option<string>,
                      verified: bool, score: int): (r: (nat, State))
    requires key !in DropKeys(st)
    ensures r.0 == st.nextDropId
    ensures r.1 == st.(drops := st.drops + [Drop(st.nextDropId, key, name, url, domain, verified, score, None, None, st.clock)],
                       nextDropId := st.nextDropId + 1, clock := st.clock + 1)
    ensures DropKeys(r.1) == DropKeys(st) + {key}
    ensures Valid(st) ==> Valid(r.1)
  {
    var d := Drop(st.nextDropId, key, name, url, domain, verified, score, None, None, st.clock);
    var r := st.(drops := st.drops + [d], nextDropId := st.nextDropId + 1, clock := st.clock + 1);
    assert forall i :: 0 <= i < |st.drops| ==> r.drops[i] == st.drops[i];
    assert DropKeys(r) == DropKeys(st) + {key} by {
      assert r.drops[|st.drops|] == d;
    }
    (st.nextDropId, r)
  }

  function StampRow(d: Drop, id: nat, root: string, t: nat): (e: Drop)
    ensures e.id == d.id && e.dupeKey == d.dupeKey
  {
    if d.id == id then d.(rootTweetId := Some(root), postedAt := Some(t)) else d
  }

  function StampRows(ds: seq<Drop>, id: nat, root: string, t: nat): (es: seq<Drop>)
    ensures |es| == |ds| && forall i :: 0 <= i < |ds| ==> es[i] == StampRow(ds[i], id, root, t)
  {
    seq(|ds|, i requires 0 <= i < |ds| => StampRow(ds[i], id, root, t))
  }

  /** mark_posted: set the root id and the posting stamp, together, on the row
      with that id and no other. */
  function MarkPosted(st: State, id: nat, root: string): (r: State)
    ensures r == st.(drops := StampRows(st.drops, id, root, st.clock), clock := st.clock + 1)
    ensures DropKeys(r) == DropKeys(st)
    ensures Valid(st) ==> Valid(r)
  {
    var r := st.(drops := StampRows(st.drops, id, root, st.clock), clock := st.clock + 1);
    assert DropKeys(r) == DropKeys(st) by {
      forall k | k in DropKeys(st) ensures k in DropKeys(r) {
        var i :| 0 <= i < |st.drops| && st.drops[i].dupeKey == k;
        assert r.drops[i].dupeKey == k;
      }
    }
    r
  }

  /** get_post_counter: the stored number, 0 when absent. */
  function GetPostCounter(st: State): nat {
    if PostCounterKey in st.meta then ParseNat(st.meta[PostCounterKey]) else 0
  }

  /** inc_post_counter: store and return the old value plus one. */
  function IncPostCounter(st: State): (r: (nat, State))
    ensures r.0 == GetPostCounter(st) + 1
    ensures r.1 == st.(meta := st.meta[PostCounterKey := NatToString(r.0)])
    ensures GetPostCounter(r.1) == r.0
    ensures Valid(st) ==> Valid(r.1)
  {
    var n := GetPostCounter(st) + 1;
    ParseNatToString(n);
    (n, st.(meta := st.meta[PostCounterKey := NatToString(n)]))
  }

  /** get_last_digest_day. */
  function GetLastDigestDay(st: State): Option<string> {
    if LastDigestDayKey in st.meta then Some(st.meta[LastDigestDayKey]) else None
  }

  /** set_last_digest_day: an upsert of one meta key. */
  function SetLastDigestDay(st: State, day: string): (r: State)
    ensures r == st.(meta := st.meta[LastDigestDayKey := day])
    ensures GetLastDigestDay(r) == Some(day)
    ensures GetPostCounter(r) == GetPostCounter(st)
    ensures Valid(st) ==> Valid(r)
  {
    st.(meta := st.meta[LastDigestDayKey := day])
  }

  // ---------------------------------------------------------------------------
  // Ordered selections.

  /** The rows with a posting stamp, in table order. */
  function Posted(ds: seq<Drop>): (r: seq<Drop>)
    ensures forall d :: d in r <==> d in ds && d.postedAt.Some?
    ensures |r| <= |ds|
  {
    if ds == [] then []
    else (if ds[0].postedAt.Some? then [ds[0]] else []) + Posted(ds[1..])
  }

  function PostedKey(d: Drop): nat { if d.postedAt.Some? then d.postedAt.value else 0 }

  /** ORDER BY posted_at DESC. */
  function PostedLater(a: Drop, b: Drop): bool { PostedKey(a) >= PostedKey(b) }

  lemma PostedLaterTotal()
    ensures TotalPreorder(PostedLater)
  {
  }

  /** top_recent_drops: `limit` posted rows (all of them when there are fewer,
      or when the limit is negative), latest first. */
  function TopRecentDrops(st: State, limit: int): (r: seq<Drop>)
    ensures |r| == if limit < 0 || limit >= |Posted(st.drops)| then |Posted(st.drops)| else limit
    ensures multiset(r) <= multiset(Posted(st.drops))
    ensures forall d :: d in r ==> d in st.drops && d.postedAt.Some?
    ensures Sorted(r, PostedLater)
  {
    var ps := Posted(st.drops);
    var all := SortBy(ps, PostedLater);
    PostedLaterTotal();
    SortBySorted(ps, PostedLater);
    var r := Take(all, limit);
    assert multiset(r) <= multiset(ps);
    assert forall d :: d in r ==> d in multiset(ps);
    r
  }

  /** enqueue_review: append a not-yet-approved row with the source text cut to
      2000 characters; a repeated key is a silent no-op (the UNIQUE violation
      is caught).  The stamp is taken in both cases. */
  function EnqueueReview(st: State, key: string, name: string, url: string, domain: Option<string>,
                         verified: bool, score: int, reason: string, sourceTweetId: Option<string>,
                         sourceText: Option<string>): (r: State)
    ensures key in QueueKeys(st) ==> r == st.(clock := st.clock + 1)
    ensures key !in QueueKeys(st) ==>
      r == st.(queue := st.queue + [QueueRow(st.nextQueueId, key, name, url, domain, verified, score, reason,
                                              sourceTweetId, Truncate(OrEmpty(sourceText), SourceTextLimit),
                                              st.clock, false)],
               nextQueueId := st.nextQueueId + 1, clock := st.clock + 1)
    ensures QueueKeys(r) == QueueKeys(st) + {key}
    ensures Valid(st) ==> Valid(r)
  {
    if key in QueueKeys(st) then st.(clock := st.clock + 1)
    else
      var row := QueueRow(st.nextQueueId, key, name, url, domain, verified, score, reason,
                          sourceTweetId, Truncate(OrEmpty(sourceText), SourceTextLimit), st.clock, false);
      var r := st.(queue := st.queue + [row], nextQueueId := st.nextQueueId + 1, clock := st.clock + 1);
      assert forall i :: 0 <= i < |st.queue| ==> r.queue[i] == st.queue[i];
      assert QueueKeys(r) == QueueKeys(st) + {key} by {
        assert r.queue[|st.queue|] == row;
      }
      r
  }

  /** ORDER BY score DESC, created_at ASC. */
  function RankLe(a: QueueRow, b: QueueRow): bool {
    a.score > b.score || (a.score == b.score && a.createdAt <= b.createdAt)
  }

  lemma RankLeTotal()
    ensures TotalPreorder(RankLe)
  {
  }

  function Unapproved(q: seq<QueueRow>): (r: seq<QueueRow>)
    ensures forall x :: x in r <==> x in q && !x.approved
    ensures |r| <= |q|
  {
    if q == [] then []
    else (if !q[0].approved then [q[0]] else []) + Unapproved(q[1..])
  }

  function Approved(q: seq<QueueRow>): (r: seq<QueueRow>)
    ensures forall x :: x in r <==> x in q && x.approved
    ensures |r| <= |q|
  {
    if q == [] then []
    else (if q[0].approved then [q[0]] else []) + Approved(q[1..])
  }

  /** The sub-select of approve_top: the first `limit` unapproved rows by rank. */
  function ApprovalPicks(q: seq<QueueRow>, limit: int): (r: seq<QueueRow>)
    ensures Sorted(r, RankLe)
    ensures forall x :: x in r ==> x in q && !x.approved
    ensures multiset(r) <= multiset(Unapproved(q))
    ensures |r| == if limit < 0 || limit >= |Unapproved(q)| then |Unapproved(q)| else limit
  {
    var all := SortBy(Unapproved(q), RankLe);
    RankLeTotal();
    SortBySorted(Unapproved(q), RankLe);
    var r := Take(all, limit);
    assert forall x :: x in r ==> x in multiset(all);
    r
  }

  function IdsOf(rows: seq<QueueRow>): set<nat> { set i | 0 <= i < |rows| :: rows[i].id }

  function ApproveRow(x: QueueRow, ids: set<nat>): (y: QueueRow)
    ensures y == if x.id in ids then x.(approved := true) else x
    ensures y.id == x.id && y.dupeKey == x.dupeKey && y.createdAt == x.createdAt
  {
    if x.id in ids then x.(approved := true) else x
  }

  function ApproveRows(q: seq<QueueRow>, ids: set<nat>): (r: seq<QueueRow>)
    ensures |r| == |q| && forall i :: 0 <= i < |q| ==> r[i] == ApproveRow(q[i], ids)
  {
    seq(|q|, i requires 0 <= i < |q| => ApproveRow(q[i], ids))
  }

  /** approve_top: set `approved` on the picked rows, in place. */
  function ApproveTop(st: State, limit: int): (r: State)
    ensures r == st.(queue := ApproveRows(st.queue, IdsOf(ApprovalPicks(st.queue, limit))))
    ensures QueueKeys(r) == QueueKeys(st)
    ensures Valid(st) ==> Valid(r)
  {
    var ids := IdsOf(ApprovalPicks(st.queue, limit));
    ApproveRowsShape(st, ids);
    st.(queue := ApproveRows(st.queue, ids))
  }

  /** Setting `approved` on some rows keeps the queue keys and the invariant. */
  lemma ApproveRowsShape(st: State, ids: set<nat>)
    ensures QueueKeys(st.(queue := ApproveRows(st.queue, ids))) == QueueKeys(st)
    ensures Valid(st) ==> Valid(st.(queue := ApproveRows(st.queue, ids)))
  {
    var r := st.(queue := ApproveRows(st.queue, ids));
    SameShapeValid(st.queue, r.queue, st.nextQueueId, st.clock);
    forall k | k in QueueKeys(st) ensures k in QueueKeys(r) {
      var i :| 0 <= i < |st.queue| && st.queue[i].dupeKey == k;
      assert r.queue[i].dupeKey == k;
    }
  }

  /** Rewriting rows without touching their ids, keys and stamps keeps the queue valid. */
  lemma SameShapeValid(q: seq<QueueRow>, r: seq<QueueRow>, nextId: nat, clock: nat)
    requires |q| == |r|
    requires forall i :: 0 <= i < |q| ==> r[i].id == q[i].id && r[i].dupeKey == q[i].dupeKey && r[i].createdAt == q[i].createdAt
    ensures QueueValid(q, nextId, clock) ==> QueueValid(r, nextId, clock)
  {
  }

  /** pop_approved: at most `limit` approved rows by rank; nothing changes. */
  function PopApproved(st: State, limit: int): (r: seq<QueueRow>)
    ensures Sorted(r, RankLe)
    ensures forall x :: x in r ==> x in st.queue && x.approved
    ensures |r| == if limit < 0 || limit >= |Approved(st.queue)| then |Approved(st.queue)| else limit
  {
    var all := SortBy(Approved(st.queue), RankLe);
    RankLeTotal();
    SortBySorted(Approved(st.queue), RankLe);
    var r := Take(all, limit);
    assert forall x :: x in r ==> x in multiset(all);
    r
  }

  /** The queue without the rows of one id. */
  function WithoutId(q: seq<QueueRow>, id: nat): (r: seq<QueueRow>)
    ensures forall x :: x in r <==> x in q && x.id != id
    ensures |r| <= |q|
  {
    if q == [] then []
    else if q[0].id == id then WithoutId(q[1..], id)
    else [q[0]] + WithoutId(q[1..], id)
  }

  /** A row left after the deletion comes from a later position of the queue. */
  lemma InTail(q: seq<QueueRow>, x: QueueRow)
    requires q != [] && x in q[1..]
    ensures exists j :: 1 <= j < |q| && q[j] == x
  {
    var k :| 0 <= k < |q[1..]| && q[1..][k] == x;
    assert q[k + 1] == x;
  }

  /** Deleting rows keeps the insertion order. */
  lemma {:induction false} WithoutIdOrdered(q: seq<QueueRow>, id: nat)
    requires QueueOrdered(q)
    ensures QueueOrdered(WithoutId(q, id))
  {
    if q != [] {
      WithoutIdOrdered(q[1..], id);
      var rest := WithoutId(q[1..], id);
      if q[0].id != id {
        forall y | y in rest ensures Before(q[0], y) {
          InTail(q, y);
          var k :| 1 <= k < |q| && q[k] == y;
        }
        ConsOrdered(q[0], rest);
        assert WithoutId(q, id) == [q[0]] + rest;
      }
    }
  }

  /** A row before every row of an ordered queue can head it. */
  lemma ConsOrdered(x: QueueRow, rest: seq<QueueRow>)
    requires QueueOrdered(rest) && forall y :: y in rest ==> Before(x, y)
    ensures QueueOrdered([x] + rest)
  {
    var r := [x] + rest;
    forall i, j | 0 <= i < j < |r| ensures Before(r[i], r[j]) {
      if i == 0 {
        assert r[j] in rest;
      } else {
        assert r[i] == rest[i - 1] && r[j] == rest[j - 1];
      }
    }
  }

  /** Deleting rows keeps the keys distinct. */
  lemma {:induction false} WithoutIdDistinct(q: seq<QueueRow>, id: nat)
    requires QueueKeysDistinct(q)
    ensures QueueKeysDistinct(WithoutId(q, id))
  {
    if q != [] {
      WithoutIdDistinct(q[1..], id);
      var rest := WithoutId(q[1..], id);
      if q[0].id != id {
        var r := [q[0]] + rest;
        forall i, j | 0 <= i < j < |r| ensures r[i].dupeKey != r[j].dupeKey {
          if i == 0 {
            assert r[j] in rest;
            InTail(q, r[j]);
          } else {
            assert r[i] == rest[i - 1] && r[j] == rest[j - 1];
          }
        }
      }
    }
  }

  /** remove_from_queue: delete the row with that id. */
  function RemoveFromQueue(st: State, id: nat): (r: State)
    ensures r == st.(queue := WithoutId(st.queue, id))
    ensures QueueKeys(r) <= QueueKeys(st)
    ensures Valid(st) ==> Valid(r)
  {
    var r := st.(queue := WithoutId(st.queue, id));
    assert QueueKeys(r) <= QueueKeys(st) by {
      forall k | k in QueueKeys(r) ensures k in QueueKeys(st) {
        var i :| 0 <= i < |r.queue| && r.queue[i].dupeKey == k;
        assert r.queue[i] in st.queue;
      }
    }
    assert Valid(st) ==> Valid(r) by {
      if Valid(st) {
        WithoutIdOrdered(st.queue, id);
        WithoutIdDistinct(st.queue, id);
        forall i | 0 <= i < |r.queue| ensures r.queue[i].id < r.nextQueueId && r.queue[i].createdAt < r.clock {
          assert r.queue[i] in st.queue;
        }
      }
    }
    r
  }

  // ---------------------------------------------------------------------------
  // Properties relating several operations.

  /** mark_seen succeeds once per id: a second call with the same id fails,
      and the seen set only grows. */
  lemma MarkSeenOnce(st: State, tweetId: string)
    ensures MarkSeen(MarkSeen(st, tweetId).1, tweetId).0 == false
    ensures st.seen <= MarkSeen(st, tweetId).1.seen
  {
  }

  /** Reading the counter back after an increment gives the returned value;
      a fresh database reads 0 and its first increment returns 1. */
  lemma {:induction false} CounterAfterInc(st: State)
    ensures GetPostCounter(IncPostCounter(st).1) == GetPostCounter(st) + 1
    ensures GetPostCounter(Empty) == 0 && IncPostCounter(Empty).0 == 1
  {
    var r := IncPostCounter(st);
    assert GetPostCounter(r.1) == r.0;
  }

  /** The digest day reads back as written, is absent in a fresh database, and
      writing it leaves every other meta key as it was. */
  lemma DigestDayRoundTrip(st: State, day: string, k: string)
    requires k != LastDigestDayKey
    ensures GetLastDigestDay(SetLastDigestDay(st, day)) == Some(day)
    ensures GetLastDigestDay(Empty) == None
    ensures k in st.meta <==> k in SetLastDigestDay(st, day).meta
    ensures k in st.meta ==> SetLastDigestDay(st, day).meta[k] == st.meta[k]
  {
  }

  /** The counter upsert touches no other meta key. */
  lemma IncKeepsOtherMeta(st: State, k: string)
    requires k != PostCounterKey
    ensures k in st.meta <==> k in IncPostCounter(st).1.meta
    ensures k in st.meta ==> IncPostCounter(st).1.meta[k] == st.meta[k]
  {
  }

  /** Under the invariant a row's id identifies it. */
  lemma QueueIdsUnique(q: seq<QueueRow>, i: nat, j: nat)
    requires QueueOrdered(q) && i < |q| && j < |q| && q[i].id == q[j].id
    ensures i == j
  {
  }

  /** Under the invariant, a row of the queue is picked exactly when its id
      is among the picked ids. */
  lemma IdsPicked(q: seq<QueueRow>, picks: seq<QueueRow>)
    requires QueueOrdered(q) && forall x :: x in picks ==> x in q
    ensures forall i :: 0 <= i < |q| ==> (q[i].id in IdsOf(picks) <==> q[i] in picks)
  {
    forall i | 0 <= i < |q| ensures q[i].id in IdsOf(picks) <==> q[i] in picks {
      if q[i].id in IdsOf(picks) {
        var a :| 0 <= a < |picks| && picks[a].id == q[i].id;
        assert picks[a] in q;
        var j :| 0 <= j < |q| && q[j] == picks[a];
        QueueIdsUnique(q, i, j);
      }
      if q[i] in picks {
        var a :| 0 <= a < |picks| && picks[a] == q[i];
        assert picks[a].id in IdsOf(picks);
      }
    }
  }

  /** approve_top marks exactly the picked rows: a row is approved afterwards
      iff it was before or it is among the picks, and no other field changes. */
  lemma {:induction false} ApproveTopExact(st: State, limit: int)
    requires Valid(st)
    ensures |ApproveTop(st, limit).queue| == |st.queue|
    ensures forall i :: 0 <= i < |st.queue| ==>
      ApproveTop(st, limit).queue[i]
        == st.queue[i].(approved := st.queue[i].approved || st.queue[i] in ApprovalPicks(st.queue, limit))
  {
    var q := st.queue;
    var picks := ApprovalPicks(q, limit);
    IdsPicked(q, picks);
    forall i | 0 <= i < |q|
      ensures ApproveTop(st, limit).queue[i] == q[i].(approved := q[i].approved || q[i] in picks)
    {
      if q[i] in picks {
        assert !q[i].approved;
      }
    }
  }

  /** The rows of a queue not yet approved whose id is in `ids`. */
  function NewlyApproved(q: seq<QueueRow>, ids: set<nat>): (r: seq<QueueRow>)
    ensures forall x :: x in r <==> x in q && !x.approved && x.id in ids
    ensures multiset(r) <= multiset(q)
  {
    if q == [] then []
    else
      assert q == [q[0]] + q[1..];
      (if !q[0].approved && q[0].id in ids then [q[0]] else []) + NewlyApproved(q[1..], ids)
  }

  /** Approving by ids adds to the approved rows exactly the unapproved rows
      with those ids. */
  lemma {:induction false} ApprovedCount(q: seq<QueueRow>, ids: set<nat>)
    ensures |Approved(ApproveRows(q, ids))| == |Approved(q)| + |NewlyApproved(q, ids)|
    decreases |q|
  {
    if q != [] {
      var r := ApproveRows(q, ids);
      assert r[1..] == ApproveRows(q[1..], ids);
      ApprovedCount(q[1..], ids);
    }
  }

  /** Two sequences with the same elements, none of them repeated, have the
      same length. */
  lemma SingletonsSameSize<T>(a: seq<T>, b: seq<T>)
    requires forall x :: multiset(a)[x] <= 1
    requires forall x :: multiset(b)[x] <= 1
    requires forall x :: x in a <==> x in b
    ensures |a| == |b|
  {
    assert multiset(a) == multiset(b) by {
      forall x ensures multiset(a)[x] == multiset(b)[x] {
        if x in a {
          assert x in multiset(a) && x in multiset(b);
        } else {
          assert x !in multiset(a) && x !in multiset(b);
        }
      }
    }
    assert |multiset(a)| == |multiset(b)|;
  }

  /** approve_top sets `approved` on exactly min(limit, number of unapproved
      rows) rows, all limits below zero meaning no limit. */
  lemma {:induction false} ApproveTopCount(st: State, limit: int)
    requires Valid(st)
    ensures |Approved(ApproveTop(st, limit).queue)|
            == |Approved(st.queue)| + if limit < 0 || limit >= |Unapproved(st.queue)| then |Unapproved(st.queue)| else limit
  {
    var q := st.queue;
    var picks := ApprovalPicks(q, limit);
    var ids := IdsOf(picks);
    ApprovedCount(q, ids);
    IdsPicked(q, picks);
    var added := NewlyApproved(q, ids);
    forall x ensures multiset(added)[x] <= 1 && multiset(picks)[x] <= 1 {
      QueueSingletons(q, x);
      UnapprovedSub(q);
    }
    forall x ensures x in added <==> x in picks {
      if x in picks {
        var i :| 0 <= i < |q| && q[i] == x;
      }
      if x in added {
        var i :| 0 <= i < |q| && q[i] == x;
      }
    }
    SingletonsSameSize(added, picks);
  }

  /** Under the invariant a queue holds no row twice. */
  lemma {:induction false} QueueSingletons(q: seq<QueueRow>, x: QueueRow)
    requires QueueOrdered(q)
    ensures multiset(q)[x] <= 1
  {
    if q != [] {
      assert q == [q[0]] + q[1..];
      assert QueueOrdered(q[1..]) by {
        forall i, j | 0 <= i < j < |q[1..]| ensures Before(q[1..][i], q[1..][j]) {
          assert q[1..][i] == q[i + 1] && q[1..][j] == q[j + 1];
        }
      }
      QueueSingletons(q[1..], x);
      if x == q[0] {
        assert x !in q[1..] by {
          forall i | 0 <= i < |q[1..]| ensures q[1..][i] != x {
            assert Before(q[0], q[i + 1]);
          }
        }
      }
    }
  }

  lemma {:induction false} ApprovedSub(q: seq<QueueRow>)
    ensures multiset(Approved(q)) <= multiset(q)
  {
    if q != [] {
      ApprovedSub(q[1..]);
      assert q == [q[0]] + q[1..];
    }
  }


  lemma {:induction false} UnapprovedSub(q: seq<QueueRow>)
    ensures multiset(Unapproved(q)) <= multiset(q)
  {
    if q != [] {
      var h := if !q[0].approved then [q[0]] else [];
      var t := Unapproved(q[1..]);
      assert Unapproved(q) == h + t;
      UnapprovedSub(q[1..]);
      assert multiset(h) <= multiset([q[0]]);
      assert multiset(q) == multiset([q[0]]) + multiset(q[1..]) by {
        assert q == [q[0]] + q[1..];
      }
    }
  }

  /** approve_top never picks a row twice. */
  lemma ApprovalPicksSingletons(q: seq<QueueRow>, limit: int)
    requires QueueOrdered(q)
    ensures forall x :: multiset(ApprovalPicks(q, limit))[x] <= 1
  {
    forall x ensures multiset(ApprovalPicks(q, limit))[x] <= 1 {
      QueueSingletons(q, x);
      UnapprovedSub(q);
    }
  }

  /** The picks are the best unapproved rows: every unapproved row left
      unpicked ranks no earlier than each picked one. */
  lemma {:induction false} ApprovalPicksBest(q: seq<QueueRow>, limit: int)
    ensures forall x, y :: x in ApprovalPicks(q, limit) && y in q && !y.approved && y !in ApprovalPicks(q, limit)
                           ==> RankLe(x, y)
  {
    var all := SortBy(Unapproved(q), RankLe);
    RankLeTotal();
    SortBySorted(Unapproved(q), RankLe);
    TakeIsBest(all, limit, RankLe);
    forall y | y in q && !y.approved ensures y in all {
      assert y in multiset(Unapproved(q));
    }
  }

  /** With a limit that does not cut, pop_approved returns every approved row
      exactly once; rows it leaves out rank no earlier than those it returns. */
  lemma {:induction false} PopApprovedComplete(st: State, limit: int)
    ensures limit < 0 || limit >= |Approved(st.queue)| ==> multiset(PopApproved(st, limit)) == multiset(Approved(st.queue))
    ensures forall x, y :: x in PopApproved(st, limit) && y in st.queue && y.approved && y !in PopApproved(st, limit)
                           ==> RankLe(x, y)
  {
    var all := SortBy(Approved(st.queue), RankLe);
    RankLeTotal();
    SortBySorted(Approved(st.queue), RankLe);
    TakeIsBest(all, limit, RankLe);
    forall y | y in st.queue && y.approved ensures y in all {
      assert y in multiset(Approved(st.queue));
    }
  }

  /** With a limit that does not cut, top_recent_drops returns every posted
      row; posted rows it leaves out were posted no later than those it returns. */
  lemma {:induction false} TopRecentComplete(st: State, limit: int)
    ensures limit < 0 || limit >= |Posted(st.drops)| ==>
              multiset(TopRecentDrops(st, limit)) == multiset(Posted(st.drops))
    ensures forall x, y ::
              (x in TopRecentDrops(st, limit) && y in st.drops && y.postedAt.Some? && y !in TopRecentDrops(st, limit))
              ==> PostedLater(x, y)
  {
    var all := SortBy(Posted(st.drops), PostedLater);
    PostedLaterTotal();
    SortBySorted(Posted(st.drops), PostedLater);
    TakeIsBest(all, limit, PostedLater);
    forall y | y in st.drops && y.postedAt.Some? ensures y in all {
      assert y in multiset(Posted(st.drops));
    }
  }

  /** remove_from_queue deletes exactly the row with that id, when there is one. */
  lemma RemoveExactlyOne(q: seq<QueueRow>, k: nat)
    requires QueueOrdered(q) && k < |q|
    ensures WithoutId(q, q[k].id) == q[..k] + q[k + 1..]
  {
    forall j | 0 <= j < |q| && j != k ensures q[j].id != q[k].id {
      if j < k { assert Before(q[j], q[k]); } else { assert Before(q[k], q[j]); }
    }
    RemoveOnly(q, k, q[k].id);
  }

  lemma {:induction false} RemoveOnly(q: seq<QueueRow>, k: nat, id: nat)
    requires k < |q| && q[k].id == id
    requires forall j :: 0 <= j < |q| && j != k ==> q[j].id != id
    ensures WithoutId(q, id) == q[..k] + q[k + 1..]
  {
    var t := q[1..];
    if k == 0 {
      assert forall j :: 0 <= j < |t| ==> t[j].id != id by {
        assert forall j :: 0 <= j < |t| ==> t[j] == q[j + 1];
      }
      NoIdLeft(t, id);
      assert q[..0] + q[1..] == t;
    } else {
      assert forall j :: 0 <= j < |t| && j != k - 1 ==> t[j].id != id by {
        assert forall j :: 0 <= j < |t| ==> t[j] == q[j + 1];
      }
      assert t[k - 1] == q[k];
      RemoveOnly(t, k - 1, id);
      assert WithoutId(q, id) == [q[0]] + WithoutId(t, id);
      SpliceCons(q, k);
    }
  }

  lemma SpliceCons<T>(q: seq<T>, k: nat)
    requires 0 < k < |q|
    ensures [q[0]] + (q[1..][..k - 1] + q[1..][k..]) == q[..k] + q[k + 1..]
  {
    assert q[..k] == [q[0]] + q[1..][..k - 1];
    assert q[k + 1..] == q[1..][k..];
  }

  lemma {:induction false} NoIdLeft(q: seq<QueueRow>, id: nat)
    requires forall i :: 0 <= i < |q| ==> q[i].id != id
    ensures WithoutId(q, id) == q
  {
    if q != [] {
      NoIdLeft(q[1..], id);
    }
  }
}
