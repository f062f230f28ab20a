/** The SQLite store of src/db.py as an object whose fields are its tables.
    Every method performs one statement of the source in place, and its
    postcondition ties the new tables to the matching function of module
    Tables, whose lemmas carry the properties.  The schema's constraints are
    the object invariant Valid(). */
module Db {
  import opened Text
  import Tables

  class Store {
    var seen: set<string>
    var drops: seq<Tables.Drop>
    var queue: seq<Tables.QueueRow>
    var meta: map<string, string>
    var metrics: seq<Tables.Metric>
    var nextDropId: nat
    var nextQueueId: nat
    var clock: nat

    /** The tables as a value. */
    function State(): Tables.State
      reads this
    {
      Tables.State(seen, drops, queue, meta, metrics, nextDropId, nextQueueId, clock)
    }

    ghost predicate Valid()
      reads this
    {
      Tables.Valid(State())
    }

    /** connect() on a new file: the schema with empty tables. */
    constructor ()
      ensures State() == Tables.Empty
      ensures Valid() && Tables.Disjoint(State())
    {
      seen := {};
      drops := [];
      queue := [];
      meta := map[];
      metrics := [];
      nextDropId := 1;
      nextQueueId := 1;
      clock := 0;
      new;
      Tables.EmptyValid();
    }

    /** now(): read the clock and advance it. */
    method Now() returns (t: nat)
      modifies this
      ensures t == old(clock) && clock == old(clock) + 1
      ensures State() == old(State()).(clock := old(clock) + 1)
    {
      t := clock;
      clock := clock + 1;
    }

    /** log_metric. */
    method LogMetric(event: string, detail: Option<string>)
      modifies this
      requires Valid()
      ensures State() == Tables.LogMetric(old(State()), event, detail)
      ensures Valid()
    {
      var t := Now();
      metrics := metrics + [Tables.Metric(t, event, detail)];
    }

    /** mark_seen: the INSERT fails on a repeated id. */
    method MarkSeen(tweetId: string) returns (inserted: bool)
      modifies this
      requires Valid()
      ensures (inserted, State()) == Tables.MarkSeen(old(State()), tweetId)
      ensures Valid()
    {
      var _ := Now();
      inserted := tweetId !in seen;
      seen := seen + {tweetId};
    }

    /** has_dupe: look the key up in drops, then in the review queue. */
    method HasDupe(key: string) returns (found: bool)
      ensures found == Tables.HasDupe(State(), key)
    {
      found := key in Tables.DropKeys(State());
      if !found {
        found := key in Tables.QueueKeys(State());
      }
    }

    /** insert_drop: the key must be new to drops. */
    method InsertDrop(key: string, name: string, url: string, domain: Option<string>, verified: bool, score: int)
      returns (id: nat)
      modifies this
      requires Valid() && key !in Tables.DropKeys(State())
      ensures (id, State()) == Tables.InsertDrop(old(State()), key, name, url, domain, verified, score)
      ensures Valid()
    {
      var t := Now();
      id := nextDropId;
      drops := drops + [Tables.Drop(id, key, name, url, domain, verified, score, None, None, t)];
      nextDropId := nextDropId + 1;
    }

    /** mark_posted: stamp the row with that id. */
    method MarkPosted(id: nat, root: string)
      modifies this
      requires Valid()
      ensures State() == Tables.MarkPosted(old(State()), id, root)
      ensures Valid()
    {
      var t := Now();
      var i := 0;
      var ds := drops;
      while i < |ds|
        invariant 0 <= i <= |ds| && |ds| == |old(drops)|
        invariant ds[..i] == Tables.StampRows(old(drops)[..i], id, root, t)
        invariant ds[i..] == old(drops)[i..]
      {
        ds := ds[i := Tables.StampRow(ds[i], id, root, t)];
        i := i + 1;
      }
      drops := ds;
    }

    /** get_post_counter. */
    method GetPostCounter() returns (n: nat)
      ensures n == Tables.GetPostCounter(State())
    {
      n := if Tables.PostCounterKey in meta then ParseNat(meta[Tables.PostCounterKey]) else 0;
    }

    /** inc_post_counter: read, add one, upsert. */
    method IncPostCounter() returns (n: nat)
      modifies this
      requires Valid()
      ensures (n, State()) == Tables.IncPostCounter(old(State()))
      ensures Valid()
    {
      n := GetPostCounter();
      n := n + 1;
      meta := meta[Tables.PostCounterKey := NatToString(n)];
    }

    /** get_last_digest_day. */
    method GetLastDigestDay() returns (day: Option<string>)
      ensures day == Tables.GetLastDigestDay(State())
    {
      day := if Tables.LastDigestDayKey in meta then Some(meta[Tables.LastDigestDayKey]) else None;
    }

    /** set_last_digest_day. */
    method SetLastDigestDay(day: string)
      modifies this
      requires Valid()
      ensures State() == Tables.SetLastDigestDay(old(State()), day)
      ensures Valid()
    {
      meta := meta[Tables.LastDigestDayKey := day];
    }

    /** top_recent_drops. */
    method TopRecentDrops(limit: int) returns (rows: seq<Tables.Drop>)
      ensures rows == Tables.TopRecentDrops(State(), limit)
    {
      rows := Tables.TopRecentDrops(State(), limit);
    }

    /** enqueue_review: a repeated key is ignored, but the stamp is taken. */
    method EnqueueReview(key: string, name: string, url: string, domain: Option<string>, verified: bool, score: int,
                         reason: string, sourceTweetId: Option<string>, sourceText: Option<string>)
      modifies this
      requires Valid()
      ensures State() == Tables.EnqueueReview(old(State()), key, name, url, domain, verified, score, reason,
                                              sourceTweetId, sourceText)
      ensures Valid()
    {
      var t := Now();
      if key !in Tables.QueueKeys(State()) {
        var row := Tables.QueueRow(nextQueueId, key, name, url, domain, verified, score, reason, sourceTweetId,
                                   Truncate(OrEmpty(sourceText), Tables.SourceTextLimit), t, false);
        queue := queue + [row];
        nextQueueId := nextQueueId + 1;
      }
    }

    /** approve_top: select the ids, then set `approved` on those rows in place. */
    method ApproveTop(limit: int)
      modifies this
      requires Valid()
      ensures State() == Tables.ApproveTop(old(State()), limit)
      ensures Valid()
    {
      var ids := Tables.IdsOf(Tables.ApprovalPicks(queue, limit));
      var q := queue;
      var i := 0;
      while i < |q|
        invariant 0 <= i <= |q| && |q| == |queue|
        invariant forall j :: 0 <= j < i ==> q[j] == Tables.ApproveRow(queue[j], ids)
        invariant forall j :: i <= j < |q| ==> q[j] == queue[j]
      {
        q := q[i := Tables.ApproveRow(q[i], ids)];
        i := i + 1;
      }
      assert q == Tables.ApproveRows(queue, ids);
      queue := q;
    }

    /** pop_approved: a read; nothing changes. */
    method PopApproved(limit: int) returns (rows: seq<Tables.QueueRow>)
      ensures rows == Tables.PopApproved(State(), limit)
    {
      rows := Tables.PopApproved(State(), limit);
    }

    /** remove_from_queue: delete the rows with that id. */
    method RemoveFromQueue(id: nat)
      modifies this
      requires Valid()
      ensures State() == Tables.RemoveFromQueue(old(State()), id)
      ensures Valid()
    {
      var kept: seq<Tables.QueueRow> := [];
      var i := |queue|;
      while i > 0
        invariant 0 <= i <= |queue|
        invariant kept == Tables.WithoutId(queue[i..], id)
      {
        i := i - 1;
        assert queue[i..][1..] == queue[i + 1..];
        if queue[i].id != id {
          kept := [queue[i]] + kept;
        }
      }
      queue := kept;
    }
  }
}
