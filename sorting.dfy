/** A stable insertion sort over a caller-supplied "comes no later than"
    relation; the model uses it to state the ORDER BY clauses of the store. */
module Sorting {

  ghost predicate TotalPreorder<T(!new)>(le: (T, T) -> bool) {
    && (forall a, b :: le(a, b) || le(b, a))
    && (forall a, b, c :: le(a, b) && le(b, c) ==> le(a, c))
  }

  ghost predicate Sorted<T>(s: seq<T>, le: (T, T) -> bool) {
    forall i, j :: 0 <= i < j < |s| ==> le(s[i], s[j])
  }

  function Insert<T(==)>(x: T, s: seq<T>, le: (T, T) -> bool): (r: seq<T>)
    ensures |r| == |s| + 1
    ensures multiset(r) == multiset(s) + multiset{x}
  {
    if s == [] then [x]
    else if le(x, s[0]) then [x] + s
    else
      assert s == [s[0]] + s[1..];
      [s[0]] + Insert(x, s[1..], le)
  }

  function SortBy<T(==)>(s: seq<T>, le: (T, T) -> bool): (r: seq<T>)
    ensures |r| == |s|
    ensures multiset(r) == multiset(s)
  {
    if s == [] then []
    else
      assert s == [s[0]] + s[1..];
      Insert(s[0], SortBy(s[1..], le), le)
  }

  lemma {:induction false} InsertSorted<T(!new)>(x: T, s: seq<T>, le: (T, T) -> bool)
    requires TotalPreorder(le)
    requires Sorted(s, le)
    ensures Sorted(Insert(x, s, le), le)
    decreases |s|
  {
    if s != [] && !le(x, s[0]) {
      var tail := s[1..];
      assert Sorted(tail, le);
      InsertSorted(x, tail, le);
      var rest := Insert(x, tail, le);
      forall y | y in rest ensures le(s[0], y) {
        assert y in multiset(rest);
        if y != x {
          assert y in multiset(tail);
          var k :| 0 <= k < |tail| && tail[k] == y;
          assert s[k + 1] == y;
        }
      }
      var r := [s[0]] + rest;
      forall i, j | 0 <= i < j < |r| ensures le(r[i], r[j]) {
        if i == 0 {
          assert r[j] == rest[j - 1];
          assert rest[j - 1] in rest;
        } else {
          assert r[i] == rest[i - 1] && r[j] == rest[j - 1];
        }
      }
    }
  }

  lemma {:induction false} SortBySorted<T(!new)>(s: seq<T>, le: (T, T) -> bool)
    requires TotalPreorder(le)
    ensures Sorted(SortBy(s, le), le)
    decreases |s|
  {
    if s != [] {
      SortBySorted(s[1..], le);
      InsertSorted(s[0], SortBy(s[1..], le), le);
    }
  }

  /** SQL `LIMIT n`: a negative limit means no limit. */
  function Take<T>(s: seq<T>, limit: int): (r: seq<T>)
    ensures |r| == if limit < 0 || limit >= |s| then |s| else limit
    ensures r == s[..|r|]
    ensures multiset(r) <= multiset(s)
  {
    if limit < 0 || limit >= |s| then s
    else
      assert s == s[..limit] + s[limit..];
      s[..limit]
  }

  /** A prefix of a sorted sequence holds the best elements: each one comes
      no later than any element left out. */
  lemma TakeIsBest<T>(s: seq<T>, limit: int, le: (T, T) -> bool)
    requires Sorted(s, le)
    ensures forall x, y :: x in Take(s, limit) && y in s && y !in Take(s, limit) ==> le(x, y)
  {
    var r := Take(s, limit);
    forall x, y | x in r && y in s && y !in r ensures le(x, y) {
      var a :| 0 <= a < |r| && r[a] == x;
      var b :| 0 <= b < |s| && s[b] == y;
      assert s[a] == x;
    }
  }
}
