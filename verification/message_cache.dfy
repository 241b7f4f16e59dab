/**
 * The bounded cache of recent chat turns (chatai/util.py).
 *
 * The cache keeps `(timestamp, message)` entries in a sequence. A new entry
 * is appended when its timestamp is at least the last one; otherwise it is
 * inserted before the first entry with a STRICTLY SMALLER timestamp, and
 * dropped when there is none. Afterwards one entry is evicted from the front
 * when the sequence is longer than the maximum size. The lock of `MessageCache`
 * only makes each operation atomic; operations here are sequential.
 */
module Util {

  datatype Entry = Entry(timestamp: int, message: string)

  /** Entries ordered by non-decreasing timestamp. */
  ghost predicate Sorted(q: seq<Entry>) {
    forall i, j :: 0 <= i < j < |q| ==> q[i].timestamp <= q[j].timestamp
  }

  /** The number of entries the cache can keep: a non-positive maximum keeps none. */
  function Capacity(maxSize: int): nat {
    if maxSize < 0 then 0 else maxSize
  }

  /** Whether an entry with timestamp `t` is appended (the in-order case). */
  predicate AppendsAt(q: seq<Entry>, t: int) {
    q == [] || q[|q| - 1].timestamp <= t
  }

  /** The index of the first entry whose timestamp is strictly below `t`, or |q|. */
  function FirstBelow(q: seq<Entry>, t: int): (i: nat)
    ensures i <= |q|
    ensures i < |q| ==> q[i].timestamp < t
    ensures forall j :: 0 <= j < i ==> q[j].timestamp >= t
  {
    if q == [] then 0
    else if q[0].timestamp < t then 0
    else 1 + FirstBelow(q[1..], t)
  }

  /**
   * The sequence after the insertion step of `add_message`, before trimming:
   * the entry inserted at one position, or dropped exactly when it is out of
   * order and no entry has a smaller timestamp.
   */
  function Placed(q: seq<Entry>, e: Entry): (r: seq<Entry>)
    ensures r != q ==> |r| == |q| + 1 && multiset(r) == multiset(q) + multiset{e}
    ensures r == q <==>
      !AppendsAt(q, e.timestamp) && forall j :: 0 <= j < |q| ==> q[j].timestamp >= e.timestamp
  {
    if AppendsAt(q, e.timestamp) then q + [e]
    else
      var i := FirstBelow(q, e.timestamp);
      if i < |q| then
        assert q == q[..i] + q[i..];
        q[..i] + [e] + q[i..]
      else q
  }

  /** The trimming step of `add_message`: at most one eviction, from the front. */
  function Trimmed(q: seq<Entry>, maxSize: int): seq<Entry>
    requires q != []
  {
    if |q| > maxSize then q[1..] else q
  }

  /**
   * The whole effect of `add_message` on the sequence. The front entry is
   * evicted only when the placed sequence exceeds the maximum size, so a
   * cache within capacity stays within it.
   */
  function Add(q: seq<Entry>, e: Entry, maxSize: int): (r: seq<Entry>)
    ensures |Placed(q, e)| <= maxSize ==> r == Placed(q, e)
    ensures |Placed(q, e)| > maxSize ==> r == Placed(q, e)[1..]
    ensures |r| <= |q| + 1
    ensures |q| <= Capacity(maxSize) ==> |r| <= Capacity(maxSize)
  {
    assert Placed(q, e) != [];
    Trimmed(Placed(q, e), maxSize)
  }

  /** A run of `add_message` calls, in order. */
  function AddAll(q: seq<Entry>, es: seq<Entry>, maxSize: int): seq<Entry>
    decreases |es|
  {
    if es == [] then q else AddAll(Add(q, es[0], maxSize), es[1..], maxSize)
  }

  /** The last `k` entries of `s` (all of them when `s` is shorter). */
  function Last(s: seq<Entry>, k: nat): (r: seq<Entry>)
    ensures |r| == if k < |s| then k else |s|
  {
    if k < |s| then s[|s| - k..] else s
  }

  class MessageCache {
    var queue: seq<Entry>
    const maxSize: int

    /** The capacity invariant every operation keeps. */
    ghost predicate Valid()
      reads this
    {
      |queue| <= Capacity(maxSize)
    }

    constructor (maxSize: int)
      ensures Valid()
      ensures this.maxSize == maxSize && queue == []
    {
      this.maxSize := maxSize;
      queue := [];
    }

    /** `add_message`: insert, then evict at most one entry from the front. */
    method AddMessage(message: string, timestamp: int)
      requires Valid()
      modifies this
      ensures Valid()
      ensures queue == Add(old(queue), Entry(timestamp, message), maxSize)
      ensures AppendsAt(old(queue), timestamp) && Sorted(old(queue)) ==> Sorted(queue)
    {
      ghost var q0 := queue;
      var e := Entry(timestamp, message);
      if queue == [] || queue[|queue| - 1].timestamp <= timestamp {
        queue := queue + [e];
      } else {
        var idx := 0;
        while idx < |queue|
          invariant 0 <= idx <= |queue|
          invariant queue == q0
          invariant forall j :: 0 <= j < idx ==> queue[j].timestamp >= timestamp
        {
          if queue[idx].timestamp < timestamp {
            queue := queue[..idx] + [e] + queue[idx..];
            break;
          }
          idx := idx + 1;
        }
      }
      assert queue == Placed(q0, e);
      if |queue| > maxSize {
        queue := queue[1..];
      }
      if AppendsAt(q0, timestamp) && Sorted(q0) {
        InOrderAddKeepsSorted(q0, e, maxSize);
      }
    }

    /** `get_last_n_messages`: the last `n` entries in stored order. */
    method GetLastNMessages(n: int) returns (r: seq<Entry>)
      ensures |r| == if n <= 0 then 0 else if n < |queue| then n else |queue|
      ensures r == queue[|queue| - |r|..]
    {
      var start := if |queue| - n > 0 then |queue| - n else 0;
      if start <= |queue| {
        r := queue[start..];
      } else {
        r := [];
      }
    }
  }

  /**
   * An add gains at most the new entry and loses at most the entry at the
   * front, which after a late insertion need not be the oldest.
   */
  lemma AddLosesAtMostFront(q: seq<Entry>, e: Entry, maxSize: int)
    ensures multiset(Add(q, e, maxSize)) <= multiset(q) + multiset{e}
    ensures q != [] ==> multiset(q[1..]) <= multiset(Add(q, e, maxSize))
  {
    var p := Placed(q, e);
    assert p == [p[0]] + p[1..];
    assert multiset(p) == multiset{p[0]} + multiset(p[1..]);
    if q != [] {
      assert q == [q[0]] + q[1..];
      assert multiset(q) == multiset{q[0]} + multiset(q[1..]);
    }
  }

  /**
   * In a full sorted cache a late entry is lost: it is put at the front,
   * or nowhere, and the front is then evicted, leaving the cache unchanged.
   */
  lemma LateEntryInFullCacheIsLost(q: seq<Entry>, e: Entry, maxSize: int)
    requires Sorted(q) && |q| == maxSize
    requires !AppendsAt(q, e.timestamp)
    ensures Add(q, e, maxSize) == q
  {
    var i := FirstBelow(q, e.timestamp);
    if i < |q| {
      assert q[0].timestamp <= q[i].timestamp < e.timestamp;
      assert Placed(q, e) == [e] + q;
      assert ([e] + q)[1..] == q;
    }
  }

  /** An in-order add is an append followed by a window of the capacity. */
  lemma InOrderAddIsWindow(q: seq<Entry>, e: Entry, maxSize: int)
    requires |q| <= Capacity(maxSize)
    requires AppendsAt(q, e.timestamp)
    ensures Add(q, e, maxSize) == Last(q + [e], Capacity(maxSize))
  {
  }

  /** An in-order add keeps the sequence sorted by timestamp. */
  lemma InOrderAddKeepsSorted(q: seq<Entry>, e: Entry, maxSize: int)
    requires Sorted(q) && AppendsAt(q, e.timestamp)
    ensures Sorted(Add(q, e, maxSize))
  {
    var p := q + [e];
    assert Sorted(p) by {
      forall i, j | 0 <= i < j < |p| ensures p[i].timestamp <= p[j].timestamp {
        if j == |q| && i < |q| {
          assert q[i].timestamp <= q[|q| - 1].timestamp;
        }
      }
    }
  }

  /**
   * An out-of-order entry lands just before the first strictly smaller
   * timestamp; everything before it has a timestamp at least as large.
   */
  lemma OutOfOrderPlacement(q: seq<Entry>, e: Entry)
    requires !AppendsAt(q, e.timestamp)
    ensures var i := FirstBelow(q, e.timestamp);
      && (i < |q| ==> Placed(q, e) == q[..i] + [e] + q[i..] && q[i].timestamp < e.timestamp)
      && (forall j :: 0 <= j < i ==> q[j].timestamp >= e.timestamp)
      && (i == |q| ==> Placed(q, e) == q)
  {
  }

  /**
   * An out-of-order entry with no strictly smaller timestamp in a sorted
   * cache is dropped: nothing is inserted and, within capacity, nothing is
   * evicted either.
   */
  lemma OutOfOrderWithoutSmallerIsDropped(q: seq<Entry>, e: Entry, maxSize: int)
    requires |q| <= Capacity(maxSize)
    requires Sorted(q) && q != [] && e.timestamp <= q[0].timestamp
    requires !AppendsAt(q, e.timestamp)
    ensures Add(q, e, maxSize) == q
  {
  }

  /** The window of a suffix is the window of the whole when the suffix is long enough. */
  lemma LastOfSuffix(s: seq<Entry>, d: nat, k: nat)
    requires d <= |s|
    requires d == 0 || |s| - d >= k
    ensures Last(s[d..], k) == Last(s, k)
  {
  }

  lemma SortedSuffix(s: seq<Entry>, i: nat)
    requires Sorted(s) && i <= |s|
    ensures Sorted(s[i..])
  {
    var t := s[i..];
    forall a, b | 0 <= a < b < |t| ensures t[a].timestamp <= t[b].timestamp {
      assert t[a] == s[i + a] && t[b] == s[i + b];
    }
  }

  /** The first entry of a sorted run arrives in order after any prefix of it. */
  lemma SortedHeadAppends(q: seq<Entry>, es: seq<Entry>)
    requires Sorted(q + es) && es != []
    ensures AppendsAt(q, es[0].timestamp)
  {
    if q != [] {
      assert (q + es)[|q| - 1] == q[|q| - 1] && (q + es)[|q|] == es[0];
    }
  }

  /** A window of `p`, followed by `rest`, is a suffix of `p + rest` that is long enough. */
  lemma WindowThenRest(p: seq<Entry>, rest: seq<Entry>, k: nat) returns (d: nat)
    ensures d <= |p + rest|
    ensures Last(p, k) + rest == (p + rest)[d..]
    ensures d == 0 || |p + rest| - d >= k
  {
    d := |p| - |Last(p, k)|;
    assert Last(p, k) == p[d..];
    assert p[d..] + rest == (p + rest)[d..];
  }

  /**
   * When every add arrives in timestamp order, the cache holds exactly the
   * most recent `Capacity(maxSize)` entries.
   */
  lemma {:induction false} InOrderAddsKeepNewest(q: seq<Entry>, es: seq<Entry>, maxSize: int)
    requires |q| <= Capacity(maxSize)
    requires Sorted(q + es)
    ensures AddAll(q, es, maxSize) == Last(q + es, Capacity(maxSize))
    decreases |es|
  {
    if es == [] {
      assert q + es == q;
    } else {
      SortedHeadAppends(q, es);
      InOrderAddIsWindow(q, es[0], maxSize);
      var q1 := Add(q, es[0], maxSize);
      var d := WindowThenRest(q + [es[0]], es[1..], Capacity(maxSize));
      assert q + es == (q + [es[0]]) + es[1..];
      SortedSuffix(q + es, d);
      InOrderAddsKeepNewest(q1, es[1..], maxSize);
      LastOfSuffix(q + es, d, Capacity(maxSize));
    }
  }

  /** In-order adds leave the cache sorted by timestamp. */
  lemma InOrderAddsStaySorted(q: seq<Entry>, es: seq<Entry>, maxSize: int)
    requires |q| <= Capacity(maxSize)
    requires Sorted(q + es)
    ensures Sorted(AddAll(q, es, maxSize))
  {
    InOrderAddsKeepNewest(q, es, maxSize);
    var s := q + es;
    SortedSuffix(s, |s| - |Last(s, Capacity(maxSize))|);
  }

  /**
   * With maximum size 2, adding timestamps 1, 3 and then 2 leaves the
   * entries for 1 and 3: the late entry is put in front of the first smaller
   * timestamp, which is the front, and is then the one evicted.
   */
  lemma OutOfOrderTrace(a: string, b: string, c: string)
    ensures AddAll([], [Entry(1, a), Entry(3, b), Entry(2, c)], 2) == [Entry(1, a), Entry(3, b)]
  {
    var q1, q2 := [Entry(1, a)], [Entry(1, a), Entry(3, b)];
    AddStep([], Entry(1, a), 2, [Entry(1, a)], q1);
    AddStep(q1, Entry(3, b), 2, q2, q2);
    assert FirstBelow(q2, 2) == 0;
    AddStep(q2, Entry(2, c), 2, [Entry(2, c)] + q2, q2);
    AddAllSteps([], [Entry(1, a), Entry(3, b), Entry(2, c)], 2, q1, q2, q2);
  }

  /**
   * With room to spare, the same late entry is kept, but in front of the
   * older ones: out-of-order arrivals leave the cache unsorted.
   */
  lemma OutOfOrderUnsorts(a: string, b: string, c: string)
    ensures AddAll([], [Entry(1, a), Entry(3, b), Entry(2, c)], 3) == [Entry(2, c), Entry(1, a), Entry(3, b)]
    ensures !Sorted(AddAll([], [Entry(1, a), Entry(3, b), Entry(2, c)], 3))
  {
    var q1, q2 := [Entry(1, a)], [Entry(1, a), Entry(3, b)];
    var q3 := [Entry(2, c), Entry(1, a), Entry(3, b)];
    AddStep([], Entry(1, a), 3, [Entry(1, a)], q1);
    AddStep(q1, Entry(3, b), 3, q2, q2);
    assert FirstBelow(q2, 2) == 0;
    AddStep(q2, Entry(2, c), 3, q3, q3);
    AddAllSteps([], [Entry(1, a), Entry(3, b), Entry(2, c)], 3, q1, q2, q3);
    assert q3[0].timestamp > q3[1].timestamp;
  }

  /** One add, from the placed sequence `p` it computes to the trimmed result `r`. */
  lemma AddStep(q: seq<Entry>, e: Entry, maxSize: int, p: seq<Entry>, r: seq<Entry>)
    requires Placed(q, e) == p && p != []
    requires r == if |p| > maxSize then p[1..] else p
    ensures Add(q, e, maxSize) == r
  {
  }

  /** Three adds in a row, through the given intermediate caches. */
  lemma AddAllSteps(q: seq<Entry>, es: seq<Entry>, maxSize: int, q1: seq<Entry>, q2: seq<Entry>, q3: seq<Entry>)
    requires |es| == 3
    requires Add(q, es[0], maxSize) == q1 && Add(q1, es[1], maxSize) == q2 && Add(q2, es[2], maxSize) == q3
    ensures AddAll(q, es, maxSize) == q3
  {
    assert es[1..][0] == es[1] && es[1..][1..][0] == es[2] && es[1..][1..][1..] == [];
    assert AddAll(q, es, maxSize) == AddAll(q1, es[1..], maxSize);
    assert AddAll(q1, es[1..], maxSize) == AddAll(q2, es[1..][1..], maxSize);
    assert AddAll(q2, es[1..][1..], maxSize) == AddAll(q3, [], maxSize);
  }
}
