/** The checkpoint threshold rule of `createRedis`: every event that reaches
    the end of the pipeline bumps the consumer's message count; when a store
    client is configured and the count has reached the message limit, the
    count goes back to zero and `{lastProcessed, id}` is written under the
    key "checkpoint". The store is modelled as the sequence of writes it
    receives and the clock as a reading passed in with each event. */
module Checkpointing {
  import opened Wrappers

  /** The record `createRedis` serialises as the checkpoint value. */
  datatype Checkpoint = Checkpoint(lastProcessed: int, id: string)

  /** One `set(key, value)` issued to the store. */
  datatype StoreWrite = StoreWrite(key: string, value: Checkpoint)

  const CheckpointKey := "checkpoint"

  /** An event reaching `createRedis`: its id and what `Date.now()` read then. */
  datatype Arrival = Arrival(id: string, now: int)

  /** The write that records `a` as the latest processed event. */
  function WriteFor(a: Arrival): StoreWrite
  {
    StoreWrite(CheckpointKey, Checkpoint(a.now, a.id))
  }

  /** One event through `createRedis`: the new message count and the writes
      issued (none or one). `limit` is None while `checkpoint` has never been
      called, and comparing a count with `undefined` is false. */
  function Tally(count: int, hasClient: bool, limit: Option<int>, a: Arrival): (int, seq<StoreWrite>)
  {
    var bumped := count + 1;
    if hasClient && limit.Some? && bumped >= limit.value then (0, [WriteFor(a)])
    else (bumped, [])
  }

  /** A sequence of events through `createRedis`, in order, with the store
      configuration fixed: the final count and all writes issued. */
  function TallyAll(count: int, hasClient: bool, limit: Option<int>, arrivals: seq<Arrival>): (int, seq<StoreWrite>)
  {
    if arrivals == [] then (count, [])
    else
      var before := TallyAll(count, hasClient, limit, arrivals[..|arrivals| - 1]);
      var last := Tally(before.0, hasClient, limit, arrivals[|arrivals| - 1]);
      (last.0, before.1 + last.1)
  }

  /** Without a store client nothing is ever written and the count only grows,
      by one per event. */
  lemma {:induction false} NoClientNoWrites(count: int, limit: Option<int>, arrivals: seq<Arrival>)
    ensures TallyAll(count, false, limit, arrivals) == (count + |arrivals|, [])
  {
    if arrivals != [] {
      NoClientNoWrites(count, limit, arrivals[..|arrivals| - 1]);
      var none: seq<StoreWrite> := [];
      assert none + none == none;
    }
  }

  /** The position (from 0) of the arrival that triggers the k-th write
      (from 0), with limit n and a count of c at the start. */
  function WriteIndex(n: int, c: int, k: int): int
  {
    n * (k + 1) - c - 1
  }

  /** The k-th write records the arrival at WriteIndex(n, c, k): every n-th
      arrival, starting with the (n - c)-th. */
  ghost predicate WritesEveryNth(n: int, c: int, arrivals: seq<Arrival>, writes: seq<StoreWrite>)
  {
    forall k :: 0 <= k < |writes| ==>
      0 <= WriteIndex(n, c, k) < |arrivals| &&
      writes[k] == WriteFor(arrivals[WriteIndex(n, c, k)])
  }

  /** With a client and a limit n >= 1, starting from a count c below n:
      the final count is what is left over and stays below n, and the writes
      follow every n-th event as WritesEveryNth says, each recording that
      event's id and time. */
  lemma PeriodicWrites(c: int, n: int, arrivals: seq<Arrival>)
    requires 1 <= n && 0 <= c < n
    ensures 0 <= TallyAll(c, true, Some(n), arrivals).0 < n
    ensures TallyAll(c, true, Some(n), arrivals).0 + n * |TallyAll(c, true, Some(n), arrivals).1| == c + |arrivals|
    ensures WritesEveryNth(n, c, arrivals, TallyAll(c, true, Some(n), arrivals).1)
  {
    PeriodicCount(c, n, arrivals);
    PeriodicIndex(c, n, arrivals);
  }

  /** The count half of PeriodicWrites. */
  lemma {:induction false} PeriodicCount(c: int, n: int, arrivals: seq<Arrival>)
    requires 1 <= n && 0 <= c < n
    ensures 0 <= TallyAll(c, true, Some(n), arrivals).0 < n
    ensures TallyAll(c, true, Some(n), arrivals).0 + n * |TallyAll(c, true, Some(n), arrivals).1| == c + |arrivals|
  {
    if arrivals != [] {
      var front := arrivals[..|arrivals| - 1];
      var a := arrivals[|arrivals| - 1];
      PeriodicCount(c, n, front);
      var before := TallyAll(c, true, Some(n), front);
      var r := TallyAll(c, true, Some(n), arrivals);
      if before.0 + 1 >= n {
        assert r == (0, before.1 + [WriteFor(a)]);
        WrapAround(n, c, |before.1|, before.0, |front|);
      } else {
        assert before.1 + [] == before.1;
        assert r == (before.0 + 1, before.1);
      }
    }
  }

  /** The index half of PeriodicWrites. */
  lemma PeriodicIndex(c: int, n: int, arrivals: seq<Arrival>)
    requires 1 <= n && 0 <= c < n
    ensures WritesEveryNth(n, c, arrivals, TallyAll(c, true, Some(n), arrivals).1)
  {
    var writes := TallyAll(c, true, Some(n), arrivals).1;
    forall k | 0 <= k < |writes|
      ensures 0 <= WriteIndex(n, c, k) < |arrivals| &&
        writes[k] == WriteFor(arrivals[WriteIndex(n, c, k)])
    {
      KthWrite(c, n, arrivals, k);
    }
  }

  /** The k-th write on its own, by induction on the arrivals. */
  lemma {:induction false} KthWrite(c: int, n: int, arrivals: seq<Arrival>, k: int)
    requires 1 <= n && 0 <= c < n
    requires 0 <= k < |TallyAll(c, true, Some(n), arrivals).1|
    ensures 0 <= WriteIndex(n, c, k) < |arrivals|
    ensures TallyAll(c, true, Some(n), arrivals).1[k] == WriteFor(arrivals[WriteIndex(n, c, k)])
  {
    var front := arrivals[..|arrivals| - 1];
    var a := arrivals[|arrivals| - 1];
    var before := TallyAll(c, true, Some(n), front);
    var q := |before.1|;
    var r := TallyAll(c, true, Some(n), arrivals);
    PeriodicCount(c, n, front);
    if before.0 + 1 >= n {
      assert r.1 == before.1 + [WriteFor(a)];
      if k < q {
        KthWrite(c, n, front, k);
        assert r.1[k] == before.1[k];
      } else {
        WrapAround(n, c, q, before.0, |front|);
      }
    } else {
      assert before.1 + [] == before.1;
      assert r.1 == before.1;
      KthWrite(c, n, front, k);
    }
  }

  /** The arithmetic of one write: when the count before reaches n - 1,
      the record that triggers the write is number n * (q + 1) - c - 1,
      and the totals still add up. */
  lemma WrapAround(n: int, c: int, q: int, count: int, len: int)
    requires 1 <= n && 0 <= count < n && count + 1 >= n && count + n * q == c + len
    ensures WriteIndex(n, c, q) == len
    ensures 0 + n * (q + 1) == c + len + 1
  {
    MulSucc(n, q);
  }

  lemma MulSucc(n: int, q: int)
    ensures n * (q + 1) == n * q + n
  {
  }

  /** Starting from a fresh count of zero with limit n >= 1: after m events
      there have been exactly m / n writes and the count is m % n (so it is
      zero right after each write). Which events they record is
      PeriodicWrites with c = 0: the k-th write (from 0) records event
      WriteIndex(n, 0, k) = n * (k + 1) - 1. */
  lemma EveryNthEvent(n: int, arrivals: seq<Arrival>)
    requires n >= 1
    ensures TallyAll(0, true, Some(n), arrivals).0 == |arrivals| % n
    ensures |TallyAll(0, true, Some(n), arrivals).1| == |arrivals| / n
  {
    PeriodicWrites(0, n, arrivals);
    var r := TallyAll(0, true, Some(n), arrivals);
    DivModUnique(|arrivals|, n, |r.1|, r.0);
  }

  /** Running two sequences of records in turn is running their
      concatenation: the second starts from the count the first leaves, and
      the writes follow one another. */
  lemma {:induction false} TallyAppend(count: int, hasClient: bool, limit: Option<int>, a: seq<Arrival>, b: seq<Arrival>)
    ensures TallyAll(count, hasClient, limit, a + b) ==
      (TallyAll(TallyAll(count, hasClient, limit, a).0, hasClient, limit, b).0,
       TallyAll(count, hasClient, limit, a).1 + TallyAll(TallyAll(count, hasClient, limit, a).0, hasClient, limit, b).1)
    decreases |b|
  {
    var first := TallyAll(count, hasClient, limit, a);
    if b == [] {
      assert a + b == a;
      assert first.1 + [] == first.1;
    } else {
      var front := b[..|b| - 1];
      var x := b[|b| - 1];
      TallyAppend(count, hasClient, limit, a, front);
      assert (a + b)[..|a + b| - 1] == a + front;
      assert (a + b)[|a + b| - 1] == x;
      var mid := TallyAll(first.0, hasClient, limit, front);
      var last := Tally(mid.0, hasClient, limit, x);
      assert TallyAll(count, hasClient, limit, a + b) == (last.0, (first.1 + mid.1) + last.1);
      assert (first.1 + mid.1) + last.1 == first.1 + (mid.1 + last.1);
    }
  }

  /** A count that already reaches the limit, as one left over from records
      that arrived before `checkpoint` or from a larger earlier limit does:
      the very first record is written and the count goes back to 0, and
      from there the rest is counted as from a fresh count (so
      PeriodicWrites applies to it with c = 0). */
  lemma OverLimitFirstWrites(c: int, n: int, arrivals: seq<Arrival>)
    requires c + 1 >= n && arrivals != []
    ensures TallyAll(c, true, Some(n), arrivals) ==
      (TallyAll(0, true, Some(n), arrivals[1..]).0,
       [WriteFor(arrivals[0])] + TallyAll(0, true, Some(n), arrivals[1..]).1)
  {
    var head := [arrivals[0]];
    TallyAppend(c, true, Some(n), head, arrivals[1..]);
    assert head + arrivals[1..] == arrivals;
    assert head[..0] == [];
    var none: seq<StoreWrite> := [];
    assert none + [WriteFor(arrivals[0])] == [WriteFor(arrivals[0])];
    assert TallyAll(c, true, Some(n), head) == (0, [WriteFor(arrivals[0])]);
  }

  /** A limit of 1 or less (a negative `messages` is truthy and is kept):
      from any count that reaches it, every record is written, in order. */
  lemma {:induction false} LimitAtMostOneWritesEvery(c: int, n: int, arrivals: seq<Arrival>)
    requires n <= 1 && c + 1 >= n
    ensures TallyAll(c, true, Some(n), arrivals).0 == if arrivals == [] then c else 0
    ensures |TallyAll(c, true, Some(n), arrivals).1| == |arrivals|
    ensures forall k :: 0 <= k < |arrivals| ==> TallyAll(c, true, Some(n), arrivals).1[k] == WriteFor(arrivals[k])
  {
    if arrivals != [] {
      var front := arrivals[..|arrivals| - 1];
      LimitAtMostOneWritesEvery(c, n, front);
      var before := TallyAll(c, true, Some(n), front);
      var r := TallyAll(c, true, Some(n), arrivals);
      assert before.0 + 1 >= n;
      assert r.1 == before.1 + [WriteFor(arrivals[|arrivals| - 1])];
      forall k | 0 <= k < |arrivals|
        ensures r.1[k] == WriteFor(arrivals[k])
      {
        if k < |front| {
          assert r.1[k] == before.1[k];
          assert arrivals[k] == front[k];
        }
      }
    }
  }

  /** Euclidean division is the only way to write m as r + n*q with 0 <= r < n. */
  lemma DivModUnique(m: int, n: int, q: int, r: int)
    requires n >= 1 && 0 <= r < n && r + n * q == m
    ensures q == m / n && r == m % n
  {
    var q', r' := m / n, m % n;
    assert r' + n * q' == m;
    if q' < q {
      MulAtLeast(n, q - q');
    } else if q < q' {
      MulAtLeast(n, q' - q);
    }
  }

  lemma {:induction false} MulAtLeast(n: int, d: int)
    requires n >= 1 && d >= 1
    ensures n * d >= n
    decreases d
  {
    if d > 1 {
      MulAtLeast(n, d - 1);
      MulSucc(n, d - 1);
    }
  }

  /** The scenario of the test suite with a limit of one: events "0", "1"
      and "2" give three writes, the last recording "2". */
  lemma ExampleLimitOne(t0: int, t1: int, t2: int)
    ensures var arrivals := [Arrival("0", t0), Arrival("1", t1), Arrival("2", t2)];
      TallyAll(0, true, Some(1), arrivals) ==
        (0, [WriteFor(arrivals[0]), WriteFor(arrivals[1]), WriteFor(arrivals[2])])
  {
    var arrivals := [Arrival("0", t0), Arrival("1", t1), Arrival("2", t2)];
    EveryNthEvent(1, arrivals);
    var r := TallyAll(0, true, Some(1), arrivals);
    assert |r.1| == 3 && r.0 == 0;
    KthWrite(0, 1, arrivals, 0);
    KthWrite(0, 1, arrivals, 1);
    KthWrite(0, 1, arrivals, 2);
    assert r.1[0] == WriteFor(arrivals[0]);
    assert r.1[1] == WriteFor(arrivals[1]);
    assert r.1[2] == WriteFor(arrivals[2]);
    assert r.1 == [WriteFor(arrivals[0]), WriteFor(arrivals[1]), WriteFor(arrivals[2])];
  }

  /** The scenario of the test suite with a limit of two: of events "0" to
      "5", the writes record "1", "3" and "5", and "5" is stored last. */
  lemma ExampleLimitTwo(t: seq<int>)
    requires |t| == 6
    ensures var arrivals := [Arrival("0", t[0]), Arrival("1", t[1]), Arrival("2", t[2]),
                        Arrival("3", t[3]), Arrival("4", t[4]), Arrival("5", t[5])];
      TallyAll(0, true, Some(2), arrivals) ==
        (0, [WriteFor(Arrival("1", t[1])), WriteFor(Arrival("3", t[3])), WriteFor(Arrival("5", t[5]))])
  {
    var arrivals := [Arrival("0", t[0]), Arrival("1", t[1]), Arrival("2", t[2]),
                     Arrival("3", t[3]), Arrival("4", t[4]), Arrival("5", t[5])];
    EveryNthEvent(2, arrivals);
    var r := TallyAll(0, true, Some(2), arrivals);
    assert |r.1| == 3 && r.0 == 0;
    KthWrite(0, 2, arrivals, 0);
    KthWrite(0, 2, arrivals, 1);
    KthWrite(0, 2, arrivals, 2);
    assert r.1[0] == WriteFor(arrivals[1]);
    assert r.1[1] == WriteFor(arrivals[3]);
    assert r.1[2] == WriteFor(arrivals[5]);
    assert r.1 == [WriteFor(arrivals[1]), WriteFor(arrivals[3]), WriteFor(arrivals[5])];
  }
}
