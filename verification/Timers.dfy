/**
 Timers (src/sources/timer.rs) and the drain of expired ones in `Poll::poll` (src/sys.rs).

 The wheel's `BinaryHeap` is a sequence in no particular order, of which `peek` and `pop`
 take the same entry of minimal deadline; which one of several is arbitrary. Instants are
 numbers.
 */
module Timers {
  import opened Wrappers
  import opened Tokens

  type Instant = nat

  datatype TimeoutData = TimeoutData(deadline: Instant, token: TokenInner, counter: nat)

  /** `at` is the position of the entry that the heap has on top. */
  predicate IsTop(heap: seq<TimeoutData>, at: nat) {
    at < |heap| && forall k :: 0 <= k < |heap| ==> heap[at].deadline <= heap[k].deadline
  }

  function RemoveAt(heap: seq<TimeoutData>, at: nat): seq<TimeoutData>
    requires at < |heap|
  {
    heap[..at] + heap[at + 1..]
  }

  /** `BinaryHeap::retain` with "the counter differs". */
  function Without(heap: seq<TimeoutData>, counter: nat): (kept: seq<TimeoutData>)
    ensures forall e :: e in kept <==> e in heap && e.counter != counter
  {
    if heap == [] then []
    else if heap[0].counter == counter then Without(heap[1..], counter)
    else [heap[0]] + Without(heap[1..], counter)
  }

  /** How often a counter occurs. */
  function Count(entries: seq<TimeoutData>, counter: nat): nat {
    if entries == [] then 0
    else (if entries[0].counter == counter then 1 else 0) + Count(entries[1..], counter)
  }

  lemma {:induction false} CountAppends(a: seq<TimeoutData>, b: seq<TimeoutData>, counter: nat)
    ensures Count(a + b, counter) == Count(a, counter) + Count(b, counter)
  {
    if a == [] {
      assert a + b == b;
    } else {
      CountAppends(a[1..], b, counter);
      assert (a + b)[1..] == a[1..] + b;
    }
  }

  lemma {:induction false} CountPositive(entries: seq<TimeoutData>, counter: nat)
    ensures Count(entries, counter) > 0 <==> exists e :: e in entries && e.counter == counter
  {
    if entries != [] {
      CountPositive(entries[1..], counter);
      assert entries == [entries[0]] + entries[1..];
    }
  }

  lemma CountRemoved(heap: seq<TimeoutData>, at: nat, counter: nat)
    requires at < |heap|
    ensures Count(heap, counter) == Count(RemoveAt(heap, at), counter) + if heap[at].counter == counter then 1 else 0
  {
    assert heap == heap[..at] + ([heap[at]] + heap[at + 1..]);
    CountAppends(heap[..at], [heap[at]] + heap[at + 1..], counter);
    CountAppends([heap[at]], heap[at + 1..], counter);
    CountAppends(heap[..at], heap[at + 1..], counter);
    assert [heap[at]][1..] == [];
  }

  lemma {:induction false} CountWithout(heap: seq<TimeoutData>, gone: nat, counter: nat)
    ensures Count(Without(heap, gone), counter) == if counter == gone then 0 else Count(heap, counter)
  {
    if heap != [] {
      CountWithout(heap[1..], gone, counter);
      if heap[0].counter != gone {
        CountAppends([heap[0]], Without(heap[1..], gone), counter);
        assert [heap[0]][1..] == [];
      }
    }
  }

  // ---------------------------------------------------------------------------
  // TimerWheel
  // ---------------------------------------------------------------------------

  /** Cancelling pops the top entry if it carries the counter, and filters the heap otherwise. */
  function Cancelled(heap: seq<TimeoutData>, counter: nat, top: nat): seq<TimeoutData>
    requires heap != [] ==> IsTop(heap, top)
  {
    if heap != [] && heap[top].counter == counter then RemoveAt(heap, top) else Without(heap, counter)
  }

  /**
   After a cancellation the counter occurs nowhere, exactly when it occurred once at most or
   was not on top; other counters are as frequent as before.
   */
  lemma CancelCounts(heap: seq<TimeoutData>, counter: nat, top: nat)
    requires heap != [] ==> IsTop(heap, top)
    ensures Count(Cancelled(heap, counter, top), counter) == 0
            <==> Count(heap, counter) <= 1 || heap[top].counter != counter
    ensures forall c :: c != counter ==> Count(Cancelled(heap, counter, top), c) == Count(heap, c)
    ensures forall e :: e in Cancelled(heap, counter, top) ==> e in heap
  {
    forall c
      ensures c != counter ==> Count(Cancelled(heap, counter, top), c) == Count(heap, c)
    {
      CountWithout(heap, counter, c);
      if heap != [] {
        CountRemoved(heap, top, c);
      }
    }
    CountWithout(heap, counter, counter);
    if heap != [] {
      CountRemoved(heap, top, counter);
    }
  }

  /** `after` is `before` without one occurrence of the minimal entry `e`. */
  ghost predicate PopsTop(before: seq<TimeoutData>, e: TimeoutData, after: seq<TimeoutData>) {
    exists top: nat :: IsTop(before, top) && before[top] == e && after == RemoveAt(before, top)
  }

  predicate Sorted(entries: seq<TimeoutData>) {
    forall i, j :: 0 <= i < j < |entries| ==> entries[i].deadline <= entries[j].deadline
  }

  lemma PoppedTop(before: seq<TimeoutData>, e: TimeoutData, after: seq<TimeoutData>)
    requires PopsTop(before, e, after)
    ensures multiset(before) == multiset(after) + multiset{e}
    ensures e in before && |after| < |before|
    ensures forall x :: x in after ==> x in before && e.deadline <= x.deadline
  {
    var top: nat :| IsTop(before, top) && before[top] == e && after == RemoveAt(before, top);
    assert before == before[..top] + [e] + before[top + 1..];
    assert multiset(before) == multiset(after) + multiset{e};
    forall x | x in after
      ensures x in before && e.deadline <= x.deadline
    {
      assert x in multiset(before);
    }
  }

  /** There is always some entry to be on top of a heap that is not empty. */
  lemma LeastOf(heap: seq<TimeoutData>) returns (top: nat)
    requires heap != []
    ensures IsTop(heap, top)
  {
    top := 0;
    if |heap| > 1 {
      var rest := LeastOf(heap[1..]);
      top := if heap[0].deadline <= heap[1..][rest].deadline then 0 else rest + 1;
      assert forall k :: 0 < k < |heap| ==> heap[k] == heap[1..][k - 1];
    }
  }

  class TimerWheel {
    var heap: seq<TimeoutData>
    var counter: nat

    constructor ()
      ensures heap == [] && counter == 0
    {
      heap, counter := [], 0;
    }

    /** The counter is 32 bits wide; the increment overflows after 2^32 insertions. */
    method Insert(deadline: Instant, token: TokenInner) returns (ret: nat)
      requires counter + 1 < U32_COUNT
      modifies this
      ensures ret == old(counter) && counter == ret + 1
      ensures heap == old(heap) + [TimeoutData(deadline, token, ret)]
    {
      heap := heap + [TimeoutData(deadline, token, counter)];
      ret := counter;
      counter := counter + 1;
    }

    method InsertReuse(reused: nat, deadline: Instant, token: TokenInner)
      modifies this`heap
      ensures heap == old(heap) + [TimeoutData(deadline, token, reused)]
    {
      heap := heap + [TimeoutData(deadline, token, reused)];
    }

    /** `BinaryHeap::peek`, by its contract. */
    method Peek() returns (top: nat)
      requires heap != []
      ensures IsTop(heap, top)
    {
      top := 0;
      for k := 1 to |heap|
        invariant top < k && forall j :: 0 <= j < k ==> heap[top].deadline <= heap[j].deadline
      {
        if heap[k].deadline < heap[top].deadline {
          top := k;
        }
      }
    }

    method Cancel(gone: nat)
      modifies this`heap
      ensures exists top: nat :: (old(heap) != [] ==> IsTop(old(heap), top)) && heap == Cancelled(old(heap), gone, top)
    {
      if heap == [] {
        assert heap == Cancelled(heap, gone, 0);
        return;
      }
      var top := Peek();
      ghost var before := heap;
      if heap[top].counter == gone {
        heap := heap[..top] + heap[top + 1..];
      } else {
        heap := Without(heap, gone);
      }
      assert heap == Cancelled(before, gone, top);
    }

    /** Pops a minimal entry if it has expired. */
    method NextExpired(now: Instant) returns (expired: Option<TimeoutData>)
      modifies this`heap
      ensures expired.None? ==> heap == old(heap) && forall e :: e in heap ==> e.deadline > now
      ensures expired.Some? ==>
                && expired.value.deadline <= now
                && PopsTop(old(heap), expired.value, heap)
    {
      if heap == [] {
        return None;
      }
      var top := Peek();
      if heap[top].deadline > now {
        return None;
      }
      expired := Some(heap[top]);
      ghost var before := heap;
      heap := heap[..top] + heap[top + 1..];
      assert IsTop(before, top) && heap == RemoveAt(before, top);
      assert PopsTop(before, expired.value, heap);
    }

    method NextDeadline() returns (deadline: Option<Instant>)
      ensures deadline.None? <==> heap == []
      ensures deadline.Some? ==>
                && (exists e :: e in heap && e.deadline == deadline.value)
                && (forall e :: e in heap ==> deadline.value <= e.deadline)
    {
      if heap == [] {
        return None;
      }
      var top := Peek();
      assert heap[top] in heap;
      deadline := Some(heap[top].deadline);
    }

    /**
     The drain of one poll: exactly the entries with a deadline up to `now` come out, in
     nondecreasing order of deadlines, and the others stay.
     */
    method DrainExpired(now: Instant) returns (expired: seq<TimeoutData>)
      modifies this`heap
      ensures multiset(expired) + multiset(heap) == multiset(old(heap))
      ensures forall e :: e in expired ==> e.deadline <= now
      ensures forall e :: e in heap ==> e.deadline > now
      ensures Sorted(expired)
    {
      expired := [];
      while true
        invariant multiset(expired) + multiset(heap) == multiset(old(heap))
        invariant forall e :: e in expired ==> e.deadline <= now
        invariant forall e, x :: e in expired && x in heap ==> e.deadline <= x.deadline
        invariant Sorted(expired)
        decreases |heap|
      {
        ghost var before := heap;
        var next := NextExpired(now);
        if next.None? {
          break;
        }
        PoppedTop(before, next.value, heap);
        expired := expired + [next.value];
      }
    }
  }

}
