/**
 How long a dispatch may sleep: the timeout that one poll passes to the system
 (src/sys.rs), and the retries of a poll that a signal interrupts (src/loop_logic.rs).

 Times are numbers; the code between two waits takes no time.
 */
module Timeouts {
  import opened Wrappers
  import opened Timers

  // ---------------------------------------------------------------------------
  // One poll
  // ---------------------------------------------------------------------------

  function UntilDeadline(deadline: Instant, now: Instant): nat {
    if deadline > now then deadline - now else 0
  }

  /** The timeout of one wait: the caller's or the time to the earliest timer, whichever is less. */
  function Merged(timeout: Option<nat>, deadline: Option<Instant>, now: Instant): (wait: Option<nat>)
    ensures wait.None? <==> timeout.None? && deadline.None?
    ensures wait.Some? && timeout.Some? ==> wait.value <= timeout.value
    ensures wait.Some? && deadline.Some? ==> wait.value <= UntilDeadline(deadline.value, now)
    ensures wait.Some? ==>
              || wait == timeout
              || (deadline.Some? && wait.value == UntilDeadline(deadline.value, now))
  {
    match (timeout, deadline)
    case (None, None) => None
    case (Some(t), None) => Some(t)
    case (None, Some(d)) => Some(UntilDeadline(d, now))
    case (Some(t), Some(d)) => if t <= UntilDeadline(d, now) then Some(t) else Some(UntilDeadline(d, now))
  }

  /** The timer part of a poll that waits from `now` to `end`. */
  method PollTimers(wheel: TimerWheel, timeout: Option<nat>, now: Instant, end: Instant)
    returns (wait: Option<nat>, expired: seq<TimeoutData>)
    requires now <= end
    modifies wheel`heap
    ensures wait.None? <==> timeout.None? && old(wheel.heap) == []
    ensures wait.Some? && timeout.Some? ==> wait.value <= timeout.value
    // No timer becomes due before the wait is over.
    ensures forall e :: e in old(wheel.heap) ==> wait.Some? && wait.value <= UntilDeadline(e.deadline, now)
    // A wait that runs to the end of a timeout that a timer chose reports a timer.
    ensures wait.Some? && wait != timeout && end >= now + wait.value ==> expired != []
    ensures multiset(expired) + multiset(wheel.heap) == multiset(old(wheel.heap))
    ensures forall e :: e in expired ==> e.deadline <= end
    ensures forall e :: e in wheel.heap ==> e.deadline > end
    ensures Sorted(expired)
  {
    var deadline := wheel.NextDeadline();
    wait := Merged(timeout, deadline, now);
    ghost var before := wheel.heap;
    expired := wheel.DrainExpired(end);
    if wait.Some? && wait != timeout && end >= now + wait.value {
      ghost var e :| e in before && e.deadline == deadline.value;
      assert e in multiset(before);
      assert e in multiset(expired) + multiset(wheel.heap);
      assert e !in wheel.heap;
    }
  }

  // ---------------------------------------------------------------------------
  // Retries
  // ---------------------------------------------------------------------------

  /** How one wait ended; an interruption comes with the time elapsed since the dispatch started. */
  datatype Ended = Interrupted(elapsed: nat) | Completed | WaitFailed

  datatype Outcome = Polled | GaveUp | Failed

  datatype Waited = Waited(timeouts: seq<Option<nat>>, outcome: Outcome)

  /**
   The loop around the poll: the timeout of each wait, and how the waiting ended. The
   elapsed time that is taken off after an interruption is the whole time since the
   dispatch started.
   */
  function Retried(timeout: Option<nat>, script: seq<Ended>): Waited
    decreases |script|
  {
    if script == [] || script[0] == Completed then Waited([timeout], Polled)
    else if script[0] == WaitFailed then Waited([timeout], Failed)
    else
      match timeout
      case None =>
        var rest := Retried(None, script[1..]);
        Waited([None] + rest.timeouts, rest.outcome)
      case Some(t) =>
        if script[0].elapsed >= t then Waited([timeout], GaveUp)
        else
          var rest := Retried(Some(t - script[0].elapsed), script[1..]);
          Waited([timeout] + rest.timeouts, rest.outcome)
  }

  function Sum(script: seq<Ended>): nat {
    if script == [] then 0
    else (if script[0].Interrupted? then script[0].elapsed else 0) + Sum(script[1..])
  }

  /** The moment the k-th wait starts, counted from the start of the dispatch. */
  function StartOf(script: seq<Ended>, k: nat): nat
    requires k <= |script|
  {
    if k > 0 && script[k - 1].Interrupted? then script[k - 1].elapsed else 0
  }

  /** The k-th timeout is what the elapsed times so far leave of the first, and follows an interruption. */
  predicate IsRemainder(timeout: nat, script: seq<Ended>, timeouts: seq<Option<nat>>, k: nat)
    requires k < |timeouts|
  {
    && k <= |script|
    && (k > 0 ==> script[k - 1].Interrupted?)
    && Sum(script[..k]) <= timeout
    && timeouts[k] == Some(timeout - Sum(script[..k]))
  }

  lemma {:induction false} TimeoutsAre(timeout: nat, script: seq<Ended>, k: nat)
    requires k < |Retried(Some(timeout), script).timeouts|
    ensures IsRemainder(timeout, script, Retried(Some(timeout), script).timeouts, k)
    decreases |script|
  {
    var waited := Retried(Some(timeout), script);
    assert script[..0] == [];
    if k > 0 {
      var left := timeout - script[0].elapsed;
      assert waited.timeouts[1..] == Retried(Some(left), script[1..]).timeouts;
      TimeoutsAre(left, script[1..], k - 1);
      assert script[..k][0] == script[0] && script[..k][1..] == script[1..][..k - 1];
    }
  }

  lemma {:induction false} SumSplits(script: seq<Ended>, k: nat)
    requires 0 < k <= |script|
    ensures Sum(script[..k]) == Sum(script[..k - 1]) + if script[k - 1].Interrupted? then script[k - 1].elapsed else 0
    decreases k
  {
    var s := script[..k];
    if k == 1 {
      assert s[1..] == [] && script[..0] == [];
    } else {
      SumSplits(script[1..], k - 1);
      assert s[1..] == script[1..][..k - 1];
      assert script[..k - 1][1..] == script[1..][..k - 2];
    }
  }

  /**
   No retry may sleep past the caller's timeout T: the k-th wait starts at e_k and ends by
   T minus the sum of the earlier elapsed times. So it may sleep the full T exactly when
   those are all zero; otherwise it gives up early.
   */
  lemma NeverOversleeps(timeout: nat, script: seq<Ended>, k: nat)
    requires k < |Retried(Some(timeout), script).timeouts|
    ensures k <= |script| && Retried(Some(timeout), script).timeouts[k].Some?
    ensures var end := StartOf(script, k) + Retried(Some(timeout), script).timeouts[k].value;
            var earlier := if k == 0 then 0 else Sum(script[..k - 1]);
            end == timeout - earlier && end <= timeout && (end == timeout <==> earlier == 0)
  {
    TimeoutsAre(timeout, script, k);
    if k > 0 {
      SumSplits(script, k);
    } else {
      assert script[..0] == [];
    }
  }

  /** The loop gives up without polling exactly when the accumulated elapsed times use the timeout up. */
  lemma {:induction false} GivesUpIff(timeout: nat, script: seq<Ended>)
    ensures Retried(Some(timeout), script).outcome == GaveUp
            <==> exists k :: 0 < k <= |script| && AllInterrupted(script, k) && Sum(script[..k]) >= timeout
    decreases |script|
  {
    if script != [] && script[0].Interrupted? {
      var e := script[0].elapsed;
      if e >= timeout {
        assert script[..1][1..] == [];
        assert AllInterrupted(script, 1) && Sum(script[..1]) >= timeout;
      } else {
        GivesUpIff(timeout - e, script[1..]);
        Shift(timeout, script);
      }
    } else if script != [] {
      assert forall k :: 0 < k <= |script| ==> !AllInterrupted(script, k);
    }
  }

  predicate AllInterrupted(script: seq<Ended>, k: nat)
    requires k <= |script|
  {
    forall i :: 0 <= i < k ==> script[i].Interrupted?
  }

  lemma Shift(timeout: nat, script: seq<Ended>)
    requires script != [] && script[0].Interrupted? && script[0].elapsed < timeout
    ensures var rest, left := script[1..], timeout - script[0].elapsed;
            (exists k :: 0 < k <= |rest| && AllInterrupted(rest, k) && Sum(rest[..k]) >= left)
            <==> (exists k :: 0 < k <= |script| && AllInterrupted(script, k) && Sum(script[..k]) >= timeout)
  {
    var rest, left := script[1..], timeout - script[0].elapsed;
    forall k | 0 < k <= |rest|
      ensures Sum(script[..k + 1]) == script[0].elapsed + Sum(rest[..k])
      ensures AllInterrupted(script, k + 1) <==> AllInterrupted(rest, k)
    {
      assert script[..k + 1][1..] == rest[..k];
      assert forall i :: 0 <= i < k ==> rest[i] == script[i + 1];
      assert forall i :: 0 < i < k + 1 ==> script[i] == rest[i - 1];
    }
    assert script[..1][1..] == [];
    assert Sum(script[..1]) == script[0].elapsed;
    if exists k :: 0 < k <= |rest| && AllInterrupted(rest, k) && Sum(rest[..k]) >= left {
      var k :| 0 < k <= |rest| && AllInterrupted(rest, k) && Sum(rest[..k]) >= left;
      assert AllInterrupted(script, k + 1) && Sum(script[..k + 1]) >= timeout;
    }
    if exists k :: 0 < k <= |script| && AllInterrupted(script, k) && Sum(script[..k]) >= timeout {
      var k :| 0 < k <= |script| && AllInterrupted(script, k) && Sum(script[..k]) >= timeout;
      assert k > 1;
      assert AllInterrupted(rest, k - 1) && Sum(rest[..k - 1]) >= left;
    }
  }

  // ---------------------------------------------------------------------------
  // How waiting ends, by what happens alone
  // ---------------------------------------------------------------------------

  /** The interruptions before something else happens. */
  function Interruptions(script: seq<Ended>): (k: nat)
    ensures k <= |script| && AllInterrupted(script, k)
    ensures k < |script| ==> !script[k].Interrupted?
  {
    if script == [] || !script[0].Interrupted? then 0
    else
      var k := Interruptions(script[1..]);
      assert forall i :: 0 < i < k + 1 ==> script[i] == script[1..][i - 1];
      k + 1
  }

  /** The interruptions leave something of the timeout. */
  predicate InTime(timeout: Option<nat>, script: seq<Ended>) {
    var k := Interruptions(script);
    timeout.None? || k == 0 || Sum(script[..k]) < timeout.value
  }

  /** After them the system reports an error. */
  predicate Fails(script: seq<Ended>) {
    var k := Interruptions(script);
    k < |script| && script[k] == WaitFailed
  }

  lemma InTimeLater(timeout: nat, script: seq<Ended>)
    requires script != [] && script[0].Interrupted?
    ensures InTime(Some(timeout), script)
            <==> script[0].elapsed < timeout && InTime(Some(timeout - script[0].elapsed), script[1..])
    ensures Fails(script) <==> Fails(script[1..])
  {
    var k := Interruptions(script[1..]);
    var upTo := script[..k + 1];
    assert upTo[0] == script[0] && upTo[1..] == script[1..][..k];
    assert Sum(upTo) == script[0].elapsed + Sum(script[1..][..k]);
    assert Interruptions(script) == k + 1;
    assert k == 0 ==> script[1..][..k] == [];
  }

  /**
   Waiting gives up exactly when the interruptions use the timeout up; otherwise it fails
   exactly when the system reports an error after them. The first wait gets the whole timeout.
   */
  lemma {:induction false} OutcomeIs(timeout: Option<nat>, script: seq<Ended>)
    ensures var waited := Retried(timeout, script);
            && waited.outcome == (if !InTime(timeout, script) then GaveUp else if Fails(script) then Failed else Polled)
            && waited.timeouts != [] && waited.timeouts[0] == timeout
            && (InTime(timeout, script) ==> |waited.timeouts| == Interruptions(script) + 1)
    decreases |script|
  {
    if script != [] && script[0].Interrupted? {
      match timeout
      case None => OutcomeIs(None, script[1..]);
      case Some(t) =>
        InTimeLater(t, script);
        if script[0].elapsed < t {
          OutcomeIs(Some(t - script[0].elapsed), script[1..]);
        }
    }
  }

  /** The retries of a wait after `done` earlier timeouts. */
  function After(done: seq<Option<nat>>, left: Option<nat>, later: seq<Ended>): Waited {
    var rest := Retried(left, later);
    Waited(done + rest.timeouts, rest.outcome)
  }

  lemma AfterInterruption(done: seq<Option<nat>>, left: Option<nat>, later: seq<Ended>)
    requires later != [] && later[0].Interrupted?
    ensures After(done, left, later)
            == if left.Some? && later[0].elapsed >= left.value then Waited(done + [left], GaveUp)
               else After(done + [left], if left.Some? then Some(left.value - later[0].elapsed) else None, later[1..])
  {
  }

  /** The retry loop itself. */
  method Retry(timeout: Option<nat>, script: seq<Ended>) returns (timeouts: seq<Option<nat>>, outcome: Outcome)
    ensures Waited(timeouts, outcome) == Retried(timeout, script)
  {
    timeouts := [];
    var left: Option<nat>, later := timeout, script;
    assert [] + Retried(timeout, script).timeouts == Retried(timeout, script).timeouts;
    while later != [] && later[0].Interrupted?
      invariant Retried(timeout, script) == After(timeouts, left, later)
      decreases |later|
    {
      AfterInterruption(timeouts, left, later);
      timeouts := timeouts + [left];
      if left.Some? {
        if later[0].elapsed >= left.value {
          return timeouts, GaveUp;
        }
        left := Some(left.value - later[0].elapsed);
      }
      later := later[1..];
    }
    timeouts := timeouts + [left];
    outcome := if later != [] && later[0] == WaitFailed then Failed else Polled;
  }
}
