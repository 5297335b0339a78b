/**
 Timers as event sources (src/sources/timer.rs) sharing one wheel: no timer is lost or
 duplicated over any run of registrations, expiries and callbacks.
 */
module TimerRuns {
  import opened Wrappers
  import opened Tokens
  import opened Timers

  type TimerId = nat

  datatype Registration = Registration(token: TokenInner, counter: nat)

  datatype TimerState = TimerState(registration: Option<Registration>, deadline: Option<Instant>)

  /** What the user's callback asks for; a duration may lead past the last instant. */
  datatype TimeoutAction = DropTimer | ToInstant(at: Instant) | ToDuration(sum: Option<Instant>)

  /** When the timer goes on, if it does. */
  function NextDeadline(action: TimeoutAction): Option<Instant> {
    match action
    case DropTimer => None
    case ToInstant(at) => Some(at)
    case ToDuration(sum) => sum
  }

  datatype Wheel = Wheel(heap: seq<TimeoutData>, counter: nat)

  datatype Changed = Changed(state: TimerState, wheel: Wheel)

  /** A timer whose deadline overflowed is not put in the wheel. */
  function RegisterTimer(ts: TimerState, wheel: Wheel, token: TokenInner): Changed {
    match ts.deadline
    case None => Changed(ts, wheel)
    case Some(deadline) =>
      Changed(ts.(registration := Some(Registration(token, wheel.counter))),
              Wheel(wheel.heap + [TimeoutData(deadline, token, wheel.counter)], wheel.counter + 1))
  }

  function UnregisterTimer(ts: TimerState, wheel: Wheel, top: nat): Changed
    requires wheel.heap != [] ==> IsTop(wheel.heap, top)
  {
    match ts.registration
    case None => Changed(ts, wheel)
    case Some(r) =>
      Changed(ts.(registration := None), wheel.(heap := Cancelled(wheel.heap, r.counter, top)))
  }

  /** What a called-back timer does: it is put back under its own counter, or it has to be removed. */
  function AfterCallback(ts: TimerState, wheel: Wheel, action: TimeoutAction): Changed
    requires ts.registration.Some?
  {
    match NextDeadline(action)
    case Some(at) =>
      Changed(ts.(deadline := Some(at)),
              wheel.(heap := wheel.heap
                             + [TimeoutData(at, ts.registration.value.token, ts.registration.value.counter)]))
    case None => Changed(if action.ToDuration? then ts.(deadline := None) else ts, wheel)
  }

  /** Whether an event under `token` makes the timer call its callback. */
  predicate Answers(ts: TimerState, token: TokenInner) {
    ts.registration.Some? && ts.deadline.Some? && ts.registration.value.token == token
  }

  /** The event source, with the wheel it is registered in. */
  class Timer {
    var state: TimerState

    constructor (deadline: Option<Instant>)
      ensures state == TimerState(None, deadline)
    {
      state := TimerState(None, deadline);
    }

    method SetDeadline(deadline: Option<Instant>)
      modifies this
      ensures state == old(state).(deadline := deadline)
    {
      state := state.(deadline := deadline);
    }

    method Register(wheel: TimerWheel, token: TokenInner)
      requires wheel.counter + 1 < U32_COUNT
      modifies this, wheel
      ensures Changed(state, Wheel(wheel.heap, wheel.counter))
              == RegisterTimer(old(state), Wheel(old(wheel.heap), old(wheel.counter)), token)
      ensures state.deadline == old(state).deadline
      ensures var counter := old(wheel.counter);
              match old(state).deadline
              case Some(deadline) =>
                && wheel.heap == old(wheel.heap) + [TimeoutData(deadline, token, counter)]
                && state.registration == Some(Registration(token, counter)) && wheel.counter == counter + 1
              case None => wheel.heap == old(wheel.heap) && state == old(state) && wheel.counter == counter
    {
      if state.deadline.Some? {
        var counter := wheel.Insert(state.deadline.value, token);
        state := state.(registration := Some(Registration(token, counter)));
      }
    }

    /** `top` is the entry that the heap had on top. */
    method Unregister(wheel: TimerWheel) returns (ghost top: nat)
      modifies this, wheel
      ensures old(wheel.heap) != [] ==> IsTop(old(wheel.heap), top)
      ensures Changed(state, Wheel(wheel.heap, wheel.counter))
              == UnregisterTimer(old(state), Wheel(old(wheel.heap), old(wheel.counter)), top)
    {
      ghost var before := wheel.heap;
      if state.registration.Some? {
        var counter := state.registration.value.counter;
        wheel.Cancel(counter);
        top :| (before != [] ==> IsTop(before, top)) && wheel.heap == Cancelled(before, counter, top);
        state := state.(registration := None);
      } else if wheel.heap != [] {
        top := LeastOf(wheel.heap);
      } else {
        top := 0;
      }
    }

    method Reregister(wheel: TimerWheel, token: TokenInner) returns (ghost top: nat)
      requires wheel.counter + 1 < U32_COUNT
      modifies this, wheel
      ensures old(wheel.heap) != [] ==> IsTop(old(wheel.heap), top)
      ensures var gone := UnregisterTimer(old(state), Wheel(old(wheel.heap), old(wheel.counter)), top);
              Changed(state, Wheel(wheel.heap, wheel.counter)) == RegisterTimer(gone.state, gone.wheel, token)
    {
      top := Unregister(wheel);
      Register(wheel, token);
    }

    /**
     Handles an event: `fired` is the deadline that the callback was called with, `action`
     what it returned, `remove` asks the loop to remove the timer.
     */
    method ProcessEvents(wheel: TimerWheel, token: TokenInner, action: TimeoutAction)
      returns (fired: Option<Instant>, remove: bool)
      modifies this, wheel`heap
      ensures var before := Wheel(old(wheel.heap), wheel.counter);
              if Answers(old(state), token) then
                && fired == old(state).deadline && (remove <==> NextDeadline(action).None?)
                && Changed(state, Wheel(wheel.heap, wheel.counter)) == AfterCallback(old(state), before, action)
              else fired == None && !remove && state == old(state) && wheel.heap == old(wheel.heap)
      ensures fired.Some? ==>
                var r := old(state).registration.value;
                && state.registration == Some(r)
                && (match action
                    case ToInstant(at) =>
                      !remove && state.deadline == Some(at) && wheel.heap == old(wheel.heap) + [TimeoutData(at, r.token, r.counter)]
                    case ToDuration(Some(sum)) =>
                      !remove && state.deadline == Some(sum) && wheel.heap == old(wheel.heap) + [TimeoutData(sum, r.token, r.counter)]
                    case ToDuration(None) => remove && state.deadline == None && wheel.heap == old(wheel.heap)
                    case DropTimer => remove && state == old(state) && wheel.heap == old(wheel.heap))
    {
      fired, remove := None, false;
      if state.registration.Some? && state.deadline.Some? {
        var registration := state.registration.value;
        if registration.token != token {
          return;
        }
        fired := state.deadline;
        var at: Instant;
        match action {
          case DropTimer =>
            return fired, true;
          case ToInstant(instant) =>
            at := instant;
          case ToDuration(sum) =>
            if sum.None? {
              state := state.(deadline := None);
              return fired, true;
            }
            at := sum.value;
        }
        wheel.InsertReuse(registration.counter, at, registration.token);
        state := state.(deadline := Some(at));
      }
    }
  }

  // ---------------------------------------------------------------------------
  // Runs of many timers
  // ---------------------------------------------------------------------------

  /** `inFlight` are the expiries that a poll has popped and the loop has not handed on yet. */
  datatype World = World(
    heap: seq<TimeoutData>,
    counter: nat,
    timers: map<TimerId, TimerState>,
    inFlight: seq<TimeoutData>,
    running: Option<TimerId>)

  datatype Step =
    | New(t: TimerId, deadline: Option<Instant>)
    | SetDeadline(t: TimerId, deadline: Option<Instant>)
    | Register(t: TimerId, token: TokenInner)
    | Unregister(t: TimerId, top: nat)
    | Reregister(t: TimerId, token: TokenInner, top: nat)
    | Expire(now: Instant, top: nat)
    | Deliver(to: Option<TimerId>)
    | Finish(action: TimeoutAction, top: nat)
    // An error of some source ends the dispatch, and the events not handled yet are dropped.
    | Abort

  predicate Registered(s: World, t: TimerId) {
    t in s.timers && s.timers[t].registration.Some?
  }

  function RegistrationOf(s: World, t: TimerId): Registration
    requires Registered(s, t)
  {
    s.timers[t].registration.value
  }

  /** No other timer is registered under this token; the loop's tokens are unique. */
  predicate TokenFree(s: World, t: TimerId, token: TokenInner) {
    forall u :: u in s.timers && u != t && Registered(s, u) ==> RegistrationOf(s, u).token != token
  }

  predicate TopOk(s: World, top: nat) {
    s.heap != [] ==> IsTop(s.heap, top)
  }

  /** The timer that an event under `token` is for, when its source looks at it. */
  predicate Hears(s: World, t: TimerId, token: TokenInner) {
    t in s.timers && Answers(s.timers[t], token)
  }

  /** A timer is left alone while its own callback runs: what is asked for then happens afterwards. */
  predicate Enabled(s: World, step: Step) {
    match step
    case New(t, _) => t !in s.timers
    case SetDeadline(t, _) => t in s.timers && s.running != Some(t)
    case Register(t, token) =>
      t in s.timers && s.running != Some(t) && TokenFree(s, t, token) && s.counter + 1 < U32_COUNT
    case Unregister(t, top) => t in s.timers && s.running != Some(t) && TopOk(s, top)
    case Reregister(t, token, top) =>
      t in s.timers && s.running != Some(t) && TopOk(s, top) && TokenFree(s, t, token) && s.counter + 1 < U32_COUNT
    case Expire(now, top) => s.running == None && IsTop(s.heap, top) && s.heap[top].deadline <= now
    case Deliver(to) =>
      && s.running == None && s.inFlight != []
      && (match to
          case Some(t) => Hears(s, t, s.inFlight[0].token)
          case None => forall t :: t in s.timers ==> !Hears(s, t, s.inFlight[0].token))
    case Finish(_, top) => s.running.Some? && Registered(s, s.running.value) && TopOk(s, top)
    case Abort => s.running == None
  }

  function Put(s: World, t: TimerId, changed: Changed): World {
    s.(heap := changed.wheel.heap, counter := changed.wheel.counter, timers := s.timers[t := changed.state])
  }

  function DoRegister(s: World, t: TimerId, token: TokenInner): World
    requires t in s.timers
  {
    Put(s, t, RegisterTimer(s.timers[t], Wheel(s.heap, s.counter), token))
  }

  function DoUnregister(s: World, t: TimerId, top: nat): World
    requires t in s.timers && TopOk(s, top)
  {
    Put(s, t, UnregisterTimer(s.timers[t], Wheel(s.heap, s.counter), top))
  }

  function CalledBack(s: World, u: TimerId, action: TimeoutAction): World
    requires Registered(s, u)
  {
    Put(s, u, AfterCallback(s.timers[u], Wheel(s.heap, s.counter), action)).(running := None)
  }

  function Take(s: World, step: Step): World
    requires Enabled(s, step)
  {
    match step
    case New(t, deadline) => s.(timers := s.timers[t := TimerState(None, deadline)])
    case SetDeadline(t, deadline) => s.(timers := s.timers[t := s.timers[t].(deadline := deadline)])
    case Register(t, token) => DoRegister(s, t, token)
    case Unregister(t, top) => DoUnregister(s, t, top)
    case Reregister(t, token, top) => DoRegister(DoUnregister(s, t, top), t, token)
    case Expire(_, top) => s.(heap := RemoveAt(s.heap, top), inFlight := s.inFlight + [s.heap[top]])
    case Deliver(to) => s.(inFlight := s.inFlight[1..], running := to)
    case Finish(action, top) =>
      var t := s.running.value;
      var after := CalledBack(s, t, action);
      // A timer that is not rescheduled is removed by the loop, which unregisters it.
      if NextDeadline(action).None? then DoUnregister(after, t, top) else after
    case Abort => s.(inFlight := [])
  }

  /** How often a counter occurs in the heap and among the expiries in flight. */
  function Total(s: World, counter: nat): nat {
    Count(s.heap, counter) + Count(s.inFlight, counter)
  }

  predicate TokenInFlight(s: World, token: TokenInner) {
    exists e :: e in s.inFlight && e.token == token
  }

  /**
   The discipline of the statements: a timer is not registered while it has an entry in the
   wheel, it is neither registered nor reregistered while an expiry under the token is in
   flight, a registered timer's deadline is not set past the last instant, and no dispatch
   ends with an error while the expiry of a registered timer is in flight.
   */
  predicate Careful(s: World, step: Step) {
    match step
    case Register(t, token) =>
      t in s.timers && s.timers[t].deadline.Some? ==>
        && (Registered(s, t) ==> Count(s.heap, RegistrationOf(s, t).counter) == 0)
        && !TokenInFlight(s, token)
    case Reregister(t, token, _) => t in s.timers && s.timers[t].deadline.Some? ==> !TokenInFlight(s, token)
    case SetDeadline(t, deadline) => Registered(s, t) ==> deadline.Some?
    case Abort => forall t :: t in s.timers && Registered(s, t) ==> Count(s.inFlight, RegistrationOf(s, t).counter) == 0
    case _ => true
  }

  predicate Owns(s: World, t: TimerId, e: TimeoutData) {
    Registered(s, t) && RegistrationOf(s, t) == Registration(e.token, e.counter)
  }

  predicate RegistrationsDistinct(s: World) {
    && (forall t :: t in s.timers && Registered(s, t) ==>
                      RegistrationOf(s, t).counter < s.counter && s.timers[t].deadline.Some?)
    && (forall t, u :: t in s.timers && u in s.timers && t != u && Registered(s, t) && Registered(s, u) ==>
                         && RegistrationOf(s, t).counter != RegistrationOf(s, u).counter
                         && RegistrationOf(s, t).token != RegistrationOf(s, u).token)
  }

  /** Every registered timer occurs once, except during its own callback, when it occurs nowhere. */
  predicate OnceEach(s: World) {
    forall t :: t in s.timers && Registered(s, t) ==>
                  Total(s, RegistrationOf(s, t).counter) == if s.running == Some(t) then 0 else 1
  }

  predicate HeapOwned(s: World) {
    forall e :: e in s.heap ==> exists t :: t in s.timers && Owns(s, t, e)
  }

  /** An expiry in flight is a registered timer's own or carries nothing of it. */
  predicate InFlightClear(s: World) {
    forall e :: e in s.inFlight ==>
                  && e.counter < s.counter
                  && forall t :: t in s.timers && Registered(s, t) ==>
                                   (RegistrationOf(s, t).counter == e.counter <==> RegistrationOf(s, t).token == e.token)
  }

  predicate Invariant(s: World) {
    && RegistrationsDistinct(s) && OnceEach(s) && HeapOwned(s) && InFlightClear(s)
    && (s.running.Some? ==> Registered(s, s.running.value))
  }

  lemma FreshCounter(s: World)
    requires Invariant(s)
    ensures Total(s, s.counter) == 0
  {
    CountPositive(s.heap, s.counter);
    CountPositive(s.inFlight, s.counter);
    forall e | e in s.heap
      ensures e.counter != s.counter
    {
      var t :| t in s.timers && Owns(s, t, e);
    }
  }

  lemma OneMore(entries: seq<TimeoutData>, e: TimeoutData)
    ensures forall c :: Count(entries + [e], c) == Count(entries, c) + if e.counter == c then 1 else 0
  {
    forall c
      ensures Count(entries + [e], c) == Count(entries, c) + if e.counter == c then 1 else 0
    {
      CountAppends(entries, [e], c);
      assert [e][1..] == [];
    }
  }

  lemma RegisteredOnce(s: World, t: TimerId, token: TokenInner)
    requires Invariant(s) && t in s.timers && s.running != Some(t) && s.timers[t].deadline.Some?
    ensures OnceEach(DoRegister(s, t, token))
  {
    FreshCounter(s);
    OneMore(s.heap, TimeoutData(s.timers[t].deadline.value, token, s.counter));
    var after := DoRegister(s, t, token);
    forall u | u in after.timers && Registered(after, u)
      ensures Total(after, RegistrationOf(after, u).counter) == if after.running == Some(u) then 0 else 1
    {
      if u != t {
        assert Registered(s, u) && RegistrationOf(s, u) == RegistrationOf(after, u);
      }
    }
  }

  lemma RegisteredHeapOwned(s: World, t: TimerId, token: TokenInner)
    requires Invariant(s) && t in s.timers && s.timers[t].deadline.Some?
    requires Registered(s, t) ==> Count(s.heap, RegistrationOf(s, t).counter) == 0
    ensures HeapOwned(DoRegister(s, t, token))
  {
    if Registered(s, t) {
      CountPositive(s.heap, RegistrationOf(s, t).counter);
    }
    var after := DoRegister(s, t, token);
    forall e | e in after.heap
      ensures exists u :: u in after.timers && Owns(after, u, e)
    {
      if e in s.heap {
        var u :| u in s.timers && Owns(s, u, e);
        assert u in after.timers && Owns(after, u, e);
      } else {
        assert t in after.timers && Owns(after, t, e);
      }
    }
  }

  lemma RegisterKeeps(s: World, t: TimerId, token: TokenInner)
    requires Invariant(s) && t in s.timers && s.running != Some(t) && TokenFree(s, t, token)
    requires s.timers[t].deadline.Some? ==>
               (Registered(s, t) ==> Count(s.heap, RegistrationOf(s, t).counter) == 0) && !TokenInFlight(s, token)
    ensures Invariant(DoRegister(s, t, token))
  {
    if s.timers[t].deadline.Some? {
      RegisteredOnce(s, t, token);
      RegisteredHeapOwned(s, t, token);
      var after := DoRegister(s, t, token);
      assert forall u :: u in after.timers && u != t ==> after.timers[u] == s.timers[u];
    } else {
      assert s.timers[t := s.timers[t]] == s.timers;
    }
  }

  lemma UnregisteredHeap(s: World, t: TimerId, top: nat)
    requires Invariant(s) && Registered(s, t) && TopOk(s, top)
    ensures var after := DoUnregister(s, t, top);
            && Count(after.heap, RegistrationOf(s, t).counter) == 0
            && (forall c :: c != RegistrationOf(s, t).counter ==> Total(after, c) == Total(s, c))
            && (forall e :: e in after.heap ==> exists u :: u in after.timers && Owns(after, u, e))
  {
    var counter := RegistrationOf(s, t).counter;
    var after := DoUnregister(s, t, top);
    CancelCounts(s.heap, counter, top);
    CountPositive(after.heap, counter);
    forall e | e in after.heap
      ensures exists u :: u in after.timers && Owns(after, u, e)
    {
      var u :| u in s.timers && Owns(s, u, e);
      assert u in after.timers && Owns(after, u, e);
    }
  }

  lemma FewerRegistrations(s: World, after: World, t: TimerId)
    requires Invariant(s) && Registered(s, t)
    requires after.timers == s.timers[t := s.timers[t].(registration := None)]
    requires after.counter == s.counter && after.inFlight == s.inFlight
    ensures RegistrationsDistinct(after) && InFlightClear(after)
  {
  }

  lemma UnregisterKeeps(s: World, t: TimerId, top: nat)
    requires Invariant(s) && t in s.timers && TopOk(s, top)
    ensures Invariant(DoUnregister(s, t, top).(running := if s.running == Some(t) then None else s.running))
    ensures Registered(s, t) ==> Count(DoUnregister(s, t, top).heap, RegistrationOf(s, t).counter) == 0
  {
    if Registered(s, t) {
      UnregisteredHeap(s, t, top);
      var gone := DoUnregister(s, t, top);
      var after := gone.(running := if s.running == Some(t) then None else s.running);
      FewerRegistrations(s, after, t);
      forall u | u in after.timers && Registered(after, u)
        ensures Total(after, RegistrationOf(after, u).counter) == if after.running == Some(u) then 0 else 1
      {
        assert u != t && Registered(s, u) && RegistrationOf(s, u) == RegistrationOf(after, u);
        assert Total(gone, RegistrationOf(s, u).counter) == Total(s, RegistrationOf(s, u).counter);
      }
      forall e | e in after.heap
        ensures exists u :: u in after.timers && Owns(after, u, e)
      {
        var u :| u in gone.timers && Owns(gone, u, e);
        assert u in after.timers && Owns(after, u, e);
      }
    }
  }

  lemma ExpireKeeps(s: World, now: Instant, top: nat)
    requires Invariant(s) && Enabled(s, Expire(now, top))
    ensures Invariant(Take(s, Expire(now, top)))
  {
    var after := Take(s, Expire(now, top));
    OneMore(s.inFlight, s.heap[top]);
    forall c
      ensures Total(after, c) == Total(s, c)
    {
      CountRemoved(s.heap, top, c);
    }
    forall e | e in after.heap
      ensures exists t :: t in after.timers && Owns(after, t, e)
    {
      assert e in s.heap;
      var t :| t in s.timers && Owns(s, t, e);
      assert t in after.timers && Owns(after, t, e);
    }
    assert s.heap[top] in s.heap;
    var owner :| owner in s.timers && Owns(s, owner, s.heap[top]);
    forall t | t in s.timers && Registered(s, t)
      ensures RegistrationOf(s, t).counter == s.heap[top].counter <==> RegistrationOf(s, t).token == s.heap[top].token
    {
    }
  }

  lemma DeliverKeeps(s: World, to: Option<TimerId>)
    requires Invariant(s) && Enabled(s, Deliver(to))
    ensures Invariant(Take(s, Deliver(to)))
  {
    var after := Take(s, Deliver(to));
    var e := s.inFlight[0];
    assert e in s.inFlight;
    forall c
      ensures Count(s.inFlight, c) == Count(after.inFlight, c) + if e.counter == c then 1 else 0
    {
    }
    forall x | x in after.heap
      ensures exists t :: t in after.timers && Owns(after, t, x)
    {
      var t :| t in s.timers && Owns(s, t, x);
      assert t in after.timers && Owns(after, t, x);
    }
    assert forall t :: t in s.timers && Registered(s, t) && RegistrationOf(s, t).token == e.token ==> Hears(s, t, e.token);
  }

  lemma GoesOnKeeps(s: World, at: Instant)
    requires Invariant(s) && s.running.Some?
    ensures var t := s.running.value;
            Invariant(s.(running := None,
                         heap := s.heap + [TimeoutData(at, RegistrationOf(s, t).token, RegistrationOf(s, t).counter)],
                         timers := s.timers[t := s.timers[t].(deadline := Some(at))]))
  {
    var t := s.running.value;
    var entry := TimeoutData(at, RegistrationOf(s, t).token, RegistrationOf(s, t).counter);
    var after := s.(running := None, heap := s.heap + [entry], timers := s.timers[t := s.timers[t].(deadline := Some(at))]);
    OneMore(s.heap, entry);
    forall e | e in after.heap
      ensures exists u :: u in after.timers && Owns(after, u, e)
    {
      if e in s.heap {
        var u :| u in s.timers && Owns(s, u, e);
        assert u in after.timers && Owns(after, u, e);
      } else {
        assert t in after.timers && Owns(after, t, e);
      }
    }
  }

  /** Leaving the callback and setting the deadline commute with unregistration. */
  lemma UnregisterCommutes(s: World, t: TimerId, deadline: Option<Instant>, top: nat)
    requires t in s.timers && TopOk(s, top)
    ensures var gone := DoUnregister(s, t, top).(running := None);
            t in gone.timers
            && DoUnregister(s.(running := None, timers := s.timers[t := s.timers[t].(deadline := deadline)]), t, top)
               == gone.(timers := gone.timers[t := gone.timers[t].(deadline := deadline)])
  {
  }

  /** The loop removes a timer after its callback; its deadline does not matter any more. */
  lemma RemovedKeeps(s: World, deadline: Option<Instant>, top: nat)
    requires Invariant(s) && s.running.Some? && TopOk(s, top)
    ensures var t := s.running.value;
            Invariant(DoUnregister(s.(running := None, timers := s.timers[t := s.timers[t].(deadline := deadline)]), t, top))
  {
    var t := s.running.value;
    UnregisterKeeps(s, t, top);
    UnregisterCommutes(s, t, deadline, top);
    DeadlineIrrelevant(DoUnregister(s, t, top).(running := None), t, deadline);
  }

  /** The deadline field alone decides nothing for a timer that is not registered, or keeps one. */
  lemma DeadlineIrrelevant(s: World, t: TimerId, deadline: Option<Instant>)
    requires Invariant(s) && t in s.timers && (Registered(s, t) ==> deadline.Some?)
    ensures Invariant(s.(timers := s.timers[t := s.timers[t].(deadline := deadline)]))
  {
    var after := s.(timers := s.timers[t := s.timers[t].(deadline := deadline)]);
    forall e | e in after.heap
      ensures exists u :: u in after.timers && Owns(after, u, e)
    {
      var u :| u in s.timers && Owns(s, u, e);
      assert u in after.timers && Owns(after, u, e);
    }
  }

  lemma NewKeeps(s: World, t: TimerId, deadline: Option<Instant>)
    requires Invariant(s) && t !in s.timers
    ensures Invariant(s.(timers := s.timers[t := TimerState(None, deadline)]))
  {
    var after := s.(timers := s.timers[t := TimerState(None, deadline)]);
    forall e | e in after.heap
      ensures exists u :: u in after.timers && Owns(after, u, e)
    {
      var u :| u in s.timers && Owns(s, u, e);
      assert u in after.timers && Owns(after, u, e);
    }
  }

  lemma FinishKeeps(s: World, action: TimeoutAction, top: nat)
    requires Invariant(s) && Enabled(s, Finish(action, top))
    ensures Invariant(Take(s, Finish(action, top)))
  {
    var t := s.running.value;
    match NextDeadline(action)
    case Some(at) => GoesOnKeeps(s, at);
    case None =>
      RemovedKeeps(s, if action.ToDuration? then None else s.timers[t].deadline, top);
      assert s.timers[t := s.timers[t].(deadline := s.timers[t].deadline)] == s.timers[t := s.timers[t]];
  }

  lemma StepKeeps(s: World, step: Step)
    requires Invariant(s) && Enabled(s, step) && Careful(s, step)
    ensures Invariant(Take(s, step))
  {
    match step
    case New(t, deadline) => NewKeeps(s, t, deadline);
    case SetDeadline(t, deadline) => DeadlineIrrelevant(s, t, deadline);
    case Register(t, token) => RegisterKeeps(s, t, token);
    case Unregister(t, top) => UnregisterKeeps(s, t, top);
    case Reregister(t, token, top) =>
      UnregisterKeeps(s, t, top);
      RegisterKeeps(DoUnregister(s, t, top), t, token);
    case Expire(now, top) => ExpireKeeps(s, now, top);
    case Deliver(to) => DeliverKeeps(s, to);
    case Finish(action, top) => FinishKeeps(s, action, top);
    case Abort => AbortKeepsIff(s);
  }

  /** A dispatch may end with an error exactly while no registered timer has its expiry in flight. */
  lemma AbortKeepsIff(s: World)
    requires Invariant(s) && Enabled(s, Abort)
    ensures Invariant(Take(s, Abort)) <==> Careful(s, Abort)
  {
    var after := Take(s, Abort);
    forall e | e in after.heap
      ensures exists t :: t in after.timers && Owns(after, t, e)
    {
      var t :| t in s.timers && Owns(s, t, e);
      assert t in after.timers && Owns(after, t, e);
    }
    forall t | t in s.timers && Registered(s, t)
      ensures Total(after, RegistrationOf(s, t).counter) == 1 <==> Count(s.inFlight, RegistrationOf(s, t).counter) == 0
    {
      assert Total(s, RegistrationOf(s, t).counter) == 1;
    }
    if Invariant(after) {
      forall t | t in s.timers && Registered(s, t)
        ensures Count(s.inFlight, RegistrationOf(s, t).counter) == 0
      {
        assert Registered(after, t) && RegistrationOf(after, t) == RegistrationOf(s, t);
      }
    }
  }

  const EMPTY := World([], 0, map[], [], None)

  predicate Legal(s: World, steps: seq<Step>)
    decreases |steps|
  {
    steps == []
    || (Enabled(s, steps[0]) && Careful(s, steps[0]) && Legal(Take(s, steps[0]), steps[1..]))
  }

  function Run(s: World, steps: seq<Step>): World
    requires Legal(s, steps)
    decreases |steps|
  {
    if steps == [] then s else Run(Take(s, steps[0]), steps[1..])
  }

  lemma {:induction false} RunKeeps(s: World, steps: seq<Step>)
    requires Invariant(s) && Legal(s, steps)
    ensures Invariant(Run(s, steps))
    decreases |steps|
  {
    if steps != [] {
      StepKeeps(s, steps[0]);
      RunKeeps(Take(s, steps[0]), steps[1..]);
    }
  }

  /**
   A cancelled counter is gone from the wheel. An expiry of it that is already in flight
   stays there, and nobody answers to it any more.
   */
  lemma CancelledIsSilent(s: World, t: TimerId, top: nat)
    requires Invariant(s) && Enabled(s, Unregister(t, top)) && Registered(s, t)
    ensures var after, counter := Take(s, Unregister(t, top)), RegistrationOf(s, t).counter;
            && (Total(after, counter) == 0 <==> Count(s.inFlight, counter) == 0)
            && Count(after.heap, counter) == 0
            && forall e, u :: e in after.inFlight && e.counter == counter ==> !Hears(after, u, e.token)
  {
    UnregisterKeeps(s, t, top);
    var after, counter := Take(s, Unregister(t, top)), RegistrationOf(s, t).counter;
    forall e, u | e in after.inFlight && e.counter == counter
      ensures !Hears(after, u, e.token)
    {
      assert e in s.inFlight && e.token == RegistrationOf(s, t).token;
      assert u != t && Registered(s, u) ==> RegistrationOf(s, u).token != e.token;
    }
  }

  /**
   In every careful run no timer is lost or duplicated: a registered timer's counter occurs
   exactly once in the wheel and in flight (nowhere during its own callback), the wheel
   holds nothing else, and what else is in flight carries nobody's counter and nobody's token.
   */
  lemma NoTimerLostOrDuplicated(steps: seq<Step>)
    requires Legal(EMPTY, steps)
    ensures var s := Run(EMPTY, steps);
            OnceEach(s) && HeapOwned(s) && InFlightClear(s) && RegistrationsDistinct(s)
  {
    RunKeeps(EMPTY, steps);
  }

  /** The discipline is exact: registering a timer keeps the wheel in order only when it is careful. */
  lemma RegisterKeepsIff(s: World, t: TimerId, token: TokenInner)
    requires Invariant(s) && Enabled(s, Register(t, token))
    ensures Invariant(Take(s, Register(t, token))) <==> Careful(s, Register(t, token))
  {
    if Careful(s, Register(t, token)) {
      RegisterKeeps(s, t, token);
    } else {
      var after := Take(s, Register(t, token));
      if TokenInFlight(s, token) {
        var e :| e in s.inFlight && e.token == token;
        assert e in after.inFlight && RegistrationOf(after, t).token == e.token;
        assert RegistrationOf(after, t).counter != e.counter;
      } else {
        OrphanLeft(s, t, token);
      }
    }
  }

  /** Enabling an enabled timer leaves an entry that no timer owns. */
  lemma OrphanLeft(s: World, t: TimerId, token: TokenInner)
    requires Invariant(s) && Enabled(s, Register(t, token)) && s.timers[t].deadline.Some?
    requires Registered(s, t) && Count(s.heap, RegistrationOf(s, t).counter) > 0
    ensures !HeapOwned(Take(s, Register(t, token)))
  {
    var after := Take(s, Register(t, token));
    CountPositive(s.heap, RegistrationOf(s, t).counter);
    var e :| e in s.heap && e.counter == RegistrationOf(s, t).counter;
    assert e in after.heap;
    assert forall u :: u in after.timers ==> !Owns(after, u, e);
  }

  /** Reregistering keeps the wheel in order exactly when no expiry under the new token is in flight. */
  lemma ReregisterKeepsIff(s: World, t: TimerId, token: TokenInner, top: nat)
    requires Invariant(s) && Enabled(s, Reregister(t, token, top))
    ensures Invariant(Take(s, Reregister(t, token, top))) <==> Careful(s, Reregister(t, token, top))
  {
    UnregisterKeeps(s, t, top);
    var cancelled := DoUnregister(s, t, top);
    assert Enabled(cancelled, Register(t, token));
    RegisterKeepsIff(cancelled, t, token);
  }

  /** The discipline is exact: of all steps that can happen, the careful ones keep the invariant and no others. */
  lemma StepKeepsIff(s: World, step: Step)
    requires Invariant(s) && Enabled(s, step)
    ensures Invariant(Take(s, step)) <==> Careful(s, step)
  {
    if Careful(s, step) {
      StepKeeps(s, step);
    } else {
      match step
      case Register(t, token) => RegisterKeepsIff(s, t, token);
      case Reregister(t, token, top) => ReregisterKeepsIff(s, t, token, top);
      case SetDeadline(t, _) => assert Registered(Take(s, step), t);
      case Abort => AbortKeepsIff(s);
    }
  }

  // ---------------------------------------------------------------------------
  // Timers fire when they are due
  // ---------------------------------------------------------------------------

  /** When each timer was last set to fire: by a registration, at its deadline, or by its callback. */
  function ArmedAfter(s: World, armed: map<TimerId, Instant>, step: Step): map<TimerId, Instant> {
    match step
    case Register(t, _) =>
      if t in s.timers && s.timers[t].deadline.Some? then armed[t := s.timers[t].deadline.value] else armed
    case Reregister(t, _, _) =>
      if t in s.timers && s.timers[t].deadline.Some? then armed[t := s.timers[t].deadline.value] else armed
    case Finish(ToInstant(at), _) => if s.running.Some? then armed[s.running.value := at] else armed
    case Finish(ToDuration(Some(sum)), _) => if s.running.Some? then armed[s.running.value := sum] else armed
    case _ => armed
  }

  function Armed(s: World, armed: map<TimerId, Instant>, steps: seq<Step>): map<TimerId, Instant>
    requires Legal(s, steps)
    decreases |steps|
  {
    if steps == [] then armed else Armed(Take(s, steps[0]), ArmedAfter(s, armed, steps[0]), steps[1..])
  }

  /** Every entry of a registered timer carries the moment it was set to. */
  predicate AsArmed(s: World, armed: map<TimerId, Instant>) {
    forall t :: t in s.timers && Registered(s, t) ==>
                  && t in armed
                  && forall e :: e in s.heap + s.inFlight && e.token == RegistrationOf(s, t).token ==> e.deadline == armed[t]
  }

  /** Some poll that the past holds was at or after this moment. */
  predicate PolledBy(past: seq<Step>, at: Instant) {
    exists j :: 0 <= j < |past| && past[j].Expire? && past[j].now >= at
  }

  predicate InFlightDue(s: World, past: seq<Step>) {
    forall e :: e in s.inFlight ==> PolledBy(past, e.deadline)
  }

  /** In a consistent world no entry elsewhere carries the token of a timer without entries. */
  lemma NoEntry(s: World, t: TimerId)
    requires Invariant(s) && Registered(s, t) && Count(s.heap, RegistrationOf(s, t).counter) == 0
    ensures forall e :: e in s.heap ==> e.token != RegistrationOf(s, t).token
    ensures s.running == Some(t) ==> forall e :: e in s.inFlight ==> e.token != RegistrationOf(s, t).token
  {
    CountPositive(s.heap, RegistrationOf(s, t).counter);
    CountPositive(s.inFlight, RegistrationOf(s, t).counter);
    forall e | e in s.heap
      ensures e.token != RegistrationOf(s, t).token
    {
      var u :| u in s.timers && Owns(s, u, e);
    }
    if s.running == Some(t) {
      assert Total(s, RegistrationOf(s, t).counter) == 0;
    }
  }

  lemma ArmedRegister(s: World, armed: map<TimerId, Instant>, t: TimerId, token: TokenInner)
    requires Invariant(s) && AsArmed(s, armed) && Enabled(s, Register(t, token)) && Careful(s, Register(t, token))
    ensures AsArmed(DoRegister(s, t, token), ArmedAfter(s, armed, Register(t, token)))
  {
    if s.timers[t].deadline.Some? {
      var after := DoRegister(s, t, token);
      if Registered(s, t) {
        NoEntry(s, t);
      }
      forall e | e in s.heap
        ensures e.token != token
      {
        var u :| u in s.timers && Owns(s, u, e);
      }
      forall u | u in after.timers && Registered(after, u) && u != t
        ensures Registered(s, u) && RegistrationOf(after, u) == RegistrationOf(s, u) && RegistrationOf(s, u).token != token
      {
      }
    } else {
      assert s.timers[t := s.timers[t]] == s.timers;
    }
  }

  lemma ArmedUnregister(s: World, armed: map<TimerId, Instant>, t: TimerId, top: nat)
    requires Invariant(s) && AsArmed(s, armed) && t in s.timers && TopOk(s, top)
    ensures AsArmed(DoUnregister(s, t, top), armed)
  {
    if Registered(s, t) {
      CancelCounts(s.heap, RegistrationOf(s, t).counter, top);
    }
  }

  lemma ArmedCalledBack(s: World, armed: map<TimerId, Instant>, action: TimeoutAction, top: nat)
    requires Invariant(s) && AsArmed(s, armed) && Enabled(s, Finish(action, top))
    requires Careful(s, Finish(action, top))
    ensures AsArmed(CalledBack(s, s.running.value, action), ArmedAfter(s, armed, Finish(action, top)))
  {
    var t := s.running.value;
    assert Total(s, RegistrationOf(s, t).counter) == 0;
    NoEntry(s, t);
    var after := CalledBack(s, t, action);
    assert forall u :: u in s.timers ==> after.timers[u].registration == s.timers[u].registration;
    forall e | e in after.heap + after.inFlight
      ensures e in s.heap + s.inFlight || (NextDeadline(action).Some? && e.token == RegistrationOf(s, t).token
                                           && e.deadline == NextDeadline(action).value)
    {
    }
  }

  lemma ArmedRemoved(s: World, armed: map<TimerId, Instant>, action: TimeoutAction, top: nat)
    requires Enabled(s, Finish(action, top)) && NextDeadline(action).None?
    requires AsArmed(CalledBack(s, s.running.value, action), armed)
    ensures AsArmed(Take(s, Finish(action, top)), armed)
  {
    var t, after := s.running.value, CalledBack(s, s.running.value, action);
    CancelCounts(after.heap, RegistrationOf(after, t).counter, top);
  }

  lemma ArmedReregister(s: World, armed: map<TimerId, Instant>, t: TimerId, token: TokenInner, top: nat)
    requires Invariant(s) && AsArmed(s, armed)
    requires Enabled(s, Reregister(t, token, top)) && Careful(s, Reregister(t, token, top))
    ensures AsArmed(Take(s, Reregister(t, token, top)), ArmedAfter(s, armed, Reregister(t, token, top)))
  {
    ArmedUnregister(s, armed, t, top);
    UnregisterKeeps(s, t, top);
    var gone := DoUnregister(s, t, top);
    assert Enabled(gone, Register(t, token)) && Careful(gone, Register(t, token));
    ArmedRegister(gone, armed, t, token);
  }

  lemma ArmedStep(s: World, armed: map<TimerId, Instant>, step: Step)
    requires Invariant(s) && AsArmed(s, armed) && Enabled(s, step) && Careful(s, step)
    ensures AsArmed(Take(s, step), ArmedAfter(s, armed, step))
  {
    match step
    case Register(t, token) => ArmedRegister(s, armed, t, token);
    case Unregister(t, top) => ArmedUnregister(s, armed, t, top);
    case Reregister(t, token, top) => ArmedReregister(s, armed, t, token, top);
    case Finish(action, top) =>
      ArmedCalledBack(s, armed, action, top);
      if NextDeadline(action).None? {
        ArmedRemoved(s, armed, action, top);
      }
    case Expire(_, top) => assert s.heap[top] in s.heap;
    case _ =>
  }

  lemma DueStep(s: World, past: seq<Step>, step: Step)
    requires InFlightDue(s, past) && Enabled(s, step)
    ensures InFlightDue(Take(s, step), past + [step])
  {
    forall e | e in Take(s, step).inFlight
      ensures PolledBy(past + [step], e.deadline)
    {
      if e in s.inFlight {
        var j :| 0 <= j < |past| && past[j].Expire? && past[j].now >= e.deadline;
        assert (past + [step])[j] == past[j];
      } else {
        assert (past + [step])[|past|] == step;
      }
    }
  }

  lemma {:induction false} RunArmed(s: World, armed: map<TimerId, Instant>, past: seq<Step>, steps: seq<Step>)
    requires Invariant(s) && AsArmed(s, armed) && InFlightDue(s, past) && Legal(s, steps)
    ensures AsArmed(Run(s, steps), Armed(s, armed, steps)) && InFlightDue(Run(s, steps), past + steps)
    decreases |steps|
  {
    if steps == [] {
      assert past + steps == past;
    } else {
      StepKeeps(s, steps[0]);
      ArmedStep(s, armed, steps[0]);
      DueStep(s, past, steps[0]);
      RunArmed(Take(s, steps[0]), ArmedAfter(s, armed, steps[0]), past + [steps[0]], steps[1..]);
      assert past + [steps[0]] + steps[1..] == past + steps;
    }
  }

  /**
   In every careful run a registered timer has its entry in the wheel or in flight under the
   very moment it was last set to, by registration or by its callback, and when its callback
   can be called some poll was at or after that moment.
   */
  lemma FiresWhenDue(steps: seq<Step>, t: TimerId)
    requires Legal(EMPTY, steps)
    ensures var s, armed := Run(EMPTY, steps), Armed(EMPTY, map[], steps);
            && (Registered(s, t) && s.running != Some(t) ==>
                  t in armed && exists e :: e in s.heap + s.inFlight && Owns(s, t, e) && e.deadline == armed[t])
            && (Enabled(s, Deliver(Some(t))) ==> t in armed && PolledBy(steps, armed[t]))
  {
    RunKeeps(EMPTY, steps);
    RunArmed(EMPTY, map[], [], steps);
    assert [] + steps == steps;
    var s, armed := Run(EMPTY, steps), Armed(EMPTY, map[], steps);
    if Registered(s, t) && s.running != Some(t) {
      OwnEntry(s, t);
    }
    if Enabled(s, Deliver(Some(t))) {
      assert s.inFlight[0] in s.inFlight && s.inFlight[0] in s.heap + s.inFlight;
    }
  }

  lemma OwnEntry(s: World, t: TimerId)
    requires Invariant(s) && Registered(s, t) && s.running != Some(t)
    ensures exists e :: e in s.heap + s.inFlight && Owns(s, t, e)
  {
    var counter := RegistrationOf(s, t).counter;
    assert Total(s, counter) == 1;
    CountPositive(s.heap, counter);
    CountPositive(s.inFlight, counter);
    var e :| e in s.heap + s.inFlight && e.counter == counter;
    if e in s.heap {
      var u :| u in s.timers && Owns(s, u, e);
      assert u == t;
    }
    assert Owns(s, t, e);
  }

  // ---------------------------------------------------------------------------
  // What an error in a dispatch costs
  // ---------------------------------------------------------------------------

  /** The steps can happen one after the other, careful or not. */
  predicate AllEnabled(s: World, steps: seq<Step>)
    decreases |steps|
  {
    steps == [] || (Enabled(s, steps[0]) && AllEnabled(Take(s, steps[0]), steps[1..]))
  }

  predicate RegistersAnew(step: Step, t: TimerId) {
    (step.Register? || step.Reregister?) && step.t == t
  }

  /** No entry anywhere carries the token of `t`, and no other timer is registered under it. */
  predicate Lost(s: World, t: TimerId) {
    && s.running != Some(t)
    && (forall u, v :: u in s.timers && v in s.timers && u != v && Registered(s, u) && Registered(s, v) ==>
                         RegistrationOf(s, u).token != RegistrationOf(s, v).token)
    && (Registered(s, t) ==> forall e :: e in s.heap + s.inFlight ==> e.token != RegistrationOf(s, t).token)
  }

  /** A registered timer whose expiry is in flight when an error ends the dispatch has no entry left anywhere. */
  lemma AbortLoses(s: World, t: TimerId)
    requires Invariant(s) && Enabled(s, Abort) && Registered(s, t)
    requires Count(s.inFlight, RegistrationOf(s, t).counter) > 0
    ensures var after := Take(s, Abort);
            Lost(after, t) && Registered(after, t) && Total(after, RegistrationOf(s, t).counter) == 0
  {
    var after, r := Take(s, Abort), RegistrationOf(s, t);
    assert Total(s, r.counter) == 1;
    CountPositive(s.heap, r.counter);
    forall e | e in s.heap
      ensures e.token != r.token
    {
      var u :| u in s.timers && Owns(s, u, e);
    }
  }

  lemma LostUnregistered(s: World, u: TimerId, top: nat, t: TimerId)
    requires Lost(s, t) && u in s.timers && TopOk(s, top)
    ensures Lost(DoUnregister(s, u, top), t)
  {
    if Registered(s, u) {
      CancelCounts(s.heap, RegistrationOf(s, u).counter, top);
    }
  }

  lemma LostRegistered(s: World, u: TimerId, token: TokenInner, t: TimerId)
    requires Lost(s, t) && u in s.timers && u != t && TokenFree(s, u, token)
    ensures Lost(DoRegister(s, u, token), t)
  {
  }

  lemma LostCalledBack(s: World, u: TimerId, action: TimeoutAction, t: TimerId)
    requires Lost(s, t) && Registered(s, u) && u != t
    ensures Lost(CalledBack(s, u, action), t)
  {
    var after := CalledBack(s, u, action);
    assert forall v :: v in s.timers ==> after.timers[v].registration == s.timers[v].registration;
    assert forall e :: e in after.heap ==> e in s.heap || e.token == RegistrationOf(s, u).token;
  }

  lemma LostFinished(s: World, action: TimeoutAction, top: nat, t: TimerId)
    requires Lost(s, t) && Enabled(s, Finish(action, top))
    ensures Lost(Take(s, Finish(action, top)), t)
  {
    var u := s.running.value;
    LostCalledBack(s, u, action, t);
    if NextDeadline(action).None? {
      LostUnregistered(CalledBack(s, u, action), u, top, t);
    }
  }

  lemma LostStays(s: World, step: Step, t: TimerId)
    requires Lost(s, t) && Enabled(s, step) && !RegistersAnew(step, t)
    ensures Lost(Take(s, step), t) && step != Deliver(Some(t))
  {
    match step
    case Register(u, token) => LostRegistered(s, u, token, t);
    case Unregister(u, top) => LostUnregistered(s, u, top, t);
    case Reregister(u, token, top) =>
      LostUnregistered(s, u, top, t);
      LostRegistered(DoUnregister(s, u, top), u, token, t);
    case Finish(action, top) => LostFinished(s, action, top, t);
    case Deliver(_) => assert s.inFlight[0] in s.inFlight;
    case Expire(_, top) => assert s.heap[top] in s.heap;
    case _ =>
  }

  /** Such a timer never fires again, whatever happens, unless somebody registers it anew. */
  lemma {:induction false} NeverFiresAgain(s: World, t: TimerId, steps: seq<Step>)
    requires Lost(s, t) && AllEnabled(s, steps)
    requires forall step :: step in steps ==> !RegistersAnew(step, t)
    ensures Deliver(Some(t)) !in steps
    decreases |steps|
  {
    if steps != [] {
      assert steps[0] in steps;
      LostStays(s, steps[0], t);
      NeverFiresAgain(Take(s, steps[0]), t, steps[1..]);
      assert steps == [steps[0]] + steps[1..];
    }
  }

  // ---------------------------------------------------------------------------
  // Between two polls
  // ---------------------------------------------------------------------------

  predicate NoExpire(steps: seq<Step>) {
    forall step :: step in steps ==> !step.Expire?
  }

  /** How often the callback of `t` is called in a run. */
  function Fires(s: World, steps: seq<Step>, t: TimerId): nat
    requires Legal(s, steps)
    decreases |steps|
  {
    if steps == [] then 0
    else (if steps[0] == Deliver(Some(t)) then 1 else 0) + Fires(Take(s, steps[0]), steps[1..], t)
  }

  function Owed(s: World, t: TimerId): nat {
    if Registered(s, t) then Count(s.inFlight, RegistrationOf(s, t).counter) else 0
  }

  lemma OwedShrinks(s: World, step: Step, t: TimerId)
    requires Invariant(s) && Enabled(s, step) && Careful(s, step) && !step.Expire?
    ensures Owed(Take(s, step), t) + (if step == Deliver(Some(t)) then 1 else 0) <= Owed(s, t)
  {
    FreshCounter(s);
    match step
    case Deliver(_) => assert s.inFlight[0] in s.inFlight;
    case _ =>
  }

  /**
   Between two polls a timer fires once at most, even when its callback reschedules it into
   the past: what it puts into the wheel waits for the next poll.
   */
  lemma {:induction false} FiresOncePerPoll(s: World, steps: seq<Step>, t: TimerId)
    requires Invariant(s) && Legal(s, steps) && NoExpire(steps)
    ensures Fires(s, steps, t) <= Owed(s, t) <= 1
    decreases |steps|
  {
    if steps != [] {
      OwedShrinks(s, steps[0], t);
      StepKeeps(s, steps[0]);
      FiresOncePerPoll(Take(s, steps[0]), steps[1..], t);
    }
    if Registered(s, t) {
      assert Total(s, RegistrationOf(s, t).counter) <= 1;
    }
  }
}
