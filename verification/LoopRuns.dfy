/**
 Whole dispatches and whole runs of a loop: what holds from an empty loop on, through any
 sequence of handle operations and dispatches with arbitrary callbacks.
 */
module LoopRuns {
  import opened Wrappers
  import opened Tokens
  import opened SourceLists
  import opened LoopState
  import opened LoopInvariant
  import opened Dispatching
  import Timeouts

  /**
   What the poller reports for a current registration, read back from the key it was given,
   is an event of the registered source's insertion exactly when the slot's id fits in a key.
   On 64-bit targets every id does.
   */
  lemma RegisteredEventsIssued(s: Loop, d: DispatcherId, subId: nat)
    requires Quiet(s) && d in s.registered && |s.sources| <= U32_COUNT && subId < SubIds(s.w)
    ensures var token := s.registered[d].(subId := subId);
            && token.id < |s.generation|
            && var e := Event(Unpack(s.w, Pack(s.w, token)), d, s.generation[token.id]);
               (Issued(s, e) && StillThere(s, e) <==> token.id < Ids(s.w))
    ensures s.w == W64 ==> s.registered[d].id < Ids(s.w)
  {
    var token := s.registered[d].(subId := subId);
    assert Holds(s, d, s.registered[d]);
    PackThenUnpack(s.w, token);
  }

  lemma IssuedGrows(s: Loop, after: Loop, e: Event)
    requires GrowsFrom(s, after) && Issued(s, e)
    ensures Issued(after, e)
  {
  }

  lemma AllIssuedGrows(s: Loop, after: Loop, events: seq<Event>)
    requires GrowsFrom(s, after) && AllIssued(s, events) && events != []
    ensures AllIssued(after, events[1..])
  {
    forall e | e in events[1..]
      ensures Issued(after, e)
    {
      IssuedGrows(s, after, e);
    }
  }

  lemma ConcludeGrows(s: Loop, d: DispatcherId, token: TokenInner, ret: PostAction, postOk: bool, sweepOk: bool)
    requires |s.generation| == |s.sources|
    ensures GrowsFrom(s, Conclude(s, d, token, ret, postOk, sweepOk).loop)
  {
    var calm := s.(pending := Continue);
    var settled := ApplyPostAction(calm, d, token, ActionFor(s, ret), postOk).loop;
    assert GrowsFrom(s, settled);
    assert SweepRemoved(settled, d, token, sweepOk).sources == settled.sources;
  }

  lemma HandleEventGrows(s: Loop, e: Event, cb: Callback)
    requires |s.generation| == |s.sources| && s.running == None
    ensures GrowsFrom(s, HandleEvent(s, e, cb).loop)
  {
    if Lookup(s.sources, ForgetSubId(e.token)).Some? {
      var d := Lookup(s.sources, ForgetSubId(e.token)).value;
      OpsGrow(s.(running := Some(d)), cb.ops);
      var back := AfterCallback(s, d, cb.ops);
      assert GrowsFrom(s, back);
      if cb.ret.Some? {
        ConcludeGrows(back, d, ForgetSubId(e.token), cb.ret.value, cb.postOk, cb.sweepOk);
        GrowsTransitive(s, back, HandleEvent(s, e, cb).loop);
      }
    }
  }

  lemma GrowsTransitive(a: Loop, b: Loop, c: Loop)
    requires GrowsFrom(a, b) && GrowsFrom(b, c)
    ensures GrowsFrom(a, c)
  {
  }

  /** The state in which the k-th event of a walk is handled. */
  function StateAt(s: Loop, events: seq<Event>, callbacks: seq<Callback>, k: nat): Loop
    requires k <= |events|
    decreases k
  {
    if k == 0 then s
    else StateAt(HandleEvent(s, events[0], FirstCallback(callbacks)).loop, events[1..], LaterCallbacks(callbacks), k - 1)
  }

  function CallbackAt(callbacks: seq<Callback>, k: nat): Callback {
    if k < |callbacks| then callbacks[k] else NOTHING
  }

  /**
   The walk step by step, whatever sources do: the k-th event is handled, with its own
   callback, in the state that the event before it left; the first failure ends the walk
   and is reported, and without one all events are handled.
   */
  lemma {:induction false} WalkSteps(s: Loop, events: seq<Event>, callbacks: seq<Callback>, k: nat)
    requires k < |events|
    ensures var walked := Walk(s, events, callbacks);
            var h := HandleEvent(StateAt(s, events, callbacks, k), events[k], CallbackAt(callbacks, k));
            && StateAt(s, events, callbacks, 0) == s && StateAt(s, events, callbacks, k + 1) == h.loop
            && 0 < |walked.deliveries| <= |events|
            && (k < |walked.deliveries| ==> walked.deliveries[k] == Delivery(events[k], h.delivered))
            && (k == |walked.deliveries| - 1 ==> walked.loop == h.loop && walked.failed == h.failed)
            && (k < |walked.deliveries| - 1 ==> !h.failed)
            && (!walked.failed ==> |walked.deliveries| == |events|)
    decreases k
  {
    var h := HandleEvent(s, events[0], FirstCallback(callbacks));
    if k > 0 {
      WalkSteps(h.loop, events[1..], LaterCallbacks(callbacks), k - 1);
    }
    if events[1..] != [] && !h.failed {
      WalkLength(h.loop, events[1..], LaterCallbacks(callbacks));
    }
  }

  lemma {:induction false} WalkLength(s: Loop, events: seq<Event>, callbacks: seq<Callback>)
    requires events != []
    ensures var walked := Walk(s, events, callbacks);
            0 < |walked.deliveries| <= |events| && (!walked.failed ==> |walked.deliveries| == |events|)
    decreases |events|
  {
    var h := HandleEvent(s, events[0], FirstCallback(callbacks));
    if events[1..] != [] && !h.failed {
      WalkLength(h.loop, events[1..], LaterCallbacks(callbacks));
    }
  }

  /** A well-behaved walk is quiet at every event that it gets to. */
  lemma {:induction false} WalkReaches(s: Loop, events: seq<Event>, callbacks: seq<Callback>, k: nat)
    requires Quiet(s) && AllIssued(s, events) && WalkWellBehaved(s, events, callbacks)
    requires k < |Walk(s, events, callbacks).deliveries| <= |events|
    ensures var at := StateAt(s, events, callbacks, k);
            && Quiet(at) && GrowsFrom(s, at)
            && Issued(at, events[k]) && EventWellBehaved(at, events[k], CallbackAt(callbacks, k))
    decreases k
  {
    if k > 0 {
      var cb := FirstCallback(callbacks);
      var h := HandleEvent(s, events[0], cb);
      HandleEventKeepsIff(s, events[0], cb);
      HandleEventGrows(s, events[0], cb);
      AllIssuedGrows(s, h.loop, events);
      WalkReaches(h.loop, events[1..], LaterCallbacks(callbacks), k - 1);
      GrowsTransitive(s, h.loop, StateAt(s, events, callbacks, k));
    }
  }

  /**
   Through the whole walk, with sources coming, going and being replaced, each event goes
   to the insertion its token was issued for, or to nobody once that insertion is gone.
   */
  lemma WalkKeeps(s: Loop, events: seq<Event>, callbacks: seq<Callback>)
    requires Quiet(s) && AllIssued(s, events) && WalkWellBehaved(s, events, callbacks)
    ensures var walked := Walk(s, events, callbacks);
            && Quiet(walked.loop) && GrowsFrom(s, walked.loop)
            && |walked.deliveries| <= |events|
            && (!walked.failed ==> |walked.deliveries| == |events|)
            && forall k :: 0 <= k < |walked.deliveries| ==>
                             && walked.deliveries[k].event == events[k]
                             && Quiet(StateAt(s, events, callbacks, k))
                             && walked.deliveries[k].to
                                == (if StillThere(StateAt(s, events, callbacks, k), events[k])
                                    then Some(events[k].origin) else None)
  {
    if events != [] {
      var walked := Walk(s, events, callbacks);
      WalkSteps(s, events, callbacks, 0);
      forall k | 0 <= k < |walked.deliveries|
        ensures Quiet(StateAt(s, events, callbacks, k)) && walked.deliveries[k].event == events[k]
        ensures walked.deliveries[k].to
                == if StillThere(StateAt(s, events, callbacks, k), events[k]) then Some(events[k].origin) else None
      {
        WalkSteps(s, events, callbacks, k);
        WalkReaches(s, events, callbacks, k);
        EventReachesItsSource(StateAt(s, events, callbacks, k), events[k], CallbackAt(callbacks, k));
      }
      WalkEnds(s, events, callbacks, |walked.deliveries| - 1);
    }
  }

  lemma WalkEnds(s: Loop, events: seq<Event>, callbacks: seq<Callback>, last: nat)
    requires Quiet(s) && AllIssued(s, events) && WalkWellBehaved(s, events, callbacks)
    requires last < |events| && last + 1 == |Walk(s, events, callbacks).deliveries|
    ensures Quiet(Walk(s, events, callbacks).loop) && GrowsFrom(s, Walk(s, events, callbacks).loop)
  {
    var at, cb := StateAt(s, events, callbacks, last), CallbackAt(callbacks, last);
    WalkSteps(s, events, callbacks, last);
    WalkReaches(s, events, callbacks, last);
    HandleEventKeepsIff(at, events[last], cb);
    HandleEventGrows(at, events[last], cb);
    GrowsTransitive(s, at, HandleEvent(at, events[last], cb).loop);
  }

  predicate WalkUsable(s: Loop, events: seq<Event>, callbacks: seq<Callback>)
    decreases |events|
  {
    events == []
    || var cb := FirstCallback(callbacks);
       var h := HandleEvent(s, events[0], cb);
       EventUsable(s, events[0], cb)
       && (!h.failed ==> WalkUsable(h.loop, events[1..], LaterCallbacks(callbacks)))
  }

  /** The loop is consistent all through each callback and quiet after each event. */
  predicate WalkQuiet(s: Loop, events: seq<Event>, callbacks: seq<Callback>)
    decreases |events|
  {
    events == []
    || var cb := FirstCallback(callbacks);
       var h := HandleEvent(s, events[0], cb);
       EventQuiet(s, events[0], cb)
       && (!h.failed ==> WalkQuiet(h.loop, events[1..], LaterCallbacks(callbacks)))
  }

  lemma {:induction false} WalkQuietIff(s: Loop, events: seq<Event>, callbacks: seq<Callback>)
    requires Quiet(s) && AllIssued(s, events) && WalkUsable(s, events, callbacks)
    ensures WalkQuiet(s, events, callbacks) <==> WalkWellBehaved(s, events, callbacks)
    decreases |events|
  {
    if events != [] {
      var cb := FirstCallback(callbacks);
      var h := HandleEvent(s, events[0], cb);
      EventQuietIff(s, events[0], cb);
      HandleEventGrows(s, events[0], cb);
      if !h.failed && EventWellBehaved(s, events[0], cb) {
        HandleEventKeepsIff(s, events[0], cb);
        AllIssuedGrows(s, h.loop, events);
        WalkQuietIff(h.loop, events[1..], LaterCallbacks(callbacks));
      }
    }
  }

  // ---------------------------------------------------------------------------
  // One dispatch
  // ---------------------------------------------------------------------------

  /** What a source's `before_sleep` returns. */
  datatype SleepAnswer = Idle | Synthetic(subId: nat) | SleepFailed

  /** How waiting ended: with events, by an interruption past the timeout, or with an error. */
  datatype PollOutcome = Polled(events: seq<Event>) | Expired | PollFailed

  datatype Act =
    | Slept(token: TokenInner, d: DispatcherId)
    | Woken(token: TokenInner, d: DispatcherId, events: seq<Event>)
    | Processed(delivery: Delivery)

  datatype Outcome = Returned | Errored | Unreachable

  datatype Phase = Phase(loop: Loop, acts: seq<Act>, outcome: Outcome)

  function FirstAnswer(answers: seq<SleepAnswer>): SleepAnswer {
    if answers == [] then Idle else answers[0]
  }

  function LaterAnswers(answers: seq<SleepAnswer>): seq<SleepAnswer> {
    if answers == [] then [] else answers[1..]
  }

  function SyntheticEvent(s: Loop, token: TokenInner, d: DispatcherId, subId: nat): Event {
    Event(token.(subId := subId), d, if token.id < |s.generation| then s.generation[token.id] else 0)
  }

  function Answered(s: Loop, token: TokenInner, d: DispatcherId, answer: SleepAnswer): Loop {
    match answer
    case Synthetic(subId) => s.(synthetic := s.synthetic + [SyntheticEvent(s, token, d, subId)])
    case _ => s
  }

  /** `before_sleep` of each source in the bag, in the bag's order. */
  function BeforeSleep(s: Loop, tokens: seq<TokenInner>, answers: seq<SleepAnswer>): (phase: Phase)
    decreases |tokens|
  {
    if tokens == [] then Phase(s, [], Returned)
    else
      match Lookup(s.sources, tokens[0])
      case None => Phase(s, [], Unreachable)
      case Some(d) =>
        var act := Slept(tokens[0], d);
        if FirstAnswer(answers) == SleepFailed then Phase(s, [act], Errored)
        else
          var rest := BeforeSleep(Answered(s, tokens[0], d, FirstAnswer(answers)), tokens[1..], LaterAnswers(answers));
          Phase(rest.loop, [act] + rest.acts, rest.outcome)
  }

  /** `EventIterator`: the events of the source that `token` names, in order. */
  function EventsOf(events: seq<Event>, token: TokenInner): (found: seq<Event>)
    ensures forall e :: e in found <==> e in events && SameSource(e.token, token)
  {
    if events == [] then []
    else if SameSource(events[0].token, token) then [events[0]] + EventsOf(events[1..], token)
    else EventsOf(events[1..], token)
  }

  /** The iterator works event by event: it keeps the order and every occurrence. */
  lemma {:induction false} EventsOfSplits(a: seq<Event>, b: seq<Event>, token: TokenInner)
    ensures EventsOf(a + b, token) == EventsOf(a, token) + EventsOf(b, token)
    ensures forall e :: multiset(EventsOf(a, token))[e] == if SameSource(e.token, token) then multiset(a)[e] else 0
  {
    if a == [] {
      assert a + b == b;
    } else {
      assert (a + b)[1..] == a[1..] + b;
      assert a == [a[0]] + a[1..];
      EventsOfSplits(a[1..], b, token);
    }
  }

  /** `before_handle_events` of each source in the bag, in the bag's order. */
  function BeforeHandleEvents(s: Loop, tokens: seq<TokenInner>, polled: seq<Event>): Phase
    decreases |tokens|
  {
    if tokens == [] then Phase(s, [], Returned)
    else
      match Lookup(s.sources, tokens[0])
      case None => Phase(s, [], Unreachable)
      case Some(d) =>
        var rest := BeforeHandleEvents(s, tokens[1..], polled);
        Phase(rest.loop, [Woken(tokens[0], d, EventsOf(polled, tokens[0]))] + rest.acts, rest.outcome)
  }

  function Processings(deliveries: seq<Delivery>): (acts: seq<Act>)
    ensures |acts| == |deliveries|
    ensures forall k :: 0 <= k < |acts| ==> acts[k] == Processed(deliveries[k])
  {
    seq(|deliveries|, k requires 0 <= k < |deliveries| => Processed(deliveries[k]))
  }

  /** Synthetic events stay queued when the wait does not complete, and are handled before the polled ones. */
  function DispatchEvents(s: Loop, answers: seq<SleepAnswer>, poll: PollOutcome, callbacks: seq<Callback>): Phase {
    var sleeping := BeforeSleep(s, s.lifecycle, answers);
    if sleeping.outcome != Returned then sleeping
    else
      match poll
      case Expired => sleeping
      case PollFailed => sleeping.(outcome := Errored)
      case Polled(polled) =>
        var waking := BeforeHandleEvents(sleeping.loop, sleeping.loop.lifecycle, polled);
        if waking.outcome != Returned then waking.(acts := sleeping.acts + waking.acts)
        else
          var walked := Walk(waking.loop.(synthetic := []), waking.loop.synthetic + polled, callbacks);
          Phase(walked.loop, sleeping.acts + waking.acts + Processings(walked.deliveries),
                if walked.failed then Errored else Returned)
  }

  /** The state in which the walk of a dispatch starts. */
  function AtWalk(s: Loop, answers: seq<SleepAnswer>): Loop {
    BeforeSleep(s, s.lifecycle, answers).loop.(synthetic := [])
  }

  function EventsToWalk(s: Loop, answers: seq<SleepAnswer>, polled: seq<Event>): seq<Event> {
    BeforeSleep(s, s.lifecycle, answers).loop.synthetic + polled
  }

  predicate GetsToWalk(s: Loop, answers: seq<SleepAnswer>, poll: PollOutcome) {
    poll.Polled? && BeforeSleep(s, s.lifecycle, answers).outcome == Returned
  }

  /** The events were produced for insertions of this loop, and each is used as the statements ask. */
  predicate DispatchUsable(s: Loop, answers: seq<SleepAnswer>, poll: PollOutcome, callbacks: seq<Callback>) {
    GetsToWalk(s, answers, poll) ==>
      && AllIssued(s, poll.events)
      && WalkUsable(AtWalk(s, answers), EventsToWalk(s, answers, poll.events), callbacks)
  }

  /** In addition, no failure leaves something behind. */
  predicate DispatchWellBehaved(s: Loop, answers: seq<SleepAnswer>, poll: PollOutcome, callbacks: seq<Callback>) {
    GetsToWalk(s, answers, poll) ==>
      && AllIssued(s, poll.events)
      && WalkWellBehaved(AtWalk(s, answers), EventsToWalk(s, answers, poll.events), callbacks)
  }

  /** Every token of the bag leads to a source. */
  predicate Resolves(s: Loop, tokens: seq<TokenInner>) {
    forall t :: t in tokens ==> Lookup(s.sources, t).Some?
  }

  lemma LifecycleResolves(s: Loop)
    requires Quiet(s)
    ensures Resolves(s, s.lifecycle)
    ensures forall t :: t in s.lifecycle ==>
                          Lookup(s.sources, t).value in s.needsLifecycle && Holds(s, Lookup(s.sources, t).value, t)
  {
  }

  /** The first `unreachable!()` is reached exactly when some token resolves to nothing (and no source fails first). */
  lemma {:induction false} SleepUnreachable(s: Loop, tokens: seq<TokenInner>, answers: seq<SleepAnswer>)
    requires SleepFailed !in answers
    ensures BeforeSleep(s, tokens, answers).outcome == (if Resolves(s, tokens) then Returned else Unreachable)
    decreases |tokens|
  {
    if tokens != [] {
      var first := Lookup(s.sources, tokens[0]);
      if first.Some? {
        var next := Answered(s, tokens[0], first.value, FirstAnswer(answers));
        SleepUnreachable(next, tokens[1..], LaterAnswers(answers));
        assert Resolves(s, tokens) <==> Resolves(next, tokens[1..]);
      }
    }
  }

  lemma {:induction false} SleepVisits(s: Loop, tokens: seq<TokenInner>, answers: seq<SleepAnswer>)
    requires Resolves(s, tokens) && |s.generation| == |s.sources|
    requires forall t :: t in tokens ==> Holds(s, Lookup(s.sources, t).value, t)
    requires SlotsConsistent(s) && AllIssued(s, s.synthetic)
    ensures var phase := BeforeSleep(s, tokens, answers);
            && phase.outcome != Unreachable
            && phase.loop == s.(synthetic := phase.loop.synthetic)
            && AllIssued(s, phase.loop.synthetic)
            && |phase.acts| <= |tokens|
            && (phase.outcome == Returned ==> |phase.acts| == |tokens|)
            && forall k :: 0 <= k < |phase.acts| ==>
                             phase.acts[k] == Slept(tokens[k], Lookup(s.sources, tokens[k]).value)
    decreases |tokens|
  {
    if tokens != [] {
      var d := Lookup(s.sources, tokens[0]).value;
      if FirstAnswer(answers) != SleepFailed {
        var next := Answered(s, tokens[0], d, FirstAnswer(answers));
        forall e | e in next.synthetic
          ensures Issued(next, e)
        {
          if e !in s.synthetic {
            assert Holds(s, d, tokens[0]);
          }
          assert Issued(s, e);
        }
        forall t | t in tokens[1..]
          ensures Holds(next, Lookup(next.sources, t).value, t)
        {
          assert Holds(s, Lookup(s.sources, t).value, t);
        }
        SleepVisits(next, tokens[1..], LaterAnswers(answers));
        var rest := BeforeSleep(next, tokens[1..], LaterAnswers(answers));
        forall e | e in rest.loop.synthetic
          ensures Issued(s, e)
        {
          assert Issued(next, e);
        }
      }
    }
  }

  /** The polled events that belong to the insertion under `token`, as a statement about insertions. */
  predicate Own(s: Loop, token: TokenInner, e: Event) {
    e.token.id == token.id && token.id < |s.generation| && e.generation == s.generation[token.id]
  }

  lemma {:induction false} WakeVisits(s: Loop, tokens: seq<TokenInner>, polled: seq<Event>)
    requires Resolves(s, tokens)
    ensures var phase := BeforeHandleEvents(s, tokens, polled);
            && phase.outcome == Returned && phase.loop == s && |phase.acts| == |tokens|
            && forall k :: 0 <= k < |tokens| ==>
                             phase.acts[k] == Woken(tokens[k], Lookup(s.sources, tokens[k]).value, EventsOf(polled, tokens[k]))
    decreases |tokens|
  {
    if tokens != [] {
      WakeVisits(s, tokens[1..], polled);
    }
  }

  /** No polled event is so old that its slot went through all versions since. */
  predicate AllRecent(s: Loop, events: seq<Event>) {
    forall e :: e in events ==> e.token.id < |s.generation| && s.generation[e.token.id] - e.generation < Versions(s.w)
  }

  /** The iterator shows a source the polled events of its own insertion, and all of those. */
  lemma IteratorShowsOwnEvents(s: Loop, token: TokenInner, polled: seq<Event>)
    requires Quiet(s) && token in s.lifecycle && AllIssued(s, polled) && AllRecent(s, polled)
    ensures forall e :: e in EventsOf(polled, token) <==> e in polled && Own(s, token, e)
    ensures forall e :: e in EventsOf(polled, token) ==> Lookup(s.sources, token) == Some(e.origin)
  {
    LifecycleResolves(s);
    var d := Lookup(s.sources, token).value;
    assert Holds(s, d, token);
    forall e | e in polled
      ensures SameSource(e.token, token) <==> Own(s, token, e)
      ensures SameSource(e.token, token) ==> d == e.origin
    {
      assert Issued(s, e);
      if SameSource(e.token, token) {
        SameGeneration(s.w, e.generation, s.generation[token.id]);
      }
    }
  }

  /** A quiet loop whose leftover synthetic events belong to its own insertions. */
  predicate Sound(s: Loop) {
    Quiet(s) && AllIssued(s, s.synthetic)
  }

  lemma SyntheticIrrelevant(s: Loop, queued: seq<Event>)
    requires Quiet(s)
    ensures Quiet(s.(synthetic := queued))
  {
  }

  /** The sources told by these notifications are those that the tokens name, in order. */
  predicate SleptInOrder(s: Loop, tokens: seq<TokenInner>, acts: seq<Act>) {
    |acts| == |tokens|
    && forall k :: 0 <= k < |tokens| ==>
                     acts[k].Slept? && acts[k].token == tokens[k] && Lookup(s.sources, tokens[k]) == Some(acts[k].d)
  }

  predicate WokenInOrder(s: Loop, tokens: seq<TokenInner>, polled: seq<Event>, acts: seq<Act>) {
    |acts| == |tokens|
    && forall k :: 0 <= k < |tokens| ==>
                     && acts[k].Woken? && acts[k].token == tokens[k] && Lookup(s.sources, tokens[k]) == Some(acts[k].d)
                     && acts[k].events == EventsOf(polled, tokens[k])
  }

  /** The events are handled in order, without a gap, each by the insertion it belongs to or by nobody. */
  predicate ProcessedInOrder(events: seq<Event>, acts: seq<Act>) {
    |acts| <= |events|
    && forall k :: 0 <= k < |acts| ==>
                     && acts[k].Processed? && acts[k].delivery.event == events[k]
                     && acts[k].delivery.to in {None, Some(events[k].origin)}
  }

  /** The synthetic events that the sources in the bag answered with, in the bag's order. */
  function SyntheticEvents(s: Loop, tokens: seq<TokenInner>, answers: seq<SleepAnswer>): seq<Event>
    decreases |tokens|
  {
    if tokens == [] || Lookup(s.sources, tokens[0]).None? then []
    else
      var rest := SyntheticEvents(s, tokens[1..], LaterAnswers(answers));
      match FirstAnswer(answers)
      case SleepFailed => []
      case Idle => rest
      case Synthetic(subId) => [SyntheticEvent(s, tokens[0], Lookup(s.sources, tokens[0]).value, subId)] + rest
  }

  /** A failing `before_sleep` is reported, and nothing else is. */
  lemma {:induction false} SleepFails(s: Loop, tokens: seq<TokenInner>, answers: seq<SleepAnswer>)
    requires Resolves(s, tokens)
    ensures BeforeSleep(s, tokens, answers).outcome
            == if exists k :: 0 <= k < |tokens| && k < |answers| && answers[k] == SleepFailed then Errored else Returned
    decreases |tokens|
  {
    if tokens != [] && FirstAnswer(answers) != SleepFailed {
      var next := Answered(s, tokens[0], Lookup(s.sources, tokens[0]).value, FirstAnswer(answers));
      SleepFails(next, tokens[1..], LaterAnswers(answers));
      assert forall k :: 0 < k < |tokens| && k < |answers| ==> answers[k] == LaterAnswers(answers)[k - 1];
      assert forall k :: 0 <= k < |tokens[1..]| && k < |LaterAnswers(answers)| ==> LaterAnswers(answers)[k] == answers[k + 1];
    }
  }

  /** Each source in turn adds to the queue: nothing, or an event of its own insertion. */
  lemma SyntheticFirst(s: Loop, t: TokenInner, rest: seq<TokenInner>, answer: SleepAnswer, later: seq<SleepAnswer>)
    requires Lookup(s.sources, t).Some? && |s.generation| == |s.sources| && answer != SleepFailed
    ensures SyntheticEvents(s, [t] + rest, [answer] + later)
            == (match answer
                case Synthetic(subId) => [Event(t.(subId := subId), Lookup(s.sources, t).value, s.generation[t.id])]
                case _ => [])
               + SyntheticEvents(s, rest, later)
  {
    assert ([t] + rest)[1..] == rest && ([answer] + later)[1..] == later;
  }

  lemma {:induction false} NoSynthetics(s: Loop, tokens: seq<TokenInner>, answers: seq<SleepAnswer>)
    requires Resolves(s, tokens) && SleepFailed !in answers
    ensures SyntheticEvents(s, tokens, answers) == []
            <==> forall k :: 0 <= k < |tokens| && k < |answers| ==> !answers[k].Synthetic?
    decreases |tokens|
  {
    if tokens != [] {
      NoSynthetics(s, tokens[1..], LaterAnswers(answers));
      assert forall k :: 0 < k < |tokens| && k < |answers| ==> answers[k] == LaterAnswers(answers)[k - 1];
      assert forall k :: 0 <= k < |tokens[1..]| && k < |LaterAnswers(answers)| ==> LaterAnswers(answers)[k] == answers[k + 1];
    }
  }

  /** The timeout of the first wait: none at all once a source has produced an event before sleeping. */
  function WaitTimeout(s: Loop, timeout: Option<nat>, answers: seq<SleepAnswer>): Option<nat> {
    if SyntheticEvents(s, s.lifecycle, answers) == [] then timeout else Some(0)
  }

  function HowItEnded(outcome: Timeouts.Outcome, polled: seq<Event>): PollOutcome {
    match outcome
    case Polled => Polled(polled)
    case GaveUp => Expired
    case Failed => PollFailed
  }

  /**
   A source that produced an event before sleeping is not kept waiting: there is one wait,
   of no time, and an interruption of it ends the dispatch at once with the event queued
   for the next one.
   */
  lemma SyntheticWakesAtOnce(s: Loop, timeout: Option<nat>, answers: seq<SleepAnswer>, callbacks: seq<Callback>,
                             script: seq<Timeouts.Ended>, polled: seq<Event>)
    requires Sound(s) && SleepFailed !in answers && SyntheticEvents(s, s.lifecycle, answers) != []
    ensures var waited := Timeouts.Retried(WaitTimeout(s, timeout, answers), script);
            && waited.timeouts == [Some(0)]
            && (waited.outcome == Timeouts.GaveUp <==> script != [] && script[0].Interrupted?)
            && (waited.outcome == Timeouts.GaveUp ==>
                  var done := DispatchEvents(s, answers, HowItEnded(waited.outcome, polled), callbacks);
                  && done.outcome == Returned
                  && done.loop.synthetic == s.synthetic + SyntheticEvents(s, s.lifecycle, answers))
  {
    SleepKeeps(s, answers);
  }

  lemma {:induction false} SyntheticsQueued(s: Loop, queued: seq<Event>, tokens: seq<TokenInner>, answers: seq<SleepAnswer>)
    ensures BeforeSleep(s.(synthetic := queued), tokens, answers).loop.synthetic
            == queued + SyntheticEvents(s, tokens, answers)
    decreases |tokens|
  {
    if tokens != [] && Lookup(s.sources, tokens[0]).Some? && FirstAnswer(answers) != SleepFailed {
      var now := s.(synthetic := queued);
      var next := Answered(now, tokens[0], Lookup(s.sources, tokens[0]).value, FirstAnswer(answers));
      assert next == s.(synthetic := next.synthetic);
      SyntheticsQueued(s, next.synthetic, tokens[1..], LaterAnswers(answers));
    }
  }

  lemma SleepKeeps(s: Loop, answers: seq<SleepAnswer>)
    requires Sound(s)
    ensures var slept := BeforeSleep(s, s.lifecycle, answers);
            && slept.outcome != Unreachable && (SleepFailed !in answers ==> slept.outcome == Returned)
            && slept.loop == s.(synthetic := slept.loop.synthetic)
            && Sound(slept.loop)
            && (slept.outcome == Returned ==> SleptInOrder(s, s.lifecycle, slept.acts))
            && slept.loop.synthetic == s.synthetic + SyntheticEvents(s, s.lifecycle, answers)
  {
    LifecycleResolves(s);
    SyntheticsQueued(s, s.synthetic, s.lifecycle, answers);
    assert s.(synthetic := s.synthetic) == s;
    SleepVisits(s, s.lifecycle, answers);
    if SleepFailed !in answers {
      SleepUnreachable(s, s.lifecycle, answers);
    }
    var slept := BeforeSleep(s, s.lifecycle, answers);
    SyntheticIrrelevant(s, slept.loop.synthetic);
    forall e | e in slept.loop.synthetic
      ensures Issued(slept.loop, e)
    {
      assert Issued(s, e);
    }
  }

  lemma StartOfWalk(slept: Loop, polled: seq<Event>)
    requires Sound(slept) && AllIssued(slept, polled)
    ensures Quiet(slept.(synthetic := [])) && AllIssued(slept.(synthetic := []), slept.synthetic + polled)
  {
    SyntheticIrrelevant(slept, []);
    forall e | e in slept.synthetic + polled
      ensures Issued(slept.(synthetic := []), e)
    {
      assert Issued(slept, e);
    }
  }

  lemma WalkAfterSleep(slept: Loop, polled: seq<Event>, callbacks: seq<Callback>)
    requires Sound(slept) && AllIssued(slept, polled)
    requires WalkWellBehaved(slept.(synthetic := []), slept.synthetic + polled, callbacks)
    ensures var walked := Walk(slept.(synthetic := []), slept.synthetic + polled, callbacks);
            && Sound(walked.loop) && walked.loop.synthetic == []
            && ProcessedInOrder(slept.synthetic + polled, Processings(walked.deliveries))
            && (!walked.failed ==> |walked.deliveries| == |slept.synthetic + polled|)
  {
    StartOfWalk(slept, polled);
    WalkKeeps(slept.(synthetic := []), slept.synthetic + polled, callbacks);
  }

  /** The phases of a dispatch that gets to its events. */
  lemma DispatchWalks(s: Loop, answers: seq<SleepAnswer>, polled: seq<Event>, callbacks: seq<Callback>)
    requires Sound(s) && GetsToWalk(s, answers, Polled(polled))
    requires DispatchWellBehaved(s, answers, Polled(polled), callbacks)
    ensures var done := DispatchEvents(s, answers, Polled(polled), callbacks);
            var n, events := |s.lifecycle|, EventsToWalk(s, answers, polled);
            && Sound(done.loop) && done.outcome != Unreachable && done.loop.synthetic == []
            && |done.acts| >= 2 * n
            && SleptInOrder(s, s.lifecycle, done.acts[..n])
            && WokenInOrder(s, s.lifecycle, polled, done.acts[n..2 * n])
            && ProcessedInOrder(events, done.acts[2 * n..])
            && (done.outcome == Returned ==> |done.acts| == 2 * n + |events|)
  {
    SleepKeeps(s, answers);
    LifecycleResolves(s);
    var slept := BeforeSleep(s, s.lifecycle, answers);
    WakeVisits(slept.loop, slept.loop.lifecycle, polled);
    forall e | e in polled
      ensures Issued(slept.loop, e)
    {
      assert Issued(s, e);
    }
    WalkAfterSleep(slept.loop, polled, callbacks);
    var waking := BeforeHandleEvents(slept.loop, slept.loop.lifecycle, polled);
    var processed := Processings(Walk(AtWalk(s, answers), EventsToWalk(s, answers, polled), callbacks).deliveries);
    Phases(slept.acts, waking.acts, processed, |s.lifecycle|);
  }

  lemma Phases(slept: seq<Act>, woken: seq<Act>, processed: seq<Act>, n: nat)
    requires |slept| == n && |woken| == n
    ensures var acts := slept + woken + processed;
            acts[..n] == slept && acts[n..2 * n] == woken && acts[2 * n..] == processed
  {
  }

  /**
   A dispatch never reaches an `unreachable!()` and leaves the loop sound. When waiting
   completes, every source in the bag was told before sleeping and again before any event
   was processed, in the same order, the second time with the events polled for it; then
   the synthetic events and the polled ones are processed. When waiting does not complete
   the synthetic events stay queued.
   */
  lemma DispatchKeeps(s: Loop, answers: seq<SleepAnswer>, poll: PollOutcome, callbacks: seq<Callback>)
    requires Sound(s) && DispatchWellBehaved(s, answers, poll, callbacks)
    ensures var done := DispatchEvents(s, answers, poll, callbacks);
            var n, synthetic := |s.lifecycle|, s.synthetic + SyntheticEvents(s, s.lifecycle, answers);
            && Sound(done.loop) && done.outcome != Unreachable
            && (!poll.Polled? ==> done.loop == s.(synthetic := synthetic))
            && (poll.Polled? && SleepFailed !in answers ==>
                  && |done.acts| >= 2 * n
                  && SleptInOrder(s, s.lifecycle, done.acts[..n])
                  && WokenInOrder(s, s.lifecycle, poll.events, done.acts[n..2 * n])
                  && ProcessedInOrder(synthetic + poll.events, done.acts[2 * n..])
                  && (done.outcome == Returned ==> |done.acts| == 2 * n + |synthetic + poll.events|)
                  && done.loop.synthetic == [])
  {
    SleepKeeps(s, answers);
    if GetsToWalk(s, answers, poll) {
      DispatchWalks(s, answers, poll.events, callbacks);
    }
  }

  /** All events of a dispatch whose waiting completes, and what they come to, in order. */
  predicate Handles(s: Loop, answers: seq<SleepAnswer>, polled: seq<Event>, acts: seq<Act>, outcome: Outcome) {
    var n, events := |s.lifecycle|, s.synthetic + SyntheticEvents(s, s.lifecycle, answers) + polled;
    && |acts| >= 2 * n
    && SleptInOrder(s, s.lifecycle, acts[..n])
    && WokenInOrder(s, s.lifecycle, polled, acts[n..2 * n])
    && ProcessedInOrder(events, acts[2 * n..])
    && outcome in {Returned, Errored}
    && (outcome == Returned ==> |acts| == 2 * n + |events|)
  }

  /** A dispatch that gets to no event: the sources are told before sleeping and that is all. */
  predicate HandlesNothing(s: Loop, answers: seq<SleepAnswer>, after: Loop, acts: seq<Act>) {
    SleptInOrder(s, s.lifecycle, acts)
    && after == s.(synthetic := s.synthetic + SyntheticEvents(s, s.lifecycle, answers))
  }

  /**
   A dispatch by what happens alone: its first wait is of no time if some source answered
   with an event, and of the caller's otherwise; if waiting completes the polled events are
   shown and handled, an error of the system is reported, and a timeout is not.
   */
  predicate ComesTo(s: Loop, timeout: Option<nat>, answers: seq<SleepAnswer>, script: seq<Timeouts.Ended>,
                    polled: seq<Event>, done: Phase, waits: seq<Option<nat>>)
  {
    var wait := if exists k :: 0 <= k < |s.lifecycle| && k < |answers| && answers[k].Synthetic? then Some(0) else timeout;
    && waits != [] && waits[0] == wait
    && if !Timeouts.InTime(wait, script) then
         done.outcome == Returned && HandlesNothing(s, answers, done.loop, done.acts)
       else if Timeouts.Fails(script) then
         done.outcome == Errored && HandlesNothing(s, answers, done.loop, done.acts)
       else Handles(s, answers, polled, done.acts, done.outcome)
  }

  lemma DispatchComesTo(s: Loop, timeout: Option<nat>, answers: seq<SleepAnswer>, script: seq<Timeouts.Ended>,
                        polled: seq<Event>, callbacks: seq<Callback>)
    requires Sound(s) && SleepFailed !in answers && DispatchWellBehaved(s, answers, Polled(polled), callbacks)
    ensures var waited := Timeouts.Retried(WaitTimeout(s, timeout, answers), script);
            && BeforeSleep(s, s.lifecycle, answers).outcome == Returned
            && ComesTo(s, timeout, answers, script, polled,
                       DispatchEvents(s, answers, HowItEnded(waited.outcome, polled), callbacks), waited.timeouts)
  {
    var wait := WaitTimeout(s, timeout, answers);
    LifecycleResolves(s);
    NoSynthetics(s, s.lifecycle, answers);
    Timeouts.OutcomeIs(wait, script);
    SleepKeeps(s, answers);
    if Timeouts.InTime(wait, script) && !Timeouts.Fails(script) {
      DispatchKeeps(s, answers, Polled(polled), callbacks);
    }
  }

  /** The last of the first `m` events of a walk failed. */
  predicate LastFailed(s: Loop, events: seq<Event>, callbacks: seq<Callback>, m: nat)
    requires m <= |events|
  {
    m > 0 && HandleEvent(StateAt(s, events, callbacks, m - 1), events[m - 1], CallbackAt(callbacks, m - 1)).failed
  }

  lemma WalkReports(s: Loop, events: seq<Event>, callbacks: seq<Callback>)
    ensures var walked := Walk(s, events, callbacks);
            |walked.deliveries| <= |events| && (walked.failed <==> LastFailed(s, events, callbacks, |walked.deliveries|))
  {
    if events != [] {
      WalkLength(s, events, callbacks);
      WalkSteps(s, events, callbacks, |Walk(s, events, callbacks).deliveries| - 1);
    }
  }

  lemma DispatchCounts(s: Loop, answers: seq<SleepAnswer>, polled: seq<Event>, callbacks: seq<Callback>)
    requires Sound(s) && GetsToWalk(s, answers, Polled(polled))
    ensures var done := DispatchEvents(s, answers, Polled(polled), callbacks);
            var walked := Walk(AtWalk(s, answers), EventsToWalk(s, answers, polled), callbacks);
            && |done.acts| == 2 * |s.lifecycle| + |walked.deliveries|
            && done.outcome == (if walked.failed then Errored else Returned)
  {
    SleepKeeps(s, answers);
    LifecycleResolves(s);
    WakeVisits(BeforeSleep(s, s.lifecycle, answers).loop, s.lifecycle, polled);
  }

  /** A dispatch whose events are handled reports an error exactly when the last of them failed. */
  lemma DispatchReports(s: Loop, answers: seq<SleepAnswer>, polled: seq<Event>, callbacks: seq<Callback>)
    requires Sound(s) && GetsToWalk(s, answers, Polled(polled))
    ensures var done := DispatchEvents(s, answers, Polled(polled), callbacks);
            var events, m := EventsToWalk(s, answers, polled), |done.acts| - 2 * |s.lifecycle|;
            0 <= m <= |events| && (done.outcome == Errored <==> LastFailed(AtWalk(s, answers), events, callbacks, m))
  {
    DispatchCounts(s, answers, polled, callbacks);
    WalkReports(AtWalk(s, answers), EventsToWalk(s, answers, polled), callbacks);
  }

  // ---------------------------------------------------------------------------
  // Whole runs
  // ---------------------------------------------------------------------------

  /** A handle operation between dispatches, or a dispatch. */
  datatype Step =
    | Outside(op: Op)
    | Dispatch(answers: seq<SleepAnswer>, poll: PollOutcome, callbacks: seq<Callback>)

  function Take(s: Loop, step: Step): Loop {
    match step
    case Outside(op) => Perform(s, op)
    case Dispatch(answers, poll, callbacks) => DispatchEvents(s, answers, poll, callbacks).loop
  }

  predicate StepWellBehaved(s: Loop, step: Step) {
    match step
    case Outside(op) => WellBehaved(s, op)
    case Dispatch(answers, poll, callbacks) => DispatchWellBehaved(s, answers, poll, callbacks)
  }

  predicate StepUsable(s: Loop, step: Step) {
    match step
    case Outside(op) => Usable(s, op)
    case Dispatch(answers, poll, callbacks) => DispatchUsable(s, answers, poll, callbacks)
  }

  /** The loop is sound after the step and, in a dispatch, consistent and quiet on the way. */
  predicate StepSound(s: Loop, step: Step) {
    && Sound(Take(s, step))
    && match step
       case Outside(op) => true
       case Dispatch(answers, poll, callbacks) =>
         GetsToWalk(s, answers, poll) ==>
           WalkQuiet(AtWalk(s, answers), EventsToWalk(s, answers, poll.events), callbacks)
  }

  function Run(s: Loop, steps: seq<Step>): Loop
    decreases |steps|
  {
    if steps == [] then s else Run(Take(s, steps[0]), steps[1..])
  }

  predicate RunWellBehaved(s: Loop, steps: seq<Step>)
    decreases |steps|
  {
    steps == [] || (StepWellBehaved(s, steps[0]) && RunWellBehaved(Take(s, steps[0]), steps[1..]))
  }

  predicate RunUsable(s: Loop, steps: seq<Step>)
    decreases |steps|
  {
    steps == [] || (StepUsable(s, steps[0]) && RunUsable(Take(s, steps[0]), steps[1..]))
  }

  predicate RunSound(s: Loop, steps: seq<Step>)
    decreases |steps|
  {
    steps == [] || (StepSound(s, steps[0]) && RunSound(Take(s, steps[0]), steps[1..]))
  }

  function EmptyLoop(w: Width, needsLifecycle: set<DispatcherId>): Loop {
    Loop(w, [], [], Continue, [], map[], None, needsLifecycle, [])
  }

  lemma StepKeeps(s: Loop, step: Step)
    requires Sound(s) && StepWellBehaved(s, step)
    ensures Sound(Take(s, step))
  {
    match step
    case Outside(op) =>
      OpKeeps(s, op, None);
      OpGrows(s, op);
      forall e | e in s.synthetic
        ensures Issued(Perform(s, op), e)
      {
        IssuedGrows(s, Perform(s, op), e);
      }
    case Dispatch(answers, poll, callbacks) =>
      DispatchKeeps(s, answers, poll, callbacks);
  }

  lemma {:induction false} RunKeeps(s: Loop, steps: seq<Step>)
    requires Sound(s) && RunWellBehaved(s, steps)
    ensures Sound(Run(s, steps))
    decreases |steps|
  {
    if steps != [] {
      StepKeeps(s, steps[0]);
      RunKeeps(Take(s, steps[0]), steps[1..]);
    }
  }

  lemma StepSoundIff(s: Loop, step: Step)
    requires Sound(s) && StepUsable(s, step)
    ensures StepSound(s, step) <==> StepWellBehaved(s, step)
  {
    match step
    case Outside(op) =>
      OpKeepsIff(s, op, None);
      if WellBehaved(s, op) {
        StepKeeps(s, step);
      }
    case Dispatch(answers, poll, callbacks) =>
      SleepKeeps(s, answers);
      if GetsToWalk(s, answers, poll) {
        var slept := BeforeSleep(s, s.lifecycle, answers).loop;
        StartOfWalk(slept, poll.events);
        WalkQuietIff(AtWalk(s, answers), EventsToWalk(s, answers, poll.events), callbacks);
      }
      if DispatchWellBehaved(s, answers, poll, callbacks) {
        StepKeeps(s, step);
      }
  }

  /**
   Over all runs and all answers of the sources: the loop stays sound throughout exactly
   when no call fails where a failure leaves something behind.
   */
  lemma {:induction false} RunSoundIff(s: Loop, steps: seq<Step>)
    requires Sound(s) && RunUsable(s, steps)
    ensures RunSound(s, steps) <==> RunWellBehaved(s, steps)
    decreases |steps|
  {
    if steps != [] {
      StepSoundIff(s, steps[0]);
      if StepSound(s, steps[0]) {
        RunSoundIff(Take(s, steps[0]), steps[1..]);
      }
    }
  }

  /**
   In every run from an empty loop, whenever a dispatch starts: each registered source owns
   its slot, the lifecycle bag resolves and names exactly the registered sources that asked
   for it, no request is left over, and the dispatch cannot reach an `unreachable!()`.
   */
  lemma EveryRunIsSound(w: Width, needs: set<DispatcherId>, steps: seq<Step>,
                        answers: seq<SleepAnswer>, poll: PollOutcome, callbacks: seq<Callback>)
    requires RunWellBehaved(EmptyLoop(w, needs), steps)
    requires DispatchWellBehaved(Run(EmptyLoop(w, needs), steps), answers, poll, callbacks)
    ensures var s := Run(EmptyLoop(w, needs), steps);
            && (forall d :: d in s.registered ==> Holds(s, d, s.registered[d]))
            && Resolves(s, s.lifecycle) && LifecycleConsistent(s)
            && s.pending == Continue
            && DispatchEvents(s, answers, poll, callbacks).outcome != Unreachable
  {
    var s := Run(EmptyLoop(w, needs), steps);
    RunKeeps(EmptyLoop(w, needs), steps);
    LifecycleResolves(s);
    DispatchKeeps(s, answers, poll, callbacks);
  }

  // ---------------------------------------------------------------------------
  // Where the code falls short without the hypotheses
  // ---------------------------------------------------------------------------

  /**
   A source whose `register` fails on insertion leaves a token that leads nowhere exactly
   when it asked for lifecycle events: the next dispatch then ends in `unreachable!()`.
   */
  lemma FailedInsertion(s: Loop, d: DispatcherId, answers: seq<SleepAnswer>)
    requires Sound(s) && !Panics(s, OpInsert(d, false)) && SleepFailed !in answers
    ensures var after := Perform(s, OpInsert(d, false));
            BeforeSleep(after, after.lifecycle, answers).outcome
            == (if d in s.needsLifecycle then Unreachable else Returned)
  {
    LifecycleResolves(s);
    var after := Perform(s, OpInsert(d, false));
    var i := FirstVacant(s.sources);
    var token := WithSource(s, d).sources[i].token;
    SleepUnreachable(after, after.lifecycle, answers);
    assert Lookup(after.sources, token).None?;
    if d in s.needsLifecycle {
      assert after.lifecycle == s.lifecycle + [token];
      assert after.lifecycle[|s.lifecycle|] == token;
    } else {
      forall t | t in after.lifecycle
        ensures Lookup(after.sources, t).Some?
      {
        assert Lookup(s.sources, t).Some?;
      }
    }
  }

  /**
   A registered source that is removed and fails to unregister leaves such a token as well,
   because the slot is emptied first.
   */
  lemma FailedRemoval(s: Loop, token: TokenInner, answers: seq<SleepAnswer>)
    requires Sound(s) && Usable(s, OpRemove(token, false)) && Breaks(s, OpRemove(token, false))
    requires SleepFailed !in answers
    ensures var d, after := Lookup(s.sources, token).value, Perform(s, OpRemove(token, false));
            BeforeSleep(after, after.lifecycle, answers).outcome
            == (if d in s.needsLifecycle then Unreachable else Returned)
  {
    RemoveBreaks(s, token, false, None);
    FoundToken(s, None, token);
    var d, after := Lookup(s.sources, token).value, Perform(s, OpRemove(token, false));
    OrphanedToken(s, after, d, token, answers);
  }

  /**
   One source is registered under a token that leads nowhere, and the other registered ones
   are in their slots: the next dispatch ends in `unreachable!()` exactly if it is in the bag.
   */
  lemma OrphanedToken(s: Loop, after: Loop, d: DispatcherId, token: TokenInner, answers: seq<SleepAnswer>)
    requires LifecycleConsistent(s) && after.lifecycle == s.lifecycle && after.needsLifecycle == s.needsLifecycle
    requires d in s.registered && s.registered[d] == token && Lookup(after.sources, token).None?
    requires forall e :: e in s.registered && s.registered[e] == token ==> e == d
    requires forall e :: e in s.registered && e != d ==> Holds(after, e, s.registered[e])
    requires SleepFailed !in answers
    ensures BeforeSleep(after, after.lifecycle, answers).outcome
            == (if d in s.needsLifecycle then Unreachable else Returned)
  {
    SleepUnreachable(after, after.lifecycle, answers);
    if d in s.needsLifecycle {
      assert token in after.lifecycle;
    } else {
      forall t | t in after.lifecycle
        ensures Lookup(after.sources, t).Some?
      {
        var e :| e in s.registered && e in s.needsLifecycle && s.registered[e] == t;
        assert Holds(after, e, t);
      }
    }
  }

  lemma OrphanKept(s: Loop, c: Current, answers: seq<SleepAnswer>)
    requires Consistent(s.(running := Some(c.d)), Some(c)) && Recent(s, Some(c))
    requires c.d in s.registered && !Placed(s, c.d) && SleepFailed !in answers
    ensures BeforeSleep(s, s.lifecycle, answers).outcome == (if c.d in s.needsLifecycle then Unreachable else Returned)
  {
    OwnSlot(s, c);
    var r := s.(running := Some(c.d));
    forall d | d in s.registered && d != c.d
      ensures Holds(s, d, s.registered[d])
    {
      assert Holds(r, d, r.registered[d]);
    }
    OrphanedToken(s, s, c.d, c.token, answers);
  }

  /**
   So does a source that left its slot in its own callback, is registered, and is not
   unregistered afterwards: because an error skipped the sweep or the sweep failed.
   */
  lemma FailedSweep(s: Loop, e: Event, cb: Callback, answers: seq<SleepAnswer>)
    requires Sound(s) && Issued(s, e) && StillThere(s, e) && CallbackWellBehaved(s, e, cb)
    requires var h := HandleEvent(s, e, cb).loop; e.origin in h.registered && !Placed(h, e.origin)
    requires SleepFailed !in answers
    ensures !EventWellBehaved(s, e, cb)
    ensures var after := HandleEvent(s, e, cb).loop;
            BeforeSleep(after, after.lifecycle, answers).outcome
            == (if e.origin in s.needsLifecycle then Unreachable else Returned)
  {
    var after, c := HandleEvent(s, e, cb).loop, CurrentOf(e);
    HandleEventKeepsIff(s, e, cb);
    HandleEventGrows(s, e, cb);
    assert !Holds(after, e.origin, after.registered[e.origin]);
    LeaveCallback(s, e, cb);
    var back := AfterCallback(s, e.origin, cb.ops);
    if cb.ret.Some? {
      var calm, action := back.(pending := Continue), ActionFor(back, cb.ret.value);
      PendingIrrelevant(back, c);
      ActionKeeps(calm, c, action, cb.postOk);
      OwnSlot(ApplyPostAction(calm, c.d, c.token, action, cb.postOk).loop, c);
    }
    OrphanKept(after, c, answers);
  }

  /**
   A source that fails to register when it is enabled stays unregistered, and is told before
   the next sleep exactly when it asked for lifecycle events.
   */
  lemma FailedEnable(s: Loop, token: TokenInner, answers: seq<SleepAnswer>)
    requires Sound(s) && Usable(s, OpEnable(token, false)) && Lookup(s.sources, token).Some?
    requires Lookup(s.sources, token).value !in s.registered && SleepFailed !in answers
    ensures var d, after := Lookup(s.sources, token).value, Perform(s, OpEnable(token, false));
            var slept := BeforeSleep(after, after.lifecycle, answers);
            && d !in after.registered && slept.outcome == Returned
            && (d in s.needsLifecycle <==> Slept(token, d) in slept.acts)
  {
    var d, after := Lookup(s.sources, token).value, Perform(s, OpEnable(token, false));
    FoundToken(s, None, token);
    LifecycleResolves(s);
    forall t | t in after.lifecycle
      ensures Lookup(after.sources, t).Some? && Holds(after, Lookup(after.sources, t).value, t)
    {
      assert t in s.lifecycle || t == token;
    }
    forall e | e in after.synthetic
      ensures Issued(after, e)
    {
      assert Issued(s, e);
    }
    SleepUnreachable(after, after.lifecycle, answers);
    SleepVisits(after, after.lifecycle, answers);
    var acts := BeforeSleep(after, after.lifecycle, answers).acts;
    if d in s.needsLifecycle {
      assert after.lifecycle[|s.lifecycle|] == token;
      assert acts[|s.lifecycle|] == Slept(token, d);
    }
  }

  /**
   When `process_events` reports an error, settling is skipped. The loop is quiet afterwards
   exactly when the callback left no request on itself and did not remove itself while
   registered.
   */
  lemma ErrorSkipsSettling(s: Loop, e: Event, ops: seq<Op>)
    requires Sound(s) && StillThere(s, e) && Issued(s, e)
    requires CallbackWellBehaved(s, e, Callback(ops, None, true, true))
    ensures var back := HandleEvent(s, e, Callback(ops, None, true, true)).loop;
            Quiet(back)
            <==> RequestedBy(ops, ForgetSubId(e.token), Continue) == Continue
                 && (e.origin in back.registered ==> Holds(back, e.origin, ForgetSubId(e.token)))
  {
    var cb := Callback(ops, None, true, true);
    LeaveCallback(s, e, cb);
    HandleEventKeepsIff(s, e, cb);
  }
}
