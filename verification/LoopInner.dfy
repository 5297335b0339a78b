/**
 The loop as the program has it: fields that the handle's methods and the dispatch update
 in place. Each method is tied to the function that specifies it.
 */
module LoopInner {
  import opened Wrappers
  import opened Tokens
  import opened SourceLists
  import opened LoopState
  import opened Dispatching
  import opened LoopRuns
  import Timeouts

  class EventLoop {
    const list: SourceList
    const needsLifecycle: set<DispatcherId>
    var lifecycle: seq<TokenInner>
    var pendingAction: PostAction
    var synthetic: seq<Event>
    var registered: map<DispatcherId, TokenInner>
    var running: Option<DispatcherId>
    var generation: seq<nat>

    ghost function State(): Loop
      reads this, list
    {
      Loop(list.w, list.sources, lifecycle, pendingAction, synthetic, registered, running, needsLifecycle, generation)
    }

    constructor (w: Width, needs: set<DispatcherId>)
      ensures State() == EmptyLoop(w, needs) && fresh(list)
    {
      var sources := new SourceList(w);
      list := sources;
      needsLifecycle := needs;
      lifecycle, pendingAction, synthetic := [], Continue, [];
      registered, running, generation := map[], None, [];
    }

    // ------------------------------------------------- EventDispatcher

    method RetainOthers(token: TokenInner)
      modifies this`lifecycle
      ensures lifecycle == Without(old(lifecycle), token)
    {
      var kept, rest := [], lifecycle;
      while rest != []
        invariant Without(lifecycle, token) == kept + Without(rest, token)
        decreases |rest|
      {
        if rest[0] != token {
          kept := kept + [rest[0]];
        }
        rest := rest[1..];
      }
      lifecycle := kept;
    }

    method Register(d: DispatcherId, token: TokenInner, ok: bool) returns (answer: Answer)
      requires running != Some(d)
      modifies this`lifecycle, this`registered
      ensures Called(State(), answer) == RegisterSource(old(State()), d, token, ok)
    {
      if d in needsLifecycle {
        lifecycle := lifecycle + [token];
      }
      if ok {
        registered := registered[d := token];
        answer := Done;
      } else {
        answer := Failed;
      }
    }

    method Reregister(d: DispatcherId, token: TokenInner, ok: bool) returns (answer: Answer)
      modifies this`lifecycle, this`registered
      ensures Called(State(), answer) == ReregisterSource(old(State()), d, token, ok)
    {
      if running == Some(d) {
        return Deferred;
      }
      if !ok {
        return Failed;
      }
      registered := registered[d := token];
      if d in needsLifecycle {
        lifecycle := lifecycle + [token];
      }
      answer := Done;
    }

    method Unregister(d: DispatcherId, token: TokenInner, ok: bool) returns (answer: Answer)
      modifies this`lifecycle, this`registered
      ensures Called(State(), answer) == UnregisterSource(old(State()), d, token, ok)
    {
      if running == Some(d) {
        return Deferred;
      }
      if !ok {
        return Failed;
      }
      registered := registered - {d};
      if d in needsLifecycle {
        RetainOthers(token);
      }
      answer := Done;
    }

    // ------------------------------------------------- LoopHandle

    method RegisterNew(d: DispatcherId, ok: bool) returns (reply: Reply)
      requires !Panics(State(), OpInsert(d, ok))
      modifies this`lifecycle, this`registered, this`generation, list
      ensures Replied(State(), reply) == RegisterDispatcher(old(State()), d, ok)
    {
      ghost var before := State();
      var id := list.VacantEntry();
      generation := if id < |generation| then generation[id := generation[id] + 1] else generation + [0];
      list.Put(id, Some(d));
      assert State() == WithSource(before, d);
      var answer := Register(d, list.sources[id].token, ok);
      if answer == Failed {
        list.Put(id, None);
        reply := SourceError;
      } else {
        reply := Accepted;
      }
    }

    method EnableToken(token: TokenInner, ok: bool) returns (reply: Reply)
      requires !Panics(State(), OpEnable(token, ok))
      modifies this`lifecycle, this`registered
      ensures Replied(State(), reply) == Enable(old(State()), token, ok)
    {
      var entry := list.Find(token);
      if entry.None? || entry.value.source.None? {
        return InvalidToken;
      }
      var answer := Register(entry.value.source.value, entry.value.token, ok);
      reply := if answer == Failed then SourceError else Accepted;
    }

    method UpdateToken(token: TokenInner, ok: bool) returns (reply: Reply)
      modifies this`lifecycle, this`registered, this`pendingAction
      ensures Replied(State(), reply) == Update(old(State()), token, ok)
    {
      var entry := list.Find(token);
      if entry.None? || entry.value.source.None? {
        return InvalidToken;
      }
      var answer := Reregister(entry.value.source.value, entry.value.token, ok);
      match answer
      case Done =>
        reply := Accepted;
      case Deferred =>
        pendingAction := PostAction.Reregister;
        reply := Accepted;
      case Failed =>
        reply := SourceError;
    }

    method DisableToken(token: TokenInner, ok: bool) returns (reply: Reply)
      modifies this`lifecycle, this`registered, this`pendingAction
      ensures Replied(State(), reply) == DisableSource(old(State()), token, ok)
    {
      var entry := list.Find(token);
      if entry.None? || entry.value.source.None? {
        return InvalidToken;
      }
      var answer := Unregister(entry.value.source.value, token, ok);
      match answer
      case Done =>
        reply := Accepted;
      case Deferred =>
        pendingAction := Disable;
        reply := Accepted;
      case Failed =>
        reply := SourceError;
    }

    method RemoveToken(token: TokenInner, ok: bool)
      modifies this`lifecycle, this`registered, list
      ensures State() == RemoveSource(old(State()), token, ok)
    {
      var entry := list.Find(token);
      if entry.Some? && entry.value.source.Some? {
        list.Put(token.id, None);
        var _ := Unregister(entry.value.source.value, token, ok);
      }
    }

    method PerformOp(op: Op)
      modifies this, list
      ensures State() == Perform(old(State()), op)
    {
      if op.OpInsert? {
        var panics := running == Some(op.d)
                      || (FirstVacant(list.sources) == |list.sources| && |list.sources| >= U32_COUNT);
        if !panics {
          var _ := RegisterNew(op.d, op.ok);
        }
      } else if op.OpEnable? {
        var found := Lookup(list.sources, op.token);
        if found.None? || running != found {
          var _ := EnableToken(op.token, op.ok);
        }
      } else if op.OpUpdate? {
        var _ := UpdateToken(op.token, op.ok);
      } else if op.OpDisable? {
        var _ := DisableToken(op.token, op.ok);
      } else {
        RemoveToken(op.token, op.ok);
      }
    }

    // ------------------------------------------------- dispatch_events

    /** `process_events` of `d`: borrows the dispatcher while its callback does what it likes. */
    method ProcessEvents(d: DispatcherId, ops: seq<Op>)
      modifies this, list
      ensures State() == AfterCallback(old(State()), d, ops)
    {
      running := Some(d);
      ghost var start := State();
      var rest := ops;
      while rest != []
        invariant PerformAll(start, ops) == PerformAll(State(), rest)
        decreases |rest|
      {
        PerformOp(rest[0]);
        rest := rest[1..];
      }
      running := None;
    }

    method Settle(d: DispatcherId, token: TokenInner, ret: PostAction, postOk: bool, sweepOk: bool) returns (failed: bool)
      modifies this, list
      ensures Settled(State(), failed) == Conclude(old(State()), d, token, ret, postOk, sweepOk)
    {
      var action := if ret == Continue then pendingAction else ret;
      pendingAction := Continue;
      match action {
        case Reregister =>
          var answer := Reregister(d, token, postOk);
          if answer == Failed {
            return true;
          }
        case Disable =>
          var answer := Unregister(d, token, postOk);
          if answer == Failed {
            return true;
          }
        case Remove =>
          var entry := list.Find(token);
          if entry.Some? {
            list.Put(token.id, None);
          }
        case Continue =>
      }
      var entry := list.Find(token);
      if entry.None? || entry.value.source.None? {
        var _ := Unregister(d, token, sweepOk);
      }
      failed := false;
    }

    method Handle(e: Event, cb: Callback) returns (delivered: Option<DispatcherId>, failed: bool)
      modifies this, list
      ensures Handled(State(), delivered, failed) == HandleEvent(old(State()), e, cb)
    {
      var token := ForgetSubId(e.token);
      delivered := Lookup(list.sources, token);
      if delivered.None? {
        return None, false;
      }
      ProcessEvents(delivered.value, cb.ops);
      if cb.ret.None? {
        failed := true;
      } else {
        failed := Settle(delivered.value, token, cb.ret.value, cb.postOk, cb.sweepOk);
      }
    }

    method WalkEvents(events: seq<Event>, callbacks: seq<Callback>) returns (deliveries: seq<Delivery>, failed: bool)
      modifies this, list
      ensures Walked(State(), deliveries, failed) == Walk(old(State()), events, callbacks)
    {
      deliveries, failed := [], false;
      ghost var whole := Walk(State(), events, callbacks);
      var queue, later := events, callbacks;
      while queue != []
        invariant !failed
        invariant var rest := Walk(State(), queue, later);
                  whole == Walked(rest.loop, deliveries + rest.deliveries, rest.failed)
        decreases |queue|
      {
        ghost var rest := Walk(State(), queue, later);
        var delivered, error := Handle(queue[0], FirstCallback(later));
        assert rest.deliveries[0] == Delivery(queue[0], delivered);
        assert deliveries + rest.deliveries == (deliveries + [rest.deliveries[0]]) + rest.deliveries[1..];
        deliveries := deliveries + [Delivery(queue[0], delivered)];
        if error {
          return deliveries, true;
        }
        queue, later := queue[1..], LaterCallbacks(later);
      }
    }

    method SleepAll(answers: seq<SleepAnswer>, timeout: Option<nat>)
      returns (acts: seq<Act>, wait: Option<nat>, outcome: Outcome)
      modifies this`synthetic
      ensures Phase(State(), acts, outcome) == BeforeSleep(old(State()), old(lifecycle), answers)
      ensures wait == WaitTimeout(old(State()), timeout, answers)
    {
      acts, wait, outcome := [], timeout, Returned;
      ghost var whole := BeforeSleep(State(), lifecycle, answers);
      var queue, later := lifecycle, answers;
      while queue != []
        invariant outcome == Returned
        invariant var rest := BeforeSleep(State(), queue, later);
                  whole == Phase(rest.loop, acts + rest.acts, rest.outcome)
        invariant State() == old(State()).(synthetic := synthetic)
        invariant WaitTimeout(old(State()), timeout, answers)
                  == if SyntheticEvents(old(State()), queue, later) == [] then wait else Some(0)
        decreases |queue|
      {
        ghost var rest := BeforeSleep(State(), queue, later);
        var token := queue[0];
        var found := Lookup(list.sources, token);
        if found.None? {
          return acts, wait, Unreachable;
        }
        assert acts + rest.acts == (acts + [Slept(token, found.value)]) + rest.acts[1..];
        acts := acts + [Slept(token, found.value)];
        match FirstAnswer(later) {
          case SleepFailed =>
            return acts, wait, Errored;
          case Synthetic(subId) =>
            var at := if token.id < |generation| then generation[token.id] else 0;
            wait := Some(0);
            synthetic := synthetic + [Event(token.(subId := subId), found.value, at)];
          case Idle =>
        }
        queue, later := queue[1..], LaterAnswers(later);
      }
    }

    method WakeAll(polled: seq<Event>) returns (acts: seq<Act>, outcome: Outcome)
      ensures Phase(State(), acts, outcome) == BeforeHandleEvents(State(), lifecycle, polled)
    {
      acts, outcome := [], Returned;
      ghost var whole := BeforeHandleEvents(State(), lifecycle, polled);
      var queue := lifecycle;
      while queue != []
        invariant outcome == Returned
        invariant var rest := BeforeHandleEvents(State(), queue, polled);
                  whole == Phase(rest.loop, acts + rest.acts, rest.outcome)
        decreases |queue|
      {
        ghost var rest := BeforeHandleEvents(State(), queue, polled);
        var found := Lookup(list.sources, queue[0]);
        if found.None? {
          return acts, Unreachable;
        }
        var shown := EventsOf(polled, queue[0]);
        assert acts + rest.acts == (acts + [Woken(queue[0], found.value, shown)]) + rest.acts[1..];
        acts := acts + [Woken(queue[0], found.value, shown)];
        queue := queue[1..];
      }
    }

    /** `script` says how each wait ends, and `polled` what the one that completes reports. */
    method DispatchAll(timeout: Option<nat>, answers: seq<SleepAnswer>, script: seq<Timeouts.Ended>,
                       polled: seq<Event>, callbacks: seq<Callback>)
      returns (acts: seq<Act>, waits: seq<Option<nat>>, outcome: Outcome)
      modifies this, list
      ensures var waited := Timeouts.Retried(WaitTimeout(old(State()), timeout, answers), script);
              && Phase(State(), acts, outcome)
                 == DispatchEvents(old(State()), answers, HowItEnded(waited.outcome, polled), callbacks)
              && waits == if BeforeSleep(old(State()), old(lifecycle), answers).outcome == Returned
                          then waited.timeouts else []
      // The same by what happens alone, in a sound loop with well-behaved callbacks.
      ensures var before := old(State());
              Sound(before) && SleepFailed !in answers && DispatchWellBehaved(before, answers, Polled(polled), callbacks) ==>
                ComesTo(before, timeout, answers, script, polled, Phase(State(), acts, outcome), waits)
    {
      ghost var before := State();
      if Sound(before) && SleepFailed !in answers && DispatchWellBehaved(before, answers, Polled(polled), callbacks) {
        DispatchComesTo(before, timeout, answers, script, polled, callbacks);
      }
      var wait;
      waits := [];
      acts, wait, outcome := SleepAll(answers, timeout);
      if outcome != Returned {
        return;
      }
      var ended;
      waits, ended := Timeouts.Retry(wait, script);
      match ended {
        case GaveUp =>
          return;
        case Failed =>
          return acts, waits, Errored;
        case Polled =>
      }
      var woken, waking := WakeAll(polled);
      acts := acts + woken;
      if waking != Returned {
        return acts, waits, waking;
      }
      var events := synthetic + polled;
      synthetic := [];
      var deliveries, failed := WalkEvents(events, callbacks);
      acts := acts + Processings(deliveries);
      outcome := if failed then Errored else Returned;
    }
  }
}
