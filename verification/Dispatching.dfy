/**
 One dispatch of the loop (`dispatch_events` in src/loop_logic.rs): the lifecycle
 notifications, the walk over a snapshot of polled events with arbitrary callbacks,
 and the settling of what each callback asked for.
 */
module Dispatching {
  import opened Wrappers
  import opened Tokens
  import opened SourceLists
  import opened LoopState
  import opened LoopInvariant

  /**
   What a source and its callback do with one event: any sequence of handle operations,
   then a returned action (`None` is an error). The flags answer the `reregister` or
   `unregister` that the loop may call afterwards.
   */
  datatype Callback = Callback(ops: seq<Op>, ret: Option<PostAction>, postOk: bool, sweepOk: bool)

  const NOTHING := Callback([], Some(Continue), true, true)

  datatype Settled = Settled(loop: Loop, failed: bool)

  function ApplyPostAction(s: Loop, d: DispatcherId, token: TokenInner, action: PostAction, ok: bool): Settled {
    match action
    case Reregister =>
      var called := ReregisterSource(s, d, token, ok);
      Settled(called.loop, called.answer.Failed?)
    case Disable =>
      var called := UnregisterSource(s, d, token, ok);
      Settled(called.loop, called.answer.Failed?)
    case Remove =>
      Settled(if Get(s.sources, token).Some? then s.(sources := SetSource(s.sources, token.id, None)) else s, false)
    case Continue => Settled(s, false)
  }

  /** A source that left its slot during its own callback is unregistered now. */
  function SweepRemoved(s: Loop, d: DispatcherId, token: TokenInner, ok: bool): Loop {
    if Lookup(s.sources, token).None? then UnregisterSource(s, d, token, ok).loop else s
  }

  /** A request deferred during the callback counts only when the callback returned `Continue`. */
  function ActionFor(s: Loop, ret: PostAction): PostAction {
    if ret == Continue then s.pending else ret
  }

  /** Everything after `process_events` returned `ret`. */
  function Conclude(s: Loop, d: DispatcherId, token: TokenInner, ret: PostAction, postOk: bool, sweepOk: bool): Settled {
    var settled := ApplyPostAction(s.(pending := Continue), d, token, ActionFor(s, ret), postOk);
    if settled.failed then settled else Settled(SweepRemoved(settled.loop, d, token, sweepOk), false)
  }

  datatype Handled = Handled(loop: Loop, delivered: Option<DispatcherId>, failed: bool)

  function AfterCallback(s: Loop, d: DispatcherId, ops: seq<Op>): Loop {
    PerformAll(s.(running := Some(d)), ops).(running := None)
  }

  function HandleEvent(s: Loop, e: Event, cb: Callback): Handled {
    var token := ForgetSubId(e.token);
    match Lookup(s.sources, token)
    case None => Handled(s, None, false)
    case Some(d) =>
      var back := AfterCallback(s, d, cb.ops);
      match cb.ret
      case None => Handled(back, Some(d), true)
      case Some(ret) =>
        var concluded := Conclude(back, d, token, ret, cb.postOk, cb.sweepOk);
        Handled(concluded.loop, Some(d), concluded.failed)
  }

  datatype Delivery = Delivery(event: Event, to: Option<DispatcherId>)

  datatype Walked = Walked(loop: Loop, deliveries: seq<Delivery>, failed: bool)

  function FirstCallback(callbacks: seq<Callback>): Callback {
    if callbacks == [] then NOTHING else callbacks[0]
  }

  function LaterCallbacks(callbacks: seq<Callback>): seq<Callback> {
    if callbacks == [] then [] else callbacks[1..]
  }

  /** The walk over the events of one dispatch; an error ends it. */
  function Walk(s: Loop, events: seq<Event>, callbacks: seq<Callback>): Walked
    decreases |events|
  {
    if events == [] then Walked(s, [], false)
    else
      var h := HandleEvent(s, events[0], FirstCallback(callbacks));
      var first := Delivery(events[0], h.delivered);
      if h.failed then Walked(h.loop, [first], true)
      else
        var rest := Walk(h.loop, events[1..], LaterCallbacks(callbacks));
        Walked(rest.loop, [first] + rest.deliveries, rest.failed)
  }

  // ---------------------------------------------------------------------------
  // Hypotheses on what is in flight
  // ---------------------------------------------------------------------------

  /** The event's token was issued for an insertion of `origin`, which is still there or was removed since. */
  predicate Issued(s: Loop, e: Event) {
    && e.token.id < |s.sources| && e.token.id < |s.generation|
    && e.token.version == e.generation % Versions(s.w)
    && e.generation <= s.generation[e.token.id]
    && (s.generation[e.token.id] == e.generation ==> s.sources[e.token.id].source in {None, Some(e.origin)})
  }

  predicate AllIssued(s: Loop, events: seq<Event>) {
    forall e :: e in events ==> Issued(s, e)
  }

  /** The insertion that the event belongs to is still in its slot. */
  predicate StillThere(s: Loop, e: Event) {
    && e.token.id < |s.sources| && e.token.id < |s.generation|
    && s.generation[e.token.id] == e.generation
    && s.sources[e.token.id].source == Some(e.origin)
  }

  function CurrentOf(e: Event): Current {
    Current(e.origin, ForgetSubId(e.token), e.generation)
  }

  /** By the end of the callback the slot has been reused fewer than 2^BITS_VERSION times since the event was produced. */
  predicate EventRecent(s: Loop, e: Event, cb: Callback) {
    var token := ForgetSubId(e.token);
    Lookup(s.sources, token).Some? ==>
      Recent(AfterCallback(s, Lookup(s.sources, token).value, cb.ops), Some(CurrentOf(e)))
  }

  /** A use of one event that the statements are about; sources may fail as they like. */
  predicate EventUsable(s: Loop, e: Event, cb: Callback) {
    var token := ForgetSubId(e.token);
    EventRecent(s, e, cb)
    && (Lookup(s.sources, token).Some? ==> AllUsable(s.(running := Lookup(s.sources, token)), cb.ops))
  }

  /** In addition, no operation of the callback leaves something behind. */
  predicate CallbackWellBehaved(s: Loop, e: Event, cb: Callback) {
    var token := ForgetSubId(e.token);
    EventRecent(s, e, cb)
    && (Lookup(s.sources, token).Some? ==> AllWellBehaved(s.(running := Lookup(s.sources, token)), cb.ops))
  }

  /**
   The failures after a callback that leave something behind, in terms of the state at its
   end: an error skips settling, a failed action skips the sweep, and the sweep itself can
   fail. They matter when the source is registered and has left its slot, or asked for something.
   */
  predicate LeavesUnsettled(back: Loop, d: DispatcherId, token: TokenInner, cb: Callback) {
    var held, registered := Holds(back, d, token), d in back.registered;
    match cb.ret
    case None => back.pending != Continue || (registered && !held)
    case Some(ret) =>
      match ActionFor(back, ret)
      case Remove => registered && !cb.sweepOk
      case Reregister => !held && (if cb.postOk then !cb.sweepOk else registered)
      case Disable => !held && registered && !cb.postOk
      case Continue => !held && registered && !cb.sweepOk
  }

  predicate EventWellBehaved(s: Loop, e: Event, cb: Callback) {
    var token := ForgetSubId(e.token);
    CallbackWellBehaved(s, e, cb)
    && (Lookup(s.sources, token).Some? ==>
          var d := Lookup(s.sources, token).value;
          !LeavesUnsettled(AfterCallback(s, d, cb.ops), d, token, cb))
  }

  predicate WalkWellBehaved(s: Loop, events: seq<Event>, callbacks: seq<Callback>)
    decreases |events|
  {
    events == []
    || var cb := FirstCallback(callbacks);
       var h := HandleEvent(s, events[0], cb);
       EventWellBehaved(s, events[0], cb)
       && (!h.failed ==> WalkWellBehaved(h.loop, events[1..], LaterCallbacks(callbacks)))
  }

  // ---------------------------------------------------------------------------
  // Inside the callback
  // ---------------------------------------------------------------------------

  /** Slots are never given back, and a source enters a slot only under a new generation. */
  predicate GrowsFrom(s: Loop, after: Loop) {
    && after.w == s.w && after.running == s.running && after.needsLifecycle == s.needsLifecycle
    && after.synthetic == s.synthetic
    && |after.generation| == |after.sources| && |after.generation| >= |s.generation| == |s.sources|
    && (forall i :: 0 <= i < |s.generation| ==> after.generation[i] >= s.generation[i])
    && (forall i :: 0 <= i < |s.generation| && after.generation[i] == s.generation[i] ==>
                      after.sources[i].source in {None, s.sources[i].source})
  }

  lemma InsertGrows(s: Loop, d: DispatcherId, ok: bool)
    requires |s.generation| == |s.sources|
    ensures GrowsFrom(s, Perform(s, OpInsert(d, ok)))
  {
    var op := OpInsert(d, ok);
    if !Panics(s, op) {
      var placed := WithSource(s, d);
      var after := Perform(s, op);
      assert after.generation == placed.generation && |after.sources| == |placed.sources|;
      var i := FirstVacant(s.sources);
      forall j | 0 <= j < |s.sources| && j != i
        ensures after.sources[j] == s.sources[j] && after.generation[j] == s.generation[j]
      {
      }
    }
  }

  lemma OpGrows(s: Loop, op: Op)
    requires |s.generation| == |s.sources|
    ensures GrowsFrom(s, Perform(s, op))
  {
    if op.OpInsert? {
      InsertGrows(s, op.d, op.ok);
    }
  }

  lemma {:induction false} OpsGrow(s: Loop, ops: seq<Op>)
    requires |s.generation| == |s.sources|
    ensures GrowsFrom(s, PerformAll(s, ops))
    decreases |ops|
  {
    if ops != [] {
      OpGrows(s, ops[0]);
      OpsGrow(Perform(s, ops[0]), ops[1..]);
    }
  }

  lemma {:induction false} OpsKeep(s: Loop, ops: seq<Op>, current: Option<Current>)
    requires Consistent(s, current) && AllWellBehaved(s, ops)
    requires current.Some? ==> Recent(PerformAll(s, ops), current)
    ensures Consistent(PerformAll(s, ops), current)
    decreases |ops|
  {
    if ops != [] {
      OpsGrow(s, ops);
      OpKeeps(s, ops[0], current);
      OpsKeep(Perform(s, ops[0]), ops[1..], current);
    }
  }

  predicate OpsConsistent(s: Loop, ops: seq<Op>, current: Option<Current>)
    decreases |ops|
  {
    ops == [] || (Consistent(Perform(s, ops[0]), current) && OpsConsistent(Perform(s, ops[0]), ops[1..], current))
  }

  /** The loop is consistent after every operation exactly when none of them breaks it. */
  lemma {:induction false} OpsKeepIff(s: Loop, ops: seq<Op>, current: Option<Current>)
    requires Consistent(s, current) && AllUsable(s, ops) && Recent(PerformAll(s, ops), current)
    ensures OpsConsistent(s, ops, current) <==> AllWellBehaved(s, ops)
    decreases |ops|
  {
    if ops != [] {
      var next := Perform(s, ops[0]);
      OpsGrow(s, ops);
      OpGrows(s, ops[0]);
      OpsGrow(next, ops[1..]);
      OpKeepsIff(s, ops[0], current);
      if Consistent(next, current) {
        OpsKeepIff(next, ops[1..], current);
      }
    }
  }

  /**
   The action that a callback's own requests amount to: the last `update` or `disable` it
   made on itself, as long as it had not removed itself before.
   */
  function RequestedBy(ops: seq<Op>, token: TokenInner, soFar: PostAction): PostAction {
    if ops == [] then soFar
    else
      match ops[0]
      case OpUpdate(t, _) => RequestedBy(ops[1..], token, if t == token then Reregister else soFar)
      case OpDisable(t, _) => RequestedBy(ops[1..], token, if t == token then Disable else soFar)
      case OpRemove(t, _) => if t == token then soFar else RequestedBy(ops[1..], token, soFar)
      case _ => RequestedBy(ops[1..], token, soFar)
  }

  /** A token of the running dispatcher leads to it or to nothing. */
  lemma OwnToken(s: Loop, token: TokenInner, c: Current)
    requires Consistent(s, Some(c)) && Recent(s, Some(c)) && token.subId == 0
    ensures Lookup(s.sources, token) == Some(c.d) ==> token == c.token && Holds(s, c.d, c.token)
    ensures token == c.token ==> Lookup(s.sources, token) in {None, Some(c.d)}
    ensures Holds(s, c.d, c.token) ==> Lookup(s.sources, c.token) == Some(c.d)
  {
  }

  lemma OwnRequest(s: Loop, op: Op, c: Current)
    requires Consistent(s, Some(c)) && Recent(s, Some(c)) && Usable(s, op)
    ensures var after := Perform(s, op);
            && (Holds(after, c.d, c.token) <==> Holds(s, c.d, c.token) && !(op.OpRemove? && op.token == c.token))
            && (if Holds(s, c.d, c.token) && (op.OpUpdate? || op.OpDisable?) && op.token == c.token then
                  after.pending == if op.OpUpdate? then Reregister else Disable
                else after.pending == s.pending)
  {
    match op
    case OpInsert(d, _) =>
    case _ => OwnToken(s, op.token, c);
  }

  /** Requests made inside a callback apply to the source that is running, and the last one wins. */
  lemma {:induction false} PendingIsOwnRequest(s: Loop, ops: seq<Op>, c: Current)
    requires Consistent(s, Some(c)) && AllWellBehaved(s, ops) && Recent(PerformAll(s, ops), Some(c))
    ensures PerformAll(s, ops).pending
            == if Holds(s, c.d, c.token) then RequestedBy(ops, c.token, s.pending) else s.pending
    decreases |ops|
  {
    if ops != [] {
      OpsGrow(s, ops);
      OwnRequest(s, ops[0], c);
      OpKeeps(s, ops[0], Some(c));
      PendingIsOwnRequest(Perform(s, ops[0]), ops[1..], c);
    }
  }

  // ---------------------------------------------------------------------------
  // One event
  // ---------------------------------------------------------------------------

  lemma EnterCallback(s: Loop, e: Event, cb: Callback)
    requires Quiet(s) && Issued(s, e) && EventRecent(s, e, cb)
    requires Lookup(s.sources, ForgetSubId(e.token)).Some?
    ensures StillThere(s, e) && Lookup(s.sources, ForgetSubId(e.token)) == Some(e.origin)
    ensures Holds(s, e.origin, ForgetSubId(e.token))
    ensures Consistent(s.(running := Some(e.origin)), Some(CurrentOf(e)))
  {
    var d := Lookup(s.sources, ForgetSubId(e.token)).value;
    OpsGrow(s.(running := Some(d)), cb.ops);
    SameGeneration(s.w, e.generation, s.generation[e.token.id]);
    assert d == e.origin;
    assert s.sources[e.token.id].token == ForgetSubId(e.token);
    if d in s.registered {
      assert Holds(s, d, s.registered[d]);
    }
  }

  /**
   An event reaches the dispatcher its token was issued to if that insertion is still in
   its slot, and nobody otherwise, whatever the sources answer.
   */
  lemma EventReachesItsSource(s: Loop, e: Event, cb: Callback)
    requires Quiet(s) && Issued(s, e) && EventRecent(s, e, cb)
    ensures HandleEvent(s, e, cb).delivered == if StillThere(s, e) then Some(e.origin) else None
    ensures !StillThere(s, e) ==> HandleEvent(s, e, cb) == Handled(s, None, false)
  {
    if Lookup(s.sources, ForgetSubId(e.token)).Some? {
      EnterCallback(s, e, cb);
    }
  }

  /** What holds of the state when the callback of `e` has returned. */
  lemma LeaveCallback(s: Loop, e: Event, cb: Callback)
    requires Quiet(s) && Issued(s, e) && CallbackWellBehaved(s, e, cb)
    requires Lookup(s.sources, ForgetSubId(e.token)).Some?
    ensures Lookup(s.sources, ForgetSubId(e.token)) == Some(e.origin)
    ensures var back := AfterCallback(s, e.origin, cb.ops);
            && Consistent(back.(running := Some(e.origin)), Some(CurrentOf(e)))
            && Recent(back, Some(CurrentOf(e))) && back.running == None
            && back.pending == RequestedBy(cb.ops, ForgetSubId(e.token), Continue)
  {
    EnterCallback(s, e, cb);
    var inside := s.(running := Some(e.origin));
    OpsKeep(inside, cb.ops, Some(CurrentOf(e)));
    PendingIsOwnRequest(inside, cb.ops, CurrentOf(e));
    OpsGrow(inside, cb.ops);
    var end := PerformAll(inside, cb.ops);
    assert AfterCallback(s, e.origin, cb.ops).(running := Some(e.origin)) == end;
  }

  /** The slot still accepts the token of the current event only while nobody else moved in. */
  lemma OwnSlot(s: Loop, c: Current)
    requires Consistent(s.(running := Some(c.d)), Some(c)) && Recent(s, Some(c))
    ensures Get(s.sources, c.token).Some? ==>
              s.generation[c.token.id] == c.generation && s.sources[c.token.id].source in {None, Some(c.d)}
    ensures Lookup(s.sources, c.token).Some? ==> Holds(s, c.d, c.token)
    ensures forall e :: e in s.registered && s.registered[e] == c.token ==> e == c.d
  {
  }

  /** Nothing differs between the two states but the registration and slot of one dispatcher. */
  ghost predicate OnlyTouches(s: Loop, after: Loop, d: DispatcherId, token: TokenInner) {
    && (forall e :: e != d ==> (e in after.registered <==> e in s.registered))
    && (forall e :: e != d && e in s.registered ==> after.registered[e] == s.registered[e])
    && |after.sources| == |s.sources|
    && (forall i :: 0 <= i < |s.sources| && s.sources[i].source != Some(d) ==> after.sources[i] == s.sources[i])
    && (forall t :: t != token ==> (t in after.lifecycle <==> t in s.lifecycle))
    && after.generation == s.generation && after.synthetic == s.synthetic
    && after.w == s.w && after.needsLifecycle == s.needsLifecycle && after.running == s.running
  }

  lemma ActionIsLocal(s: Loop, c: Current, action: PostAction, ok: bool)
    requires Consistent(s.(running := Some(c.d)), Some(c)) && Recent(s, Some(c)) && s.running == None
    ensures OnlyTouches(s, ApplyPostAction(s, c.d, c.token, action, ok).loop, c.d, c.token)
  {
    OwnSlot(s, c);
  }

  lemma TouchesTransitive(a: Loop, b: Loop, c: Loop, d: DispatcherId, token: TokenInner)
    requires OnlyTouches(a, b, d, token) && OnlyTouches(b, c, d, token)
    ensures OnlyTouches(a, c, d, token)
  {
  }

  lemma SweepIsLocal(s: Loop, d: DispatcherId, token: TokenInner, ok: bool)
    requires s.running == None
    ensures OnlyTouches(s, SweepRemoved(s, d, token, ok), d, token)
  {
  }

  /** What the loop does on behalf of a callback's result concerns only the dispatcher that returned it. */
  lemma PostActionIsLocal(s: Loop, c: Current, ret: PostAction, postOk: bool, sweepOk: bool)
    requires Consistent(s.(running := Some(c.d)), Some(c)) && Recent(s, Some(c)) && s.running == None
    ensures OnlyTouches(s, Conclude(s, c.d, c.token, ret, postOk, sweepOk).loop, c.d, c.token)
  {
    var calm := s.(pending := Continue);
    assert OnlyTouches(s, calm, c.d, c.token);
    PendingIrrelevant(s, c);
    ActionIsLocal(calm, c, ActionFor(s, ret), postOk);
    var settled := ApplyPostAction(calm, c.d, c.token, ActionFor(s, ret), postOk);
    TouchesTransitive(s, calm, settled.loop, c.d, c.token);
    if !settled.failed {
      SweepIsLocal(settled.loop, c.d, c.token, sweepOk);
      TouchesTransitive(s, settled.loop, SweepRemoved(settled.loop, c.d, c.token, sweepOk), c.d, c.token);
    }
  }

  lemma PendingIrrelevant(s: Loop, c: Current)
    requires Consistent(s.(running := Some(c.d)), Some(c)) && Recent(s, Some(c))
    ensures var calm := s.(pending := Continue);
            Consistent(calm.(running := Some(c.d)), Some(c)) && Recent(calm, Some(c))
  {
  }

  lemma DropFromBag(s: Loop, after: Loop, c: Current)
    requires Consistent(s.(running := Some(c.d)), Some(c)) && Recent(s, Some(c))
    requires after.needsLifecycle == s.needsLifecycle && after.registered == s.registered - {c.d}
    requires after.lifecycle == if c.d in s.needsLifecycle then Without(s.lifecycle, c.token) else s.lifecycle
    ensures LifecycleConsistent(after)
  {
    OwnSlot(s, c);
    UnregisteringKeepsLifecycle(s, after, c.d, c.token);
  }

  /** The callback's dispatcher is in its own slot or unregistered: the state is quiet again. */
  lemma QuietAgain(s: Loop, after: Loop, c: Current)
    requires Consistent(s.(running := Some(c.d)), Some(c)) && Recent(s, Some(c))
    requires after.running == None && after.pending == Continue
    requires after.w == s.w && after.generation == s.generation && after.needsLifecycle == s.needsLifecycle
    requires after.sources == s.sources || (c.token.id < |s.sources| && after.sources == SetSource(s.sources, c.token.id, None))
    requires after.sources != s.sources ==> Get(s.sources, c.token).Some?
    requires c.d in after.registered ==> Holds(after, c.d, c.token) && after.registered[c.d] == c.token
    requires forall d :: d != c.d ==> (d in after.registered <==> d in s.registered)
    requires forall d :: d != c.d && d in s.registered ==> after.registered[d] == s.registered[d]
    requires LifecycleConsistent(after)
    ensures Quiet(after)
  {
    OwnSlot(s, c);
    var r := s.(running := Some(c.d));
    forall d | d in after.registered
      ensures Holds(after, d, after.registered[d])
    {
      if d != c.d {
        assert Holds(r, d, r.registered[d]);
      }
    }
  }

  lemma ReregisterActionKeeps(s: Loop, c: Current)
    requires Consistent(s.(running := Some(c.d)), Some(c)) && s.running == None
    ensures Consistent(ReregisterSource(s, c.d, c.token, true).loop.(running := Some(c.d)), Some(c))
  {
    var r := s.(running := Some(c.d));
    var after := ReregisterSource(s, c.d, c.token, true).loop.(running := Some(c.d));
    RegisteringKeepsLifecycle(r, after, c.d, c.token);
    OthersHeld(r, after, c.d);
  }

  lemma DisableActionKeeps(s: Loop, c: Current)
    requires Consistent(s.(running := Some(c.d)), Some(c)) && Recent(s, Some(c)) && s.running == None
    ensures Consistent(UnregisterSource(s, c.d, c.token, true).loop.(running := Some(c.d)), Some(c))
  {
    var r := s.(running := Some(c.d));
    var after := UnregisterSource(s, c.d, c.token, true).loop.(running := Some(c.d));
    DropFromBag(s, after, c);
    OthersHeld(r, after, c.d);
  }

  lemma RemoveActionKeeps(s: Loop, c: Current)
    requires Consistent(s.(running := Some(c.d)), Some(c)) && Recent(s, Some(c)) && s.running == None
    ensures Consistent(ApplyPostAction(s, c.d, c.token, Remove, true).loop.(running := Some(c.d)), Some(c))
  {
    OwnSlot(s, c);
    var r := s.(running := Some(c.d));
    var after := ApplyPostAction(s, c.d, c.token, Remove, true).loop.(running := Some(c.d));
    assert LifecycleConsistent(after);
    OthersHeld(r, after, c.d);
  }

  /** Other dispatchers keep their slots when only the current one's slot and registration change. */
  lemma OthersHeld(r: Loop, after: Loop, d: DispatcherId)
    requires forall e :: e in r.registered && e != d ==> Holds(r, e, r.registered[e])
    requires |after.sources| == |r.sources|
    requires forall i :: 0 <= i < |r.sources| && after.sources[i] != r.sources[i] ==> r.sources[i].source in {None, Some(d)}
    requires forall e :: e in after.registered && e != d ==> e in r.registered && after.registered[e] == r.registered[e]
    ensures forall e :: e in after.registered && e != d ==> Holds(after, e, after.registered[e])
  {
  }

  lemma ActionKeeps(s: Loop, c: Current, action: PostAction, ok: bool)
    requires Consistent(s.(running := Some(c.d)), Some(c)) && Recent(s, Some(c))
    requires s.running == None && s.pending == Continue
    ensures var settled := ApplyPostAction(s, c.d, c.token, action, ok);
            && Consistent(settled.loop.(running := Some(c.d)), Some(c)) && Recent(settled.loop, Some(c))
            && settled.loop.pending == Continue && settled.loop.running == None
            && (settled.failed ==> settled.loop == s)
  {
    match action
    case Reregister =>
      if ok {
        ReregisterActionKeeps(s, c);
      }
    case Disable =>
      if ok {
        DisableActionKeeps(s, c);
      }
    case Remove => RemoveActionKeeps(s, c);
    case Continue =>
  }

  /** With nothing left to do, all is quiet exactly when the current source is not registered out of its slot. */
  lemma QuietIff(s: Loop, c: Current)
    requires Consistent(s.(running := Some(c.d)), Some(c)) && Recent(s, Some(c)) && s.running == None
    ensures Quiet(s) <==> s.pending == Continue && (c.d in s.registered ==> Holds(s, c.d, c.token))
  {
    if s.pending == Continue && (c.d in s.registered ==> Holds(s, c.d, c.token)) {
      QuietAgain(s, s, c);
    }
  }

  lemma SweepQuietsIff(s: Loop, c: Current, ok: bool)
    requires Consistent(s.(running := Some(c.d)), Some(c)) && Recent(s, Some(c))
    requires s.running == None && s.pending == Continue
    ensures Quiet(SweepRemoved(s, c.d, c.token, ok)) <==> (c.d in s.registered && !Holds(s, c.d, c.token) ==> ok)
  {
    OwnSlot(s, c);
    var after := SweepRemoved(s, c.d, c.token, ok);
    if Lookup(s.sources, c.token).None? && ok {
      DropFromBag(s, after, c);
      QuietAgain(s, after, c);
    } else {
      QuietIff(s, c);
    }
  }

  /** What the action itself does to the current dispatcher. */
  lemma ActionEffect(s: Loop, c: Current, action: PostAction, ok: bool)
    requires Consistent(s.(running := Some(c.d)), Some(c)) && Recent(s, Some(c)) && s.running == None
    ensures var settled := ApplyPostAction(s, c.d, c.token, action, ok);
            && (settled.failed <==> action in {Reregister, Disable} && !ok)
            && (settled.failed ==> settled.loop == s)
            && (action != Remove ==> settled.loop.sources == s.sources)
            && (action == Remove ==> !Placed(settled.loop, c.d) && Lookup(settled.loop.sources, c.token).None?
                                     && settled.loop.registered == s.registered)
            && (!settled.failed && action == Reregister ==>
                  c.d in settled.loop.registered && settled.loop.registered[c.d] == c.token)
            && (!settled.failed && action == Reregister ==> settled.loop.lifecycle == Told(s, c.d, c.token))
            && (!settled.failed && action == Disable ==>
                  c.d !in settled.loop.registered && Untold(s, settled.loop, c.d, c.token))
            && (action == Remove ==> settled.loop.lifecycle == s.lifecycle)
            && (action == Continue ==> settled.loop == s)
  {
    WithoutSplits(s.lifecycle, [], c.token);
  }

  /** Settling leaves the loop quiet exactly when its guard says so, whatever the source answers. */
  lemma ConcludeKeepsIff(s: Loop, c: Current, cb: Callback)
    requires Consistent(s.(running := Some(c.d)), Some(c)) && Recent(s, Some(c)) && s.running == None
    requires cb.ret.Some?
    ensures Quiet(Conclude(s, c.d, c.token, cb.ret.value, cb.postOk, cb.sweepOk).loop)
            <==> !LeavesUnsettled(s, c.d, c.token, cb)
  {
    var calm, action := s.(pending := Continue), ActionFor(s, cb.ret.value);
    PendingIrrelevant(s, c);
    ActionKeeps(calm, c, action, cb.postOk);
    ActionEffect(calm, c, action, cb.postOk);
    var settled := ApplyPostAction(calm, c.d, c.token, action, cb.postOk);
    if settled.failed {
      QuietIff(settled.loop, c);
    } else {
      SweepQuietsIff(settled.loop, c, cb.sweepOk);
    }
  }

  /**
   After an event the state is quiet exactly when its guard says so: whoever is registered
   owns its slot, whatever the callback removed, refilled or asked for, and no request is
   left for the next event.
   */
  lemma HandleEventKeepsIff(s: Loop, e: Event, cb: Callback)
    requires Quiet(s) && Issued(s, e) && CallbackWellBehaved(s, e, cb)
    ensures Quiet(HandleEvent(s, e, cb).loop) <==> EventWellBehaved(s, e, cb)
  {
    if Lookup(s.sources, ForgetSubId(e.token)).Some? {
      LeaveCallback(s, e, cb);
      var back := AfterCallback(s, e.origin, cb.ops);
      if cb.ret.Some? {
        ConcludeKeepsIff(back, CurrentOf(e), cb);
      } else {
        QuietIff(back, CurrentOf(e));
      }
    }
  }

  /** The loop is consistent all through the callback and quiet after it. */
  predicate EventQuiet(s: Loop, e: Event, cb: Callback) {
    var token := ForgetSubId(e.token);
    Lookup(s.sources, token).Some? ==>
      && OpsConsistent(s.(running := Lookup(s.sources, token)), cb.ops, Some(CurrentOf(e)))
      && Quiet(HandleEvent(s, e, cb).loop)
  }

  lemma EventQuietIff(s: Loop, e: Event, cb: Callback)
    requires Quiet(s) && Issued(s, e) && EventUsable(s, e, cb)
    ensures EventQuiet(s, e, cb) <==> EventWellBehaved(s, e, cb)
  {
    if Lookup(s.sources, ForgetSubId(e.token)).Some? {
      EnterCallback(s, e, cb);
      var inside := s.(running := Some(e.origin));
      assert Recent(PerformAll(inside, cb.ops), Some(CurrentOf(e)));
      OpsKeepIff(inside, cb.ops, Some(CurrentOf(e)));
      if AllWellBehaved(inside, cb.ops) {
        HandleEventKeepsIff(s, e, cb);
      }
    }
  }

  /** How a settled action left the current dispatcher. */
  predicate SettledAs(back: Loop, settled: Settled, c: Current, action: PostAction) {
    var registered := c.d in settled.loop.registered;
    if settled.failed then action in {Reregister, Disable} && settled.loop == back.(pending := Continue)
    else if action == Remove || !Holds(back, c.d, c.token) then !registered && !Placed(settled.loop, c.d)
    else
      && Holds(settled.loop, c.d, c.token)
      && (action == Reregister ==> registered && settled.loop.registered[c.d] == c.token)
      && (action == Disable ==> !registered)
      && (action == Continue ==> settled.loop.registered == back.registered)
  }

  lemma SweepEffect(s: Loop, c: Current, ok: bool)
    requires Consistent(s.(running := Some(c.d)), Some(c)) && Recent(s, Some(c))
    requires s.running == None && (c.d in s.registered && !Holds(s, c.d, c.token) ==> ok)
    ensures var after := SweepRemoved(s, c.d, c.token, ok);
            && after.sources == s.sources
            && (Holds(s, c.d, c.token) ==> after == s)
            && (!Holds(s, c.d, c.token) ==> c.d !in after.registered && !Placed(after, c.d))
            && (!Holds(s, c.d, c.token) && ok ==> Untold(s, after, c.d, c.token))
  {
    WithoutSplits(s.lifecycle, [], c.token);
    OwnSlot(s, c);
  }

  lemma ConcludeSettles(s: Loop, c: Current, cb: Callback)
    requires Consistent(s.(running := Some(c.d)), Some(c)) && Recent(s, Some(c)) && s.running == None
    requires cb.ret.Some? && !LeavesUnsettled(s, c.d, c.token, cb)
    ensures SettledAs(s, Conclude(s, c.d, c.token, cb.ret.value, cb.postOk, cb.sweepOk), c, ActionFor(s, cb.ret.value))
  {
    var calm, action := s.(pending := Continue), ActionFor(s, cb.ret.value);
    PendingIrrelevant(s, c);
    ActionKeeps(calm, c, action, cb.postOk);
    ActionEffect(calm, c, action, cb.postOk);
    var settled := ApplyPostAction(calm, c.d, c.token, action, cb.postOk);
    if !settled.failed {
      SweepEffect(settled.loop, c, cb.sweepOk);
    }
  }

  /** The action that the loop carries out for a callback that returned. */
  function ActionOf(e: Event, cb: Callback): PostAction
    requires cb.ret.Some?
  {
    if cb.ret.value == Continue then RequestedBy(cb.ops, ForgetSubId(e.token), Continue) else cb.ret.value
  }

  /**
   What an event amounts to for the source that got it: the action it returned, or, when it
   returned `Continue`, what it asked for on itself, is what happened to it. A source that
   fails that action stays as it was at the end of its callback.
   */
  lemma EventSettled(s: Loop, e: Event, cb: Callback)
    requires Quiet(s) && Issued(s, e) && EventWellBehaved(s, e, cb) && StillThere(s, e) && cb.ret.Some?
    ensures var h := HandleEvent(s, e, cb);
            SettledAs(AfterCallback(s, e.origin, cb.ops), Settled(h.loop, h.failed), CurrentOf(e), ActionOf(e, cb))
  {
    LeaveCallback(s, e, cb);
    ConcludeSettles(AfterCallback(s, e.origin, cb.ops), CurrentOf(e), cb);
  }

  /**
   An event that reaches its source comes to all that its callback did, and then to
   something about that source alone; after an error, to nothing more. It is reported as
   failed exactly for an error and for an action that the source fails.
   */
  lemma EventIsItsCallback(s: Loop, e: Event, cb: Callback)
    requires Quiet(s) && Issued(s, e) && CallbackWellBehaved(s, e, cb) && StillThere(s, e)
    ensures var h, back := HandleEvent(s, e, cb), AfterCallback(s, e.origin, cb.ops);
            && back == PerformAll(s.(running := Some(e.origin)), cb.ops).(running := None)
            && OnlyTouches(back, h.loop, e.origin, ForgetSubId(e.token))
            && (cb.ret == None ==> h.loop == back)
            && (h.failed <==> cb.ret == None || (ActionOf(e, cb) in {Reregister, Disable} && !cb.postOk))
  {
    LeaveCallback(s, e, cb);
    var back, c := AfterCallback(s, e.origin, cb.ops), CurrentOf(e);
    if cb.ret.Some? {
      PostActionIsLocal(back, c, cb.ret.value, cb.postOk, cb.sweepOk);
      var calm := back.(pending := Continue);
      PendingIrrelevant(back, c);
      ActionEffect(calm, c, ActionFor(back, cb.ret.value), cb.postOk);
    }
  }
}
