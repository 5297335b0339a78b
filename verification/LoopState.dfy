/**
 The state shared by a loop and its handles, and what every operation does to it:
 the dispatchers' side (src/sources/mod.rs) and the handle's side (src/loop_logic.rs).

 The calls into a user's event source can succeed or fail; the `ok` arguments stand for
 what the source answered. `generation` is not part of the program's state: it counts
 how often each slot has been reused, so that statements can tell two insertions with
 equal tokens apart. No operation looks at it.
 */
module LoopState {
  import opened Wrappers
  import opened Tokens
  import opened SourceLists

  datatype PostAction = Continue | Reregister | Disable | Remove

  /** An event in flight. `origin` and `generation` record the insertion its token was issued for. */
  datatype Event = Event(token: TokenInner, origin: DispatcherId, generation: nat)

  datatype Loop = Loop(
    w: Width,
    sources: seq<SourceEntry>,
    lifecycle: seq<TokenInner>,
    pending: PostAction,
    synthetic: seq<Event>,
    // What the poller holds: the token under which each dispatcher's source is registered.
    registered: map<DispatcherId, TokenInner>,
    // The dispatcher whose `process_events` is on the stack and keeps it mutably borrowed.
    running: Option<DispatcherId>,
    // The dispatchers of sources with NEEDS_EXTRA_LIFECYCLE_EVENTS.
    needsLifecycle: set<DispatcherId>,
    generation: seq<nat>)

  // ---------------------------------------------------------------------------
  // AdditionalLifecycleEventsSet and EventDispatcher
  // ---------------------------------------------------------------------------

  /** `Vec::retain` with "differs from `token`": drops every copy and keeps the order of the rest. */
  function Without(tokens: seq<TokenInner>, token: TokenInner): (rest: seq<TokenInner>)
    ensures forall t :: t in rest <==> t in tokens && t != token
  {
    if tokens == [] then []
    else if tokens[0] == token then Without(tokens[1..], token)
    else [tokens[0]] + Without(tokens[1..], token)
  }

  /** The filter works element by element: order and multiplicity of the other tokens stay. */
  lemma {:induction false} WithoutSplits(a: seq<TokenInner>, b: seq<TokenInner>, token: TokenInner)
    ensures Without(a + b, token) == Without(a, token) + Without(b, token)
    ensures forall t :: multiset(Without(a, token))[t] == if t == token then 0 else multiset(a)[t]
  {
    if a == [] {
      assert a + b == b;
    } else {
      assert (a + b)[1..] == a[1..] + b;
      assert a == [a[0]] + a[1..];
      WithoutSplits(a[1..], b, token);
    }
  }

  /** A dispatcher's answer: done, put off because its own callback is running, or the source's error. */
  datatype Answer = Done | Deferred | Failed

  datatype Called = Called(loop: Loop, answer: Answer)

  function RegisterSource(s: Loop, d: DispatcherId, token: TokenInner, ok: bool): Called
    requires s.running != Some(d)
  {
    var pushed := if d in s.needsLifecycle then s.(lifecycle := s.lifecycle + [token]) else s;
    if ok then Called(pushed.(registered := s.registered[d := token]), Done) else Called(pushed, Failed)
  }

  function ReregisterSource(s: Loop, d: DispatcherId, token: TokenInner, ok: bool): Called {
    if s.running == Some(d) then Called(s, Deferred)
    else if !ok then Called(s, Failed)
    else
      var moved := s.(registered := s.registered[d := token]);
      Called(if d in s.needsLifecycle then moved.(lifecycle := s.lifecycle + [token]) else moved, Done)
  }

  function UnregisterSource(s: Loop, d: DispatcherId, token: TokenInner, ok: bool): Called {
    if s.running == Some(d) then Called(s, Deferred)
    else if !ok then Called(s, Failed)
    else
      var gone := s.(registered := s.registered - {d});
      Called(if d in s.needsLifecycle then gone.(lifecycle := Without(s.lifecycle, token)) else gone, Done)
  }

  // ---------------------------------------------------------------------------
  // LoopHandle
  // ---------------------------------------------------------------------------

  datatype Reply = Accepted | InvalidToken | SourceError

  datatype Replied = Replied(loop: Loop, reply: Reply)

  function WithSource(s: Loop, d: DispatcherId): Loop {
    var i := FirstVacant(s.sources);
    var slots := WithVacantEntry(s.w, s.sources);
    s.(sources := SetSource(slots, i, Some(d)),
       generation := if i < |s.generation| then s.generation[i := s.generation[i] + 1] else s.generation + [0])
  }

  function RegisterDispatcher(s: Loop, d: DispatcherId, ok: bool): Replied
    requires s.running != Some(d)
  {
    var i := FirstVacant(s.sources);
    var placed := WithSource(s, d);
    var called := RegisterSource(placed, d, placed.sources[i].token, ok);
    if called.answer.Failed? then
      Replied(called.loop.(sources := SetSource(called.loop.sources, i, None)), SourceError)
    else Replied(called.loop, Accepted)
  }

  function Enable(s: Loop, token: TokenInner, ok: bool): Replied
    requires Lookup(s.sources, token).Some? ==> s.running != Lookup(s.sources, token)
  {
    match Lookup(s.sources, token)
    case None => Replied(s, InvalidToken)
    case Some(d) =>
      var called := RegisterSource(s, d, s.sources[token.id].token, ok);
      Replied(called.loop, if called.answer.Failed? then SourceError else Accepted)
  }

  function Update(s: Loop, token: TokenInner, ok: bool): Replied {
    match Lookup(s.sources, token)
    case None => Replied(s, InvalidToken)
    case Some(d) =>
      var called := ReregisterSource(s, d, s.sources[token.id].token, ok);
      match called.answer
      case Done => Replied(called.loop, Accepted)
      case Deferred => Replied(called.loop.(pending := Reregister), Accepted)
      case Failed => Replied(called.loop, SourceError)
  }

  function DisableSource(s: Loop, token: TokenInner, ok: bool): Replied {
    match Lookup(s.sources, token)
    case None => Replied(s, InvalidToken)
    case Some(d) =>
      var called := UnregisterSource(s, d, token, ok);
      match called.answer
      case Done => Replied(called.loop, Accepted)
      case Deferred => Replied(called.loop.(pending := Disable), Accepted)
      case Failed => Replied(called.loop, SourceError)
  }

  /** Errors are only logged, so there is nothing to report. */
  function RemoveSource(s: Loop, token: TokenInner, ok: bool): Loop {
    match Lookup(s.sources, token)
    case None => s
    case Some(d) => UnregisterSource(s.(sources := SetSource(s.sources, token.id, None)), d, token, ok).loop
  }

  /** What user code can do with a handle, inside or outside a callback. */
  datatype Op =
    | OpInsert(d: DispatcherId, ok: bool)
    | OpEnable(token: TokenInner, ok: bool)
    | OpUpdate(token: TokenInner, ok: bool)
    | OpDisable(token: TokenInner, ok: bool)
    | OpRemove(token: TokenInner, ok: bool)

  /**
   Enabling or inserting the dispatcher that is running panics on its `RefCell`, and so
   does a slot id beyond 32 bits. A panic leaves the loop for good, so no statement is
   about callbacks that do it.
   */
  predicate Panics(s: Loop, op: Op) {
    match op
    case OpInsert(d, _) =>
      s.running == Some(d) || (FirstVacant(s.sources) == |s.sources| && |s.sources| >= U32_COUNT)
    case OpEnable(token, _) => Lookup(s.sources, token).Some? && s.running == Lookup(s.sources, token)
    case _ => false
  }

  function Perform(s: Loop, op: Op): Loop {
    if Panics(s, op) then s
    else
      match op
      case OpInsert(d, ok) => RegisterDispatcher(s, d, ok).loop
      case OpEnable(token, ok) => Enable(s, token, ok).loop
      case OpUpdate(token, ok) => Update(s, token, ok).loop
      case OpDisable(token, ok) => DisableSource(s, token, ok).loop
      case OpRemove(token, ok) => RemoveSource(s, token, ok)
  }

  predicate Placed(s: Loop, d: DispatcherId) {
    exists i :: 0 <= i < |s.sources| && s.sources[i].source == Some(d)
  }

  /**
   What the statements ask of every use of a handle: it does not panic, a dispatcher is
   inserted in one slot at a time, and tokens are ones that a loop gave out (which have no
   sub-id). Every source may answer every call with success or failure.
   */
  predicate Usable(s: Loop, op: Op) {
    && !Panics(s, op)
    && match op
       case OpInsert(d, _) => !Placed(s, d)
       case OpEnable(token, _) => token.subId == 0
       case OpUpdate(token, _) => token.subId == 0
       case OpDisable(token, _) => token.subId == 0
       case OpRemove(token, _) => token.subId == 0
  }

  /**
   The failures that leave something behind: `register` pushes the lifecycle token before
   the source answers, and `remove` empties the slot before the source answers.
   */
  predicate Breaks(s: Loop, op: Op) {
    match op
    case OpInsert(d, ok) => !ok && d in s.needsLifecycle
    case OpEnable(token, ok) =>
      !ok && Lookup(s.sources, token).Some?
      && Lookup(s.sources, token).value in s.needsLifecycle && Lookup(s.sources, token).value !in s.registered
    case OpRemove(token, ok) =>
      !ok && Lookup(s.sources, token).Some?
      && s.running != Lookup(s.sources, token) && Lookup(s.sources, token).value in s.registered
    case _ => false
  }

  predicate WellBehaved(s: Loop, op: Op) {
    Usable(s, op) && !Breaks(s, op)
  }

  predicate AllUsable(s: Loop, ops: seq<Op>)
    decreases |ops|
  {
    ops == [] || (Usable(s, ops[0]) && AllUsable(Perform(s, ops[0]), ops[1..]))
  }

  predicate AllWellBehaved(s: Loop, ops: seq<Op>)
    decreases |ops|
  {
    ops == [] || (WellBehaved(s, ops[0]) && AllWellBehaved(Perform(s, ops[0]), ops[1..]))
  }

  function PerformAll(s: Loop, ops: seq<Op>): Loop
    decreases |ops|
  {
    if ops == [] then s else PerformAll(Perform(s, ops[0]), ops[1..])
  }

  // ---------------------------------------------------------------------------
  // What each operation comes to
  // ---------------------------------------------------------------------------

  /** One more token in the bag, for a source that asked for lifecycle events. */
  function Told(s: Loop, d: DispatcherId, token: TokenInner): seq<TokenInner> {
    s.lifecycle + if d in s.needsLifecycle then [token] else []
  }

  /** The two loops differ in slots, registrations and the lifecycle bag at most. */
  predicate SameElsewhere(s: Loop, after: Loop) {
    && after.w == s.w && after.pending == s.pending && after.synthetic == s.synthetic
    && after.running == s.running && after.needsLifecycle == s.needsLifecycle
  }

  /** The bag is that of `s` without the token, or as it was for a source that did not ask for events. */
  ghost predicate Untold(s: Loop, after: Loop, d: DispatcherId, token: TokenInner) {
    && (d !in s.needsLifecycle ==> after.lifecycle == s.lifecycle)
    && (d in s.needsLifecycle ==>
          forall t :: multiset(after.lifecycle)[t] == if t == token then 0 else multiset(s.lifecycle)[t])
  }

  /**
   An accepted insertion puts the source in the first vacant slot, under the slot's next
   version, registers it under that token and, if it asked, adds it to the bag. One that the
   source refuses leaves the slot empty and registers nothing.
   */
  lemma InsertEffect(s: Loop, d: DispatcherId, ok: bool)
    requires !Panics(s, OpInsert(d, ok)) && WellFormedSlots(s.w, s.sources)
    ensures var r, i := RegisterDispatcher(s, d, ok), FirstVacant(s.sources);
            var token := if i < |s.sources| then IncrementVersion(s.w, s.sources[i].token) else TokenInner(i, 0, 0);
            && Perform(s, OpInsert(d, ok)) == r.loop
            && r.reply == (if ok then Accepted else SourceError)
            && i < |r.loop.sources| && r.loop.sources[i] == SourceEntry(token, if ok then Some(d) else None)
            && (ok ==> Lookup(r.loop.sources, token) == Some(d))
            && (forall j :: 0 <= j < |s.sources| && j != i ==> r.loop.sources[j] == s.sources[j])
            && r.loop.registered == (if ok then s.registered[d := token] else s.registered)
            && r.loop.lifecycle == Told(s, d, token) && SameElsewhere(s, r.loop)
  {
  }

  /** An accepted `enable` registers the source found under its slot's token, and nobody else. */
  lemma EnableEffect(s: Loop, token: TokenInner, ok: bool)
    requires !Panics(s, OpEnable(token, ok))
    ensures var r := Enable(s, token, ok);
            && Perform(s, OpEnable(token, ok)) == r.loop && r.loop.sources == s.sources && SameElsewhere(s, r.loop)
            && match Lookup(s.sources, token)
               case None => r.reply == InvalidToken && r.loop == s
               case Some(d) =>
                 var own := s.sources[token.id].token;
                 && r.reply == (if ok then Accepted else SourceError)
                 && r.loop.registered == (if ok then s.registered[d := own] else s.registered)
                 && r.loop.lifecycle == Told(s, d, own)
  {
  }

  /** `update` registers the source anew under its slot's token, or remembers to while it is running. */
  lemma UpdateEffect(s: Loop, token: TokenInner, ok: bool)
    ensures var r := Update(s, token, ok);
            && Perform(s, OpUpdate(token, ok)) == r.loop && r.loop.sources == s.sources
            && match Lookup(s.sources, token)
               case None => r.reply == InvalidToken && r.loop == s
               case Some(d) =>
                 var own := s.sources[token.id].token;
                 if s.running == Some(d) then r.reply == Accepted && r.loop == s.(pending := Reregister)
                 else if !ok then r.reply == SourceError && r.loop == s
                 else
                   && r.reply == Accepted && r.loop.registered == s.registered[d := own]
                   && r.loop.lifecycle == Told(s, d, own) && SameElsewhere(s, r.loop)
  {
  }

  /** `disable` unregisters the source and takes it out of the bag, or remembers to while it is running. */
  lemma DisableEffect(s: Loop, token: TokenInner, ok: bool)
    ensures var r := DisableSource(s, token, ok);
            && Perform(s, OpDisable(token, ok)) == r.loop && r.loop.sources == s.sources
            && match Lookup(s.sources, token)
               case None => r.reply == InvalidToken && r.loop == s
               case Some(d) =>
                 if s.running == Some(d) then r.reply == Accepted && r.loop == s.(pending := Disable)
                 else if !ok then r.reply == SourceError && r.loop == s
                 else
                   && r.reply == Accepted && r.loop.registered == s.registered - {d}
                   && Untold(s, r.loop, d, token) && SameElsewhere(s, r.loop)
  {
    WithoutSplits(s.lifecycle, [], token);
  }

  /** `remove` empties the slot whatever the source answers, and unregisters it unless it is running or fails. */
  lemma RemoveEffect(s: Loop, token: TokenInner, ok: bool)
    ensures var after := Perform(s, OpRemove(token, ok));
            && after == RemoveSource(s, token, ok)
            && match Lookup(s.sources, token)
               case None => after == s
               case Some(d) =>
                 && |after.sources| == |s.sources|
                 && after.sources[token.id] == SourceEntry(s.sources[token.id].token, None)
                 && (forall j :: 0 <= j < |s.sources| && j != token.id ==> after.sources[j] == s.sources[j])
                 && SameElsewhere(s, after)
                 && (if s.running == Some(d) || !ok then
                       after.registered == s.registered && after.lifecycle == s.lifecycle
                     else after.registered == s.registered - {d} && Untold(s, after, d, token))
  {
    WithoutSplits(s.lifecycle, [], token);
  }

  /** Performing operations is performing the first and then the others. */
  lemma {:induction false} PerformSplits(s: Loop, a: seq<Op>, b: seq<Op>)
    ensures PerformAll(s, a + b) == PerformAll(PerformAll(s, a), b)
    ensures forall op :: PerformAll(s, [op]) == Perform(s, op)
    decreases |a|
  {
    forall op
      ensures PerformAll(s, [op]) == Perform(s, op)
    {
      assert [op][1..] == [];
    }
    if a == [] {
      assert a + b == b;
    } else {
      assert (a + b)[1..] == a[1..] + b;
      PerformSplits(Perform(s, a[0]), a[1..], b);
    }
  }
}
