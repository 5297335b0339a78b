/**
 What every operation keeps true of a loop, between events and inside a callback.
 */
module LoopInvariant {
  import opened Wrappers
  import opened Tokens
  import opened SourceLists
  import opened LoopState

  /** The slot named by `token` is of that version and owns `d`. */
  predicate Holds(s: Loop, d: DispatcherId, token: TokenInner) {
    token.id < |s.sources| && s.sources[token.id] == SourceEntry(token, Some(d))
  }

  predicate SlotsConsistent(s: Loop) {
    && WellFormedSlots(s.w, s.sources)
    && |s.generation| == |s.sources|
    && (forall i :: 0 <= i < |s.sources| ==> s.sources[i].token.version == s.generation[i] % Versions(s.w))
    && (forall i, j ::
          (0 <= i < |s.sources| && 0 <= j < |s.sources| && s.sources[i].source.Some?
           && s.sources[i].source == s.sources[j].source)
          ==> i == j)
  }

  /** The event being handled: whose it is, its registration token, and the insertion it belongs to. */
  datatype Current = Current(d: DispatcherId, token: TokenInner, generation: nat)

  /** The running dispatcher is in its own slot or in none, whatever the callback put in its slot since. */
  predicate CurrentConsistent(s: Loop, c: Current) {
    && c.token.id < |s.sources| && c.token.id < |s.generation|
    && c.token == TokenInner(c.token.id, c.generation % Versions(s.w), 0)
    && c.generation <= s.generation[c.token.id]
    && (s.generation[c.token.id] == c.generation ==> s.sources[c.token.id].source in {None, Some(c.d)})
    && (forall i :: 0 <= i < |s.sources| && s.sources[i].source == Some(c.d) ==>
                      i == c.token.id && s.generation[i] == c.generation)
    && (c.d in s.registered ==> s.registered[c.d] == c.token)
  }

  /** The lifecycle bag holds, as a set, the tokens of the registered sources that asked for it. */
  predicate LifecycleConsistent(s: Loop) {
    && (forall t :: t in s.lifecycle ==> exists d :: d in s.registered && d in s.needsLifecycle && s.registered[d] == t)
    && (forall d :: d in s.registered && d in s.needsLifecycle ==> s.registered[d] in s.lifecycle)
  }

  predicate Consistent(s: Loop, current: Option<Current>) {
    && SlotsConsistent(s)
    && s.running == (if current.Some? then Some(current.value.d) else None)
    && (current.Some? ==> CurrentConsistent(s, current.value))
    && (forall d :: d in s.registered && s.running != Some(d) ==> Holds(s, d, s.registered[d]))
    && LifecycleConsistent(s)
  }

  /** The state between two events, and between two dispatches. */
  predicate Quiet(s: Loop) {
    Consistent(s, None) && s.pending == Continue
  }

  /** The slot of the current event has not gone through all versions since the event was produced. */
  predicate Recent(s: Loop, current: Option<Current>) {
    current.Some? ==>
      current.value.token.id < |s.generation|
      && s.generation[current.value.token.id] - current.value.generation < Versions(s.w)
  }

  /** Generations closer than a version cycle are equal as soon as the versions are. */
  lemma SameGeneration(w: Width, a: nat, b: nat)
    requires a <= b < a + Versions(w)
    requires a % Versions(w) == b % Versions(w)
    ensures a == b
  {
  }

  /** Only the dispatcher in a slot can be registered under the slot's token. */
  lemma TokenOwner(s: Loop, current: Option<Current>, i: nat, d: DispatcherId)
    requires Consistent(s, current) && Recent(s, current)
    requires i < |s.sources| && d in s.registered && s.registered[d] == s.sources[i].token
    requires s.sources[i].source.Some?
    ensures s.sources[i].source == Some(d)
  {
  }

  lemma InsertKeepsCurrent(s: Loop, d: DispatcherId, c: Current)
    requires SlotsConsistent(s) && CurrentConsistent(s, c) && c.d != d && !Placed(s, d)
    ensures CurrentConsistent(WithSource(s, d), c)
  {
  }

  lemma InsertKeepsHeld(s: Loop, d: DispatcherId, e: DispatcherId, token: TokenInner)
    requires SlotsConsistent(s) && Holds(s, e, token)
    ensures Holds(WithSource(s, d), e, token)
  {
  }

  /** Reserving a slot for a source that is in none, before the source is asked to register. */
  lemma Reserved(s: Loop, d: DispatcherId, current: Option<Current>)
    requires Consistent(s, current) && s.running != Some(d) && !Placed(s, d)
    ensures var placed := WithSource(s, d);
            && SlotsConsistent(placed) && Holds(placed, d, placed.sources[FirstVacant(s.sources)].token)
            && (current.Some? ==> CurrentConsistent(placed, current.value))
            && (forall e :: e in s.registered && s.running != Some(e) ==> Holds(placed, e, s.registered[e]))
            && d !in s.registered
  {
    SlotReused(s, d);
    if current.Some? {
      InsertKeepsCurrent(s, d, current.value);
    }
    forall e | e in s.registered && s.running != Some(e)
      ensures Holds(WithSource(s, d), e, s.registered[e])
    {
      InsertKeepsHeld(s, d, e, s.registered[e]);
    }
  }

  lemma InsertKeeps(s: Loop, d: DispatcherId, ok: bool, current: Option<Current>)
    requires Consistent(s, current) && WellBehaved(s, OpInsert(d, ok))
    ensures Consistent(Perform(s, OpInsert(d, ok)), current)
  {
    var placed := WithSource(s, d);
    var i := FirstVacant(s.sources);
    var token := placed.sources[i].token;
    var after := Perform(s, OpInsert(d, ok));
    Reserved(s, d, current);
    if ok {
      assert after == RegisterSource(placed, d, token, true).loop;
      RegisteringKeepsLifecycle(s, after, d, token);
      RegistrationChanged(placed, after, d, token, current);
    } else {
      assert after == placed.(sources := SetSource(placed.sources, i, None));
      SlotVacated(placed, after, i, d, current);
    }
  }

  /** The slot reserved for a source that failed to register is empty again. */
  lemma SlotVacated(placed: Loop, after: Loop, i: nat, d: DispatcherId, current: Option<Current>)
    requires SlotsConsistent(placed) && (current.Some? ==> CurrentConsistent(placed, current.value))
    requires placed.running == (if current.Some? then Some(current.value.d) else None)
    requires forall e :: e in placed.registered && placed.running != Some(e) ==> Holds(placed, e, placed.registered[e])
    requires i < |placed.sources| && placed.sources[i].source == Some(d) && d !in placed.registered
    requires LifecycleConsistent(placed) && after == placed.(sources := SetSource(placed.sources, i, None))
    ensures Consistent(after, current)
  {
    forall e | e in after.registered && after.running != Some(e)
      ensures Holds(after, e, after.registered[e])
    {
      assert Holds(placed, e, placed.registered[e]);
    }
  }

  /** A source that fails to register on insertion leaves a token in the bag that nobody is registered under. */
  lemma InsertBreaks(s: Loop, d: DispatcherId, current: Option<Current>)
    requires Consistent(s, current) && Usable(s, OpInsert(d, false)) && d in s.needsLifecycle
    requires Recent(Perform(s, OpInsert(d, false)), current)
    ensures !Consistent(Perform(s, OpInsert(d, false)), current)
  {
    var i := FirstVacant(s.sources);
    var token := WithSource(s, d).sources[i].token;
    var after := Perform(s, OpInsert(d, false));
    Reserved(s, d, current);
    assert token in after.lifecycle;
    forall e | e in s.registered
      ensures s.registered[e] != token
    {
      if s.running == Some(e) && s.registered[e] == token {
        SameGeneration(s.w, current.value.generation, after.generation[i]);
      }
    }
  }

  /** A state in which only the registration of one dispatcher, in its own slot, changed. */
  lemma RegistrationChanged(s: Loop, after: Loop, d: DispatcherId, token: TokenInner, current: Option<Current>)
    requires SlotsConsistent(s) && (current.Some? ==> CurrentConsistent(s, current.value))
    requires s.running == (if current.Some? then Some(current.value.d) else None)
    requires forall e :: e in s.registered && s.running != Some(e) ==> Holds(s, e, s.registered[e])
    requires after.w == s.w && after.sources == s.sources && after.generation == s.generation
    requires after.running == s.running && s.running != Some(d) && Holds(s, d, token)
    requires forall e :: e != d && e in after.registered ==> e in s.registered && after.registered[e] == s.registered[e]
    requires d in after.registered ==> after.registered[d] == token
    requires LifecycleConsistent(after)
    ensures Consistent(after, current)
  {
    forall e | e in after.registered && after.running != Some(e)
      ensures Holds(after, e, after.registered[e])
    {
      assert e != d ==> Holds(s, e, s.registered[e]);
    }
  }

  lemma NextVersion(w: Width, t: TokenInner, generation: nat)
    requires t.version == generation % Versions(w)
    ensures IncrementVersion(w, t).version == (generation + 1) % Versions(w)
  {
  }

  lemma SlotReused(s: Loop, d: DispatcherId)
    requires SlotsConsistent(s) && !Placed(s, d)
    ensures SlotsConsistent(WithSource(s, d))
    ensures var i := FirstVacant(s.sources);
            Holds(WithSource(s, d), d, WithSource(s, d).sources[i].token)
  {
    var i := FirstVacant(s.sources);
    var after := WithSource(s, d);
    if i < |s.sources| {
      NextVersion(s.w, s.sources[i].token, s.generation[i]);
    }
    forall j | 0 <= j < |after.sources|
      ensures after.sources[j].token.version == after.generation[j] % Versions(s.w)
    {
      assert j != i ==> after.sources[j] == s.sources[j] && after.generation[j] == s.generation[j];
    }
    forall j | 0 <= j < |after.sources| && j != i
      ensures after.sources[j].source != Some(d)
    {
      assert after.sources[j] == s.sources[j];
    }
  }

  lemma RegisteringKeepsLifecycle(s: Loop, after: Loop, d: DispatcherId, token: TokenInner)
    requires LifecycleConsistent(s) && after.needsLifecycle == s.needsLifecycle
    requires d in s.registered ==> s.registered[d] == token
    requires after.registered == s.registered[d := token]
    requires after.lifecycle == if d in s.needsLifecycle then s.lifecycle + [token] else s.lifecycle
    ensures LifecycleConsistent(after)
  {
  }

  /** `token` may be dropped from the bag together with `d` when no other source is registered under it. */
  lemma UnregisteringKeepsLifecycle(s: Loop, after: Loop, d: DispatcherId, token: TokenInner)
    requires LifecycleConsistent(s) && after.needsLifecycle == s.needsLifecycle
    requires d in s.registered ==> s.registered[d] == token
    requires forall e :: e in s.registered && s.registered[e] == token ==> e == d
    requires after.registered == s.registered - {d}
    requires after.lifecycle == if d in s.needsLifecycle then Without(s.lifecycle, token) else s.lifecycle
    ensures LifecycleConsistent(after)
  {
  }

  /** In a consistent state a source found under a token is registered, if at all, under that token. */
  lemma FoundToken(s: Loop, current: Option<Current>, token: TokenInner)
    requires Consistent(s, current) && Recent(s, current)
    requires token.subId == 0 && Lookup(s.sources, token).Some?
    ensures var d := Lookup(s.sources, token).value;
            && Holds(s, d, token)
            && (d in s.registered ==> s.registered[d] == token)
            && (forall e :: e in s.registered && s.registered[e] == token ==> e == d)
  {
    var d := Lookup(s.sources, token).value;
    assert s.sources[token.id].token == token;
    forall e | e in s.registered && s.registered[e] == token
      ensures e == d
    {
      TokenOwner(s, current, token.id, e);
    }
  }

  lemma EnableKeepsIff(s: Loop, token: TokenInner, ok: bool, current: Option<Current>)
    requires Consistent(s, current) && Recent(s, current) && Usable(s, OpEnable(token, ok))
    ensures Consistent(Perform(s, OpEnable(token, ok)), current) <==> !Breaks(s, OpEnable(token, ok))
  {
    var after := Perform(s, OpEnable(token, ok));
    if Lookup(s.sources, token).Some? {
      FoundToken(s, current, token);
      var d := Lookup(s.sources, token).value;
      if Breaks(s, OpEnable(token, ok)) {
        assert token in after.lifecycle;
      } else {
        if ok || (d in s.needsLifecycle && d in s.registered) {
          assert d in s.registered ==> s.registered[d := token] == s.registered;
          RegisteringKeepsLifecycle(s, after, d, token);
        }
        RegistrationChanged(s, after, d, token, current);
      }
    }
  }

  lemma UpdateKeeps(s: Loop, token: TokenInner, ok: bool, current: Option<Current>)
    requires Consistent(s, current) && Recent(s, current) && WellBehaved(s, OpUpdate(token, ok))
    ensures Consistent(Perform(s, OpUpdate(token, ok)), current)
  {
    var after := Perform(s, OpUpdate(token, ok));
    if Lookup(s.sources, token).Some? {
      FoundToken(s, current, token);
      var d := Lookup(s.sources, token).value;
      if s.running != Some(d) && ok {
        RegisteringKeepsLifecycle(s, after, d, token);
        RegistrationChanged(s, after, d, token, current);
      } else {
        assert after == s.(pending := after.pending);
        PendingChanged(s, after.pending, current);
      }
    }
  }

  lemma DisableKeeps(s: Loop, token: TokenInner, ok: bool, current: Option<Current>)
    requires Consistent(s, current) && Recent(s, current) && WellBehaved(s, OpDisable(token, ok))
    ensures Consistent(Perform(s, OpDisable(token, ok)), current)
  {
    var after := Perform(s, OpDisable(token, ok));
    if Lookup(s.sources, token).Some? {
      FoundToken(s, current, token);
      var d := Lookup(s.sources, token).value;
      if s.running != Some(d) && ok {
        UnregisteringKeepsLifecycle(s, after, d, token);
        RegistrationChanged(s, after, d, token, current);
      } else {
        assert after == s.(pending := after.pending);
        PendingChanged(s, after.pending, current);
      }
    }
  }

  lemma PendingChanged(s: Loop, pending: PostAction, current: Option<Current>)
    requires Consistent(s, current)
    ensures Consistent(s.(pending := pending), current)
  {
  }

  /** Emptying a slot concerns nobody but the source in it. */
  lemma SlotEmptied(s: Loop, after: Loop, d: DispatcherId, token: TokenInner, current: Option<Current>)
    requires Consistent(s, current) && Holds(s, d, token)
    requires s.running != Some(d) ==> d !in after.registered
    requires forall e :: e in after.registered && e != d ==> e in s.registered && after.registered[e] == s.registered[e]
    requires after.sources == SetSource(s.sources, token.id, None)
    requires after.running == s.running
    ensures forall e :: e in after.registered && after.running != Some(e) ==> Holds(after, e, after.registered[e])
  {
  }

  lemma RemoveKeeps(s: Loop, token: TokenInner, ok: bool, current: Option<Current>)
    requires Consistent(s, current) && Recent(s, current) && WellBehaved(s, OpRemove(token, ok))
    ensures Consistent(Perform(s, OpRemove(token, ok)), current)
  {
    var after := Perform(s, OpRemove(token, ok));
    if Lookup(s.sources, token).Some? {
      FoundToken(s, current, token);
      var d := Lookup(s.sources, token).value;
      if s.running != Some(d) && ok {
        UnregisteringKeepsLifecycle(s, after, d, token);
      }
      SlotEmptied(s, after, d, token, current);
    }
  }

  /** A source that fails to unregister when it is removed stays registered and is in no slot. */
  lemma RemoveBreaks(s: Loop, token: TokenInner, ok: bool, current: Option<Current>)
    requires Consistent(s, current) && Recent(s, current) && Usable(s, OpRemove(token, ok))
    requires Breaks(s, OpRemove(token, ok))
    ensures var d, after := Lookup(s.sources, token).value, Perform(s, OpRemove(token, ok));
            && after == s.(sources := SetSource(s.sources, token.id, None))
            && d in after.registered && after.registered[d] == token && !Placed(after, d)
            && !Consistent(after, current)
  {
    FoundToken(s, current, token);
    var d, after := Lookup(s.sources, token).value, Perform(s, OpRemove(token, ok));
    assert !Holds(after, d, after.registered[d]);
  }

  lemma OpKeeps(s: Loop, op: Op, current: Option<Current>)
    requires Consistent(s, current) && Recent(s, current) && WellBehaved(s, op)
    ensures Consistent(Perform(s, op), current)
  {
    match op
    case OpInsert(d, ok) => InsertKeeps(s, d, ok, current);
    case OpEnable(token, ok) => EnableKeepsIff(s, token, ok, current);
    case OpUpdate(token, ok) => UpdateKeeps(s, token, ok, current);
    case OpDisable(token, ok) => DisableKeeps(s, token, ok, current);
    case OpRemove(token, ok) => RemoveKeeps(s, token, ok, current);
  }

  /** Whatever the sources answer: an operation keeps the loop consistent exactly when its guard says so. */
  lemma OpKeepsIff(s: Loop, op: Op, current: Option<Current>)
    requires Consistent(s, current) && Recent(s, current) && Recent(Perform(s, op), current) && Usable(s, op)
    ensures Consistent(Perform(s, op), current) <==> !Breaks(s, op)
  {
    if !Breaks(s, op) {
      OpKeeps(s, op, current);
    } else {
      match op
      case OpInsert(d, _) => InsertBreaks(s, d, current);
      case OpEnable(token, ok) => EnableKeepsIff(s, token, ok, current);
      case OpRemove(token, ok) => RemoveBreaks(s, token, ok, current);
    }
  }
}
