/**
 The wrapper that lets a composed source register, disable, replace and remove an inner
 source (src/sources/transient.rs). Its purpose is never to drop an inner source that is
 still registered with the poller.

 Inner sources are identities; `registered` is the poller's view of them. Every call into
 an inner source may succeed or fail (the `ok` arguments); a failed call changes nothing
 and makes the wrapper return early.
 */
module Transients {
  import opened Wrappers
  import opened LoopState

  type Source = nat

  datatype State =
    | Keep(s: Source)
    | Register(s: Source)
    | Disabled(s: Source)
    | Removing(s: Source)
    | Replacing(incoming: Source, outgoing: Source)
    | Empty

  datatype Wrapper = Wrapper(
    state: State,
    registered: set<Source>,
    // The sources that were dropped, the ones of them that the poller still had then, and
    // the sources that events were forwarded to.
    dropped: set<Source>,
    droppedRegistered: set<Source>,
    forwarded: seq<Source>,
    // The wrapper itself has not been dropped.
    alive: bool)

  function Drop(w: Wrapper, s: Source): Wrapper {
    w.(dropped := w.dropped + {s},
       droppedRegistered := if s in w.registered then w.droppedRegistered + {s} else w.droppedRegistered)
  }

  /** What `replace_state` turns the (new) source into. */
  datatype Replacer = ToKeep | ToRegister | ToDisable | ToRemove | ToReplace(incoming: Source) | ToEmpty

  function Held(state: State): set<Source> {
    match state
    case Replacing(n, o) => {n, o}
    case Empty => {}
    case _ => {state.s}
  }

  /** A pending replacement loses its old source; an empty wrapper stays empty and loses the replacer's source. */
  function ReplaceState(w: Wrapper, r: Replacer): Wrapper {
    if w.state.Empty? then (if r.ToReplace? then Drop(w, r.incoming) else w)
    else
      var source := if w.state.Replacing? then w.state.incoming else w.state.s;
      var taken := if w.state.Replacing? then Drop(w, w.state.outgoing) else w;
      match r
      case ToKeep => taken.(state := Keep(source))
      case ToRegister => taken.(state := Register(source))
      case ToDisable => taken.(state := Disabled(source))
      case ToRemove => taken.(state := Removing(source))
      case ToReplace(n) => taken.(state := Replacing(n, source))
      case ToEmpty => Drop(taken, source).(state := Empty)
  }

  /** The wrapper itself is dropped, with all that it holds. */
  function DropWrapper(w: Wrapper): Wrapper {
    var emptied :=
      match w.state
      case Replacing(n, o) => Drop(Drop(w, n), o)
      case Empty => w
      case _ => Drop(w, w.state.s);
    emptied.(state := Empty, alive := false)
  }

  datatype Op =
    | CallRemove
    | CallReplace(incoming: Source)
    | CallProcess(ret: Option<PostAction>)
    | CallRegister(ok: bool)
    | CallReregister(ok: bool, ok2: bool)
    | CallUnregister(ok: bool, ok2: bool)
    | CallDrop

  function Registering(w: Wrapper, s: Source): Wrapper {
    w.(registered := w.registered + {s})
  }

  function Unregistering(w: Wrapper, s: Source): Wrapper {
    w.(registered := w.registered - {s})
  }

  /** Events are forwarded only while the source is kept; `None` is an error of the source. */
  function Process(w: Wrapper, ret: Option<PostAction>): (Wrapper, Option<PostAction>) {
    if !w.state.Keep? then (w, Some(Continue))
    else
      var told := w.(forwarded := w.forwarded + [w.state.s]);
      match ret
      case None => (told, None)
      case Some(Continue) => (told, Some(Continue))
      case Some(Reregister) => (told, Some(Reregister))
      case Some(Disable) => (ReplaceState(told, ToDisable), Some(Reregister))
      case Some(Remove) => (ReplaceState(told, ToRemove), Some(Reregister))
  }

  function DoRegister(w: Wrapper, ok: bool): Wrapper {
    match w.state
    case Keep(s) => if ok then Registering(w, s) else w
    case Register(s) => if ok then ReplaceState(Registering(w, s), ToKeep) else w
    case Disabled(s) => if ok then ReplaceState(Registering(w, s), ToKeep) else w
    case Replacing(n, _) => if ok then ReplaceState(Registering(w, n), ToKeep) else w
    case Removing(_) => ReplaceState(w, ToEmpty)
    case Empty => w
  }

  function DoReregister(w: Wrapper, ok: bool, ok2: bool): Wrapper {
    match w.state
    case Keep(s) => if ok then Registering(w, s) else w
    case Register(s) => if ok then ReplaceState(Registering(w, s), ToKeep) else w
    case Disabled(s) => if ok then Unregistering(w, s) else w
    case Removing(s) => if ok then ReplaceState(Unregistering(w, s), ToEmpty) else w
    case Replacing(n, o) =>
      if !ok then w
      else if !ok2 then Unregistering(w, o)
      else ReplaceState(Registering(Unregistering(w, o), n), ToKeep)
    case Empty => w
  }

  function DoUnregister(w: Wrapper, ok: bool, ok2: bool): Wrapper {
    match w.state
    case Keep(s) => if ok then Unregistering(w, s) else w
    case Register(s) => if ok then Unregistering(w, s) else w
    case Disabled(s) => if ok then Unregistering(w, s) else w
    case Removing(s) => if ok then ReplaceState(Unregistering(w, s), ToEmpty) else w
    case Replacing(n, o) =>
      if !ok then w
      else if !ok2 then Unregistering(w, o)
      else ReplaceState(Unregistering(Unregistering(w, o), n), ToRegister)
    case Empty => w
  }

  function Take(w: Wrapper, op: Op): Wrapper {
    match op
    case CallRemove => ReplaceState(w, ToRemove)
    case CallReplace(n) => ReplaceState(w, ToReplace(n))
    case CallProcess(ret) => Process(w, ret).0
    case CallRegister(ok) => DoRegister(w, ok)
    case CallReregister(ok, ok2) => DoReregister(w, ok, ok2)
    case CallUnregister(ok, ok2) => DoUnregister(w, ok, ok2)
    case CallDrop => DropWrapper(w)
  }

  /** A replacement is a source that was never in the wrapper nor registered; nothing is called after the drop. */
  predicate Possible(w: Wrapper, op: Op) {
    w.alive && (op.CallReplace? ==> op.incoming !in Held(w.state) + w.registered + w.dropped)
  }

  /** The wrapper is the only owner of its sources, and only what it holds is registered. */
  predicate Invariant(w: Wrapper) {
    && (w.state.Replacing? ==> w.state.incoming != w.state.outgoing)
    && Held(w.state) !! w.dropped
    && w.registered <= Held(w.state) + w.droppedRegistered
    && w.droppedRegistered <= w.dropped
    && (!w.alive ==> w.state == Empty)
  }

  /** The calls that drop a source the poller still has: the guards of the branches that do so. */
  predicate DropsRegistered(w: Wrapper, op: Op) {
    match op
    case CallRemove => w.state.Replacing? && w.state.outgoing in w.registered
    case CallReplace(_) => w.state.Replacing? && w.state.outgoing in w.registered
    case CallRegister(ok) =>
      || (w.state.Replacing? && ok && w.state.outgoing in w.registered)
      || (w.state.Removing? && w.state.s in w.registered)
    case CallDrop => !(Held(w.state) !! w.registered)
    case _ => false
  }

  /** A call keeps the poller free of dropped sources exactly when its guard says so. */
  lemma StepSafeIff(w: Wrapper, op: Op)
    requires Invariant(w) && Possible(w, op)
    ensures Invariant(Take(w, op))
    ensures Take(w, op).droppedRegistered == w.droppedRegistered <==> !DropsRegistered(w, op)
  {
    var after := Take(w, op);
    if DropsRegistered(w, op) {
      var s :| s in w.registered && s in Held(w.state) && s in after.droppedRegistered;
      assert s !in w.droppedRegistered;
    } else if op.CallDrop? {
      assert forall s :: s in Held(w.state) ==> s !in w.registered;
      assert after.droppedRegistered == w.droppedRegistered;
    }
  }

  /**
   The documented use: a pending replacement is not overtaken by another `remove` or
   `replace`, a pending replacement or removal is followed by `reregister` or `unregister`,
   not by `register`, and the wrapper is dropped after it has been unregistered.
   */
  predicate Documented(w: Wrapper, op: Op) {
    match op
    case CallRemove => !w.state.Replacing?
    case CallReplace(_) => !w.state.Replacing?
    case CallRegister(_) => !w.state.Replacing? && !w.state.Removing?
    case CallDrop => w.registered == {}
    case _ => true
  }

  predicate Legal(w: Wrapper, ops: seq<Op>)
    decreases |ops|
  {
    ops == [] || (Possible(w, ops[0]) && Legal(Take(w, ops[0]), ops[1..]))
  }

  predicate AllDocumented(w: Wrapper, ops: seq<Op>)
    decreases |ops|
  {
    ops == [] || (Documented(w, ops[0]) && AllDocumented(Take(w, ops[0]), ops[1..]))
  }

  predicate NoneDropsRegistered(w: Wrapper, ops: seq<Op>)
    decreases |ops|
  {
    ops == [] || (!DropsRegistered(w, ops[0]) && NoneDropsRegistered(Take(w, ops[0]), ops[1..]))
  }

  function Run(w: Wrapper, ops: seq<Op>): Wrapper
    decreases |ops|
  {
    if ops == [] then w else Run(Take(w, ops[0]), ops[1..])
  }

  /** `From<T>`: the wrapper starts with its source to be registered. */
  function From(s: Source): Wrapper {
    Wrapper(Register(s), {}, {}, {}, [], true)
  }

  lemma {:induction false} DropsOnlyGrow(w: Wrapper, ops: seq<Op>)
    ensures w.droppedRegistered <= Run(w, ops).droppedRegistered
    decreases |ops|
  {
    if ops != [] {
      DropsOnlyGrow(Take(w, ops[0]), ops[1..]);
    }
  }

  /** A run, with any failures of the inner sources, is safe exactly when none of its calls meets a bad guard. */
  lemma {:induction false} RunSafeIff(w: Wrapper, ops: seq<Op>)
    requires Invariant(w) && Legal(w, ops)
    ensures Invariant(Run(w, ops))
    ensures Run(w, ops).droppedRegistered == w.droppedRegistered <==> NoneDropsRegistered(w, ops)
    decreases |ops|
  {
    if ops != [] {
      var next := Take(w, ops[0]);
      StepSafeIff(w, ops[0]);
      RunSafeIff(next, ops[1..]);
      DropsOnlyGrow(next, ops[1..]);
      DropsOnlyGrow(w, ops[..1]);
      assert w.droppedRegistered <= next.droppedRegistered;
    }
  }

  lemma {:induction false} DocumentedIsSafe(w: Wrapper, ops: seq<Op>)
    requires AllDocumented(w, ops)
    ensures NoneDropsRegistered(w, ops)
    decreases |ops|
  {
    if ops != [] {
      DocumentedIsSafe(Take(w, ops[0]), ops[1..]);
    }
  }

  /** Unregistering, when the inner calls succeed, makes the drop of the wrapper safe in every state. */
  lemma UnregisterAllowsDrop(w: Wrapper)
    requires Invariant(w) && w.droppedRegistered == {}
    ensures Documented(DoUnregister(w, true, true), CallDrop)
    ensures DropWrapper(DoUnregister(w, true, true)).droppedRegistered == {}
    ensures DropWrapper(w).droppedRegistered == {} <==> w.registered == {}
  {
    StepSafeIff(w.(alive := true), CallDrop);
  }

  /**
   Used as documented, and whatever calls into inner sources fail, the wrapper drops only
   sources that are unregistered, up to and including its own drop, and what the poller has
   is held by the wrapper.
   */
  lemma NeverDropsRegistered(s: Source, ops: seq<Op>)
    requires Legal(From(s), ops) && AllDocumented(From(s), ops)
    ensures var w := Run(From(s), ops);
            && w.droppedRegistered == {} && w.registered !! w.dropped && w.registered <= Held(w.state)
            && (!w.alive ==> w.registered == {})
  {
    RunSafeIff(From(s), ops);
    DocumentedIsSafe(From(s), ops);
  }

  /** Replacing twice in a row loses a registered source: the discipline cannot be dropped. */
  lemma ReplacingTwiceLosesRegistration()
    ensures var ops := [CallRegister(true), CallReplace(1), CallReplace(2)];
            Legal(From(0), ops) && Run(From(0), ops).droppedRegistered == {0}
  {
  }

  // ---------------------------------------------------------------------------
  // Which sources hear of events
  // ---------------------------------------------------------------------------

  /** The call registers the (new) source of a wrapper that was not keeping it. */
  predicate Admits(w: Wrapper, op: Op) {
    match op
    case CallRegister(ok) => ok && (w.state.Register? || w.state.Disabled? || w.state.Replacing?)
    case CallReregister(ok, ok2) => ok && (w.state.Register? || (w.state.Replacing? && ok2))
    case _ => false
  }

  /** A source is kept, and gets events, only from a call on that registered it. */
  lemma KeptOnlyByRegistering(w: Wrapper, op: Op)
    requires !w.state.Keep?
    ensures Take(w, op).state.Keep? <==> Admits(w, op)
    ensures Take(w, op).state.Keep? ==> Take(w, op).state.s in Take(w, op).registered
    ensures Take(w, op).forwarded == w.forwarded
  {
  }

  predicate NoneAdmits(w: Wrapper, ops: seq<Op>)
    decreases |ops|
  {
    ops == [] || (!Admits(w, ops[0]) && NoneAdmits(Take(w, ops[0]), ops[1..]))
  }

  /** After Disable, Remove or Replace nothing is forwarded until a source is registered again. */
  lemma {:induction false} SilentUntilRegistered(w: Wrapper, ops: seq<Op>)
    requires !w.state.Keep? && NoneAdmits(w, ops)
    ensures Run(w, ops).forwarded == w.forwarded
    decreases |ops|
  {
    if ops != [] {
      KeptOnlyByRegistering(w, ops[0]);
      SilentUntilRegistered(Take(w, ops[0]), ops[1..]);
    }
  }

  /** The requests after which a wrapper is silent, and the action that makes the loop settle them. */
  lemma RequestsSilence(w: Wrapper, ret: PostAction, n: Source)
    ensures !Take(w, CallRemove).state.Keep? && !Take(w, CallReplace(n)).state.Keep?
    ensures w.state.Keep? && ret in {Disable, Remove} ==>
              !Process(w, Some(ret)).0.state.Keep? && Process(w, Some(ret)).1 == Some(Reregister)
    ensures Process(w, Some(ret)).1 in {Some(Continue), Some(Reregister)}
    ensures Process(w, Some(ret)).1 == Some(Reregister) <==> w.state.Keep? && ret != Continue
  {
  }

  /** A successful `reregister` settles every request: the right source is registered, the others are gone. */
  lemma ReregisterSettles(w: Wrapper)
    requires Invariant(w) && w.droppedRegistered == {}
    ensures var after := DoReregister(w, true, true);
            match w.state
            case Keep(s) => after.state == Keep(s) && after.registered == {s}
            case Register(s) => after.state == Keep(s) && after.registered == {s}
            case Disabled(s) => after.state == Disabled(s) && after.registered == {}
            case Removing(s) => after.state == Empty && after.registered == {} && s in after.dropped
            case Replacing(n, o) => after.state == Keep(n) && after.registered == {n} && o in after.dropped
            case Empty => after == w && after.registered == {}
  {
  }

  // ---------------------------------------------------------------------------
  // What each call comes to, state by state
  // ---------------------------------------------------------------------------

  /** The wrapper is in that state, the poller has those sources, and these were dropped on the way. */
  predicate Became(w: Wrapper, after: Wrapper, state: State, registered: set<Source>, gone: set<Source>) {
    && after.state == state && after.registered == registered
    && after.dropped == w.dropped + gone && after.alive == w.alive
  }

  /** `remove` and `replace` change the state and nothing else; over a pending replacement they lose its old source. */
  lemma RequestTable(w: Wrapper, n: Source)
    ensures Take(w, CallRemove).forwarded == w.forwarded == Take(w, CallReplace(n)).forwarded
    ensures var removed, replaced, r := Take(w, CallRemove), Take(w, CallReplace(n)), w.registered;
            match w.state
            case Replacing(i, o) => Became(w, removed, Removing(i), r, {o}) && Became(w, replaced, Replacing(n, i), r, {o})
            case Empty => removed == w && Became(w, replaced, Empty, r, {n})
            case _ => Became(w, removed, Removing(w.state.s), r, {}) && Became(w, replaced, Replacing(n, w.state.s), r, {})
  {
  }

  /** Only a kept source hears of an event; what it answers decides state and action, and nothing is dropped. */
  lemma ProcessTable(w: Wrapper, ret: Option<PostAction>)
    ensures var (after, action) := Process(w, ret);
            match w.state
            case Keep(s) =>
              && after.forwarded == w.forwarded + [s] && after.registered == w.registered && after.dropped == w.dropped
              && after.alive == w.alive
              && (match ret
                  case None => after.state == Keep(s) && action == None
                  case Some(Continue) => after.state == Keep(s) && action == Some(Continue)
                  case Some(Reregister) => after.state == Keep(s) && action == Some(Reregister)
                  case Some(Disable) => after.state == Disabled(s) && action == Some(Reregister)
                  case Some(Remove) => after.state == Removing(s) && action == Some(Reregister))
            case _ => after == w && action == Some(Continue)
  {
  }

  /** Registering keeps the source it registered; a failure changes nothing. */
  lemma RegisterTable(w: Wrapper, ok: bool)
    ensures var after, r := DoRegister(w, ok), w.registered;
            && after.forwarded == w.forwarded
            && match w.state
               case Keep(s) => if ok then Became(w, after, Keep(s), r + {s}, {}) else after == w
               case Register(s) => if ok then Became(w, after, Keep(s), r + {s}, {}) else after == w
               case Disabled(s) => if ok then Became(w, after, Keep(s), r + {s}, {}) else after == w
               case Replacing(n, o) => if ok then Became(w, after, Keep(n), r + {n}, {o}) else after == w
               case Removing(s) => Became(w, after, Empty, r, {s})
               case Empty => after == w
  {
  }

  /** Reregistering settles the request; a failure leaves it, halfway through a replacement with the old source out. */
  lemma ReregisterTable(w: Wrapper, ok: bool, ok2: bool)
    ensures var after, r := DoReregister(w, ok, ok2), w.registered;
            && after.forwarded == w.forwarded
            && (!ok ==> after.state == w.state && after.registered == r && after.dropped == w.dropped)
            && (ok ==>
                  match w.state
                  case Keep(s) => Became(w, after, Keep(s), r + {s}, {})
                  case Register(s) => Became(w, after, Keep(s), r + {s}, {})
                  case Disabled(s) => Became(w, after, Disabled(s), r - {s}, {})
                  case Removing(s) => Became(w, after, Empty, r - {s}, {s})
                  case Replacing(n, o) =>
                    if ok2 then Became(w, after, Keep(n), r - {o} + {n}, {o}) else Became(w, after, w.state, r - {o}, {})
                  case Empty => after == w)
  {
  }

  /** Unregistering leaves a source in its state, to be registered again, unless its removal or replacement was asked for. */
  lemma UnregisterTable(w: Wrapper, ok: bool, ok2: bool)
    ensures var after, r := DoUnregister(w, ok, ok2), w.registered;
            && after.forwarded == w.forwarded
            && (!ok ==> after.state == w.state && after.registered == r && after.dropped == w.dropped)
            && (ok ==>
                  match w.state
                  case Removing(s) => Became(w, after, Empty, r - {s}, {s})
                  case Replacing(n, o) =>
                    if ok2 then Became(w, after, Register(n), r - {o} - {n}, {o}) else Became(w, after, w.state, r - {o}, {})
                  case Empty => after == w
                  case _ => Became(w, after, w.state, r - {w.state.s}, {}))
  {
  }

  /** Disabling a wrapper and enabling it again brings its source back, for as long as it has one. */
  lemma DisableEnableRestores(w: Wrapper)
    requires Invariant(w) && w.state.Keep? && w.registered == {w.state.s}
    ensures DoRegister(DoUnregister(w, true, true), true) == w
  {
  }

  // ---------------------------------------------------------------------------
  // The wrapper as an object
  // ---------------------------------------------------------------------------

  class TransientSource {
    var state: State
    var registered: set<Source>
    var dropped: set<Source>
    var droppedRegistered: set<Source>
    var forwarded: seq<Source>
    var alive: bool

    ghost function Value(): Wrapper
      reads this
    {
      Wrapper(state, registered, dropped, droppedRegistered, forwarded, alive)
    }

    constructor (s: Source)
      ensures Value() == From(s)
    {
      state, registered, dropped, droppedRegistered, forwarded, alive := Register(s), {}, {}, {}, [], true;
    }

    method DropSource(s: Source)
      modifies this`dropped, this`droppedRegistered
      ensures Value() == Drop(old(Value()), s)
    {
      dropped := dropped + {s};
      if s in registered {
        droppedRegistered := droppedRegistered + {s};
      }
    }

    /** The drop of the wrapper drops what its state holds. */
    method Dispose()
      modifies this
      ensures Value() == DropWrapper(old(Value()))
    {
      match state {
        case Empty =>
        case Replacing(n, o) =>
          DropSource(n);
          DropSource(o);
        case _ =>
          DropSource(state.s);
      }
      state, alive := Empty, false;
    }

    /** The state is taken out, leaving `Empty`, and the rebuilt one is put in its place. */
    method ReplaceWith(r: Replacer)
      modifies this`state, this`dropped, this`droppedRegistered
      ensures Value() == ReplaceState(old(Value()), r)
    {
      var taken := state;
      state := Empty;
      var source: Source;
      match taken {
        case Empty =>
          if r.ToReplace? {
            DropSource(r.incoming);
          }
          return;
        case Replacing(n, o) =>
          DropSource(o);
          source := n;
        case _ =>
          source := taken.s;
      }
      match r {
        case ToKeep => state := Keep(source);
        case ToRegister => state := Register(source);
        case ToDisable => state := Disabled(source);
        case ToRemove => state := Removing(source);
        case ToReplace(n) => state := Replacing(n, source);
        case ToEmpty => DropSource(source);
      }
    }

    /** The inner source's own calls, which succeed or fail as `ok` says. */
    method InnerRegister(s: Source, ok: bool)
      modifies this`registered
      ensures Value() == if ok then Registering(old(Value()), s) else old(Value())
    {
      if ok {
        registered := registered + {s};
      }
    }

    method InnerUnregister(s: Source, ok: bool)
      modifies this`registered
      ensures Value() == if ok then Unregistering(old(Value()), s) else old(Value())
    {
      if ok {
        registered := registered - {s};
      }
    }

    method ProcessEvents(ret: Option<PostAction>) returns (action: Option<PostAction>)
      modifies this
      ensures (Value(), action) == Process(old(Value()), ret)
    {
      if !state.Keep? {
        return Some(Continue);
      }
      forwarded := forwarded + [state.s];
      if ret.None? {
        return None;
      }
      match ret.value {
        case Continue =>
          return Some(Continue);
        case Reregister =>
        case Disable =>
          ReplaceWith(ToDisable);
        case Remove =>
          ReplaceWith(ToRemove);
      }
      action := Some(Reregister);
    }

    method RegisterWith(ok: bool) returns (success: bool)
      modifies this
      ensures Value() == DoRegister(old(Value()), ok)
      ensures success <==> ok || old(state).Removing? || old(state).Empty?
    {
      if state.Empty? {
        return true;
      }
      if state.Removing? {
        ReplaceWith(ToEmpty);
        return true;
      }
      var source := if state.Replacing? then state.incoming else state.s;
      InnerRegister(source, ok);
      if ok && !state.Keep? {
        ReplaceWith(ToKeep);
      }
      success := ok;
    }

    method ReregisterWith(ok: bool, ok2: bool) returns (success: bool)
      modifies this
      ensures Value() == DoReregister(old(Value()), ok, ok2)
      ensures success <==> old(state).Empty? || (ok && (old(state).Replacing? ==> ok2))
    {
      success := ok;
      match state {
        case Keep(s) =>
          InnerRegister(s, ok);
        case Register(s) =>
          InnerRegister(s, ok);
          if ok {
            ReplaceWith(ToKeep);
          }
        case Disabled(s) =>
          InnerUnregister(s, ok);
        case Removing(s) =>
          InnerUnregister(s, ok);
          if ok {
            ReplaceWith(ToEmpty);
          }
        case Replacing(n, o) =>
          InnerUnregister(o, ok);
          if ok {
            InnerRegister(n, ok2);
            if ok2 {
              ReplaceWith(ToKeep);
            }
            success := ok2;
          }
        case Empty =>
          success := true;
      }
    }

    method UnregisterWith(ok: bool, ok2: bool) returns (success: bool)
      modifies this
      ensures Value() == DoUnregister(old(Value()), ok, ok2)
      ensures success <==> old(state).Empty? || (ok && (old(state).Replacing? ==> ok2))
    {
      success := ok;
      match state {
        case Removing(s) =>
          InnerUnregister(s, ok);
          if ok {
            ReplaceWith(ToEmpty);
          }
        case Replacing(n, o) =>
          InnerUnregister(o, ok);
          if ok {
            InnerUnregister(n, ok2);
            if ok2 {
              ReplaceWith(ToRegister);
            }
            success := ok2;
          }
        case Empty =>
          success := true;
        case _ =>
          InnerUnregister(state.s, ok);
      }
    }
  }
}
