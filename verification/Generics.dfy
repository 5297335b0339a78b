/**
 The event source around one file descriptor (src/sources/generic.rs): it remembers the
 token it is registered under, and the poller so that it can take its descriptor out when
 it is dropped. Several sources may be around one descriptor.
 */
module Generics {
  import opened Wrappers
  import opened LevelPolls

  type SourceId = nat

  datatype Generic = Generic(fd: Fd, interest: Interest, mode: Mode, hasPoller: bool, token: Option<Key>)

  datatype World = World(poll: Poll, sources: map<SourceId, Generic>)

  datatype Call =
    | CallNew(x: SourceId, fd: Fd, interest: Interest, mode: Mode)
    | CallConfigure(x: SourceId, interest: Interest, mode: Mode)
    | CallRegister(x: SourceId, key: Key)
    | CallReregister(x: SourceId, key: Key)
    | CallUnregister(x: SourceId)
    | CallDrop(x: SourceId)

  predicate Possible(w: World, call: Call) {
    call.CallNew? <==> call.x !in w.sources
  }

  /** Dropping goes to the backend directly, past the poller's own map. */
  function DeleteFromBackend(p: Poll, fd: Fd): Poll {
    p.(fds := p.fds - {fd})
  }

  function Set(w: World, x: SourceId, poll: Poll, g: Generic): World {
    World(poll, w.sources[x := g])
  }

  /** A call whose poller call fails changes nothing. */
  function After(w: World, call: Call): World
    requires Possible(w, call)
  {
    match call
    case CallNew(x, fd, interest, mode) => Set(w, x, w.poll, Generic(fd, interest, mode, false, None))
    case CallConfigure(x, interest, mode) => Set(w, x, w.poll, w.sources[x].(interest := interest, mode := mode))
    case CallRegister(x, key) =>
      var g := w.sources[x];
      (match Register(w.poll, g.fd, g.interest, g.mode, key)
       case None => w
       case Some(poll) => Set(w, x, poll, g.(hasPoller := true, token := Some(key))))
    case CallReregister(x, key) =>
      var g := w.sources[x];
      (match Reregister(w.poll, g.fd, g.interest, g.mode, key)
       case None => w
       case Some(poll) => Set(w, x, poll, g.(token := Some(key))))
    case CallUnregister(x) =>
      var g := w.sources[x];
      (match Unregister(w.poll, g.fd)
       case None => w
       case Some(poll) => Set(w, x, poll, g.(hasPoller := false, token := None)))
    case CallDrop(x) =>
      var g := w.sources[x];
      World(if g.hasPoller then DeleteFromBackend(w.poll, g.fd) else w.poll, w.sources - {x})
  }

  /** The callback is called for events under the current token only. */
  predicate Forwards(g: Generic, key: Key) {
    g.token == Some(key)
  }

  /** What each call comes to; one that the poller refuses changes nothing. */
  lemma CallTable(w: World, call: Call)
    requires Possible(w, call)
    ensures var after, x := After(w, call), call.x;
            && (forall y :: y != x ==> (y in after.sources <==> y in w.sources)
                                       && (y in w.sources ==> after.sources[y] == w.sources[y]))
            && match call
               case CallNew(_, fd, interest, mode) =>
                 x in after.sources && after.sources[x] == Generic(fd, interest, mode, false, None) && after.poll == w.poll
               case CallConfigure(_, interest, mode) =>
                 && x in after.sources && after.poll == w.poll
                 && after.sources[x] == w.sources[x].(interest := interest, mode := mode)
               case CallRegister(_, key) =>
                 if w.sources[x].fd in w.poll.fds then after == w else IsRegistered(w, after, x, key, true)
               case CallReregister(_, key) =>
                 if w.sources[x].fd !in w.poll.fds then after == w
                 else IsRegistered(w, after, x, key, w.sources[x].hasPoller)
               case CallUnregister(_) =>
                 var g := w.sources[x];
                 if g.fd !in w.poll.fds then after == w
                 else
                   && x in after.sources && after.sources[x] == g.(hasPoller := false, token := None)
                   && after.poll.fds == w.poll.fds - {g.fd}
                   && (forall k :: k in after.poll.level <==> k in w.poll.level && w.poll.level[k].fd != g.fd)
                   && (forall k :: k in after.poll.level ==> after.poll.level[k] == w.poll.level[k])
               case CallDrop(_) =>
                 && x !in after.sources && after.poll.level == w.poll.level
                 && after.poll.fds == if w.sources[x].hasPoller then w.poll.fds - {w.sources[x].fd} else w.poll.fds
  {
  }

  /** The poller has the source's descriptor armed with its interest and mode under that key, and the source knows. */
  predicate IsRegistered(w: World, after: World, x: SourceId, key: Key, hasPoller: bool)
    requires x in w.sources
  {
    var g := w.sources[x];
    && x in after.sources && after.sources[x] == g.(hasPoller := hasPoller, token := Some(key))
    && after.poll.fds == w.poll.fds[g.fd := Entry(key, g.interest, g.mode, true)]
    && after.poll.level == if g.mode == Level then w.poll.level[key := Watched(g.fd, g.interest)] else w.poll.level
  }

  predicate Possibles(w: World, calls: seq<Call>)
    decreases |calls|
  {
    calls == [] || (Possible(w, calls[0]) && Possibles(After(w, calls[0]), calls[1..]))
  }

  function Run(w: World, calls: seq<Call>): World
    requires Possibles(w, calls)
    decreases |calls|
  {
    if calls == [] then w else Run(After(w, calls[0]), calls[1..])
  }

  const EMPTY := World(Poll(map[], map[]), map[])

  // ---------------------------------------------------------------------------
  // Whatever is called
  // ---------------------------------------------------------------------------

  predicate Keeps(w: World, x: SourceId, fd: Fd) {
    x in w.sources && w.sources[x].fd == fd && w.sources[x].hasPoller
  }

  /** Every descriptor in the backend has a living source that is going to take it out. */
  ghost predicate Kept(w: World) {
    forall fd :: fd in w.poll.fds ==> exists x :: Keeps(w, x, fd)
  }

  lemma CallKeepsKept(w: World, call: Call)
    requires Kept(w) && Possible(w, call)
    ensures Kept(After(w, call))
  {
    var after := After(w, call);
    forall fd | fd in after.poll.fds
      ensures exists x :: Keeps(after, x, fd)
    {
      if fd in w.poll.fds {
        var x :| Keeps(w, x, fd);
        assert Keeps(after, x, fd);
      } else {
        assert Keeps(after, call.x, fd);
      }
    }
  }

  /**
   With calls in any order and on any source, also several around one descriptor, and
   failing as they may, no descriptor stays in the backend without a source.
   */
  lemma {:induction false} NoDescriptorOutlivesSource(w: World, calls: seq<Call>)
    requires Kept(w) && Possibles(w, calls)
    ensures Kept(Run(w, calls))
    decreases |calls|
  {
    if calls != [] {
      CallKeepsKept(w, calls[0]);
      NoDescriptorOutlivesSource(After(w, calls[0]), calls[1..]);
    }
  }

  // ---------------------------------------------------------------------------
  // When only the registered source of a descriptor changes its registration
  // ---------------------------------------------------------------------------

  /** A source is not reregistered or unregistered while another one has its descriptor registered. */
  predicate Orderly(w: World, call: Call)
    requires Possible(w, call)
  {
    call.CallReregister? || call.CallUnregister? ==>
      (w.sources[call.x].fd in w.poll.fds ==> w.sources[call.x].hasPoller)
  }

  /** A source knows the poller and its token while its descriptor is registered under it, and only then. */
  predicate Knows(w: World, x: SourceId)
    requires x in w.sources
  {
    var g := w.sources[x];
    && (g.hasPoller <==> g.token.Some?)
    && (g.hasPoller ==> g.fd in w.poll.fds && g.token == Some(w.poll.fds[g.fd].key))
  }

  /** The backend's descriptors belong to one source each, which knows; other sources know nothing. */
  ghost predicate Invariant(w: World) {
    && Kept(w)
    && (forall x :: x in w.sources ==> Knows(w, x))
    && (forall x, y, fd :: Keeps(w, x, fd) && Keeps(w, y, fd) ==> x == y)
  }

  /** Only one source and its descriptor changed, and if the registration did then no other source had it. */
  lemma OneChanged(w: World, after: World, x: SourceId, fd: Fd)
    requires Invariant(w) && Kept(after)
    requires forall y :: y != x ==> (y in after.sources <==> y in w.sources)
    requires forall y :: y != x && y in w.sources ==> after.sources[y] == w.sources[y]
    requires forall f :: f != fd && f in w.poll.fds ==> f in after.poll.fds && after.poll.fds[f].key == w.poll.fds[f].key
    requires x in after.sources ==> after.sources[x].fd == fd && Knows(after, x)
    requires forall y :: y != x && Keeps(w, y, fd) ==>
                           && !Keeps(after, x, fd)
                           && fd in after.poll.fds && after.poll.fds[fd].key == w.poll.fds[fd].key
    ensures Invariant(after)
  {
    forall y | y in after.sources && y != x
      ensures Knows(after, y)
    {
      assert Knows(w, y);
      if w.sources[y].hasPoller && w.sources[y].fd == fd {
        assert Keeps(w, y, fd);
      }
    }
    forall y, z, f | Keeps(after, y, f) && Keeps(after, z, f)
      ensures y == z
    {
      assert y != x ==> Keeps(w, y, f);
      assert z != x ==> Keeps(w, z, f);
    }
  }

  lemma OrderlyKeeps(w: World, call: Call)
    requires Invariant(w) && Possible(w, call) && Orderly(w, call)
    ensures Invariant(After(w, call))
  {
    var after, x := After(w, call), call.x;
    if after != w {
      CallKeepsKept(w, call);
      var fd := if call.CallNew? then call.fd else w.sources[x].fd;
      if !call.CallNew? {
        assert Knows(w, x);
      }
      forall y | y != x && Keeps(w, y, fd)
        ensures !Keeps(after, x, fd)
        ensures fd in after.poll.fds && after.poll.fds[fd].key == w.poll.fds[fd].key
      {
        assert Knows(w, y);
        assert !call.CallNew? ==> !Keeps(w, x, fd);
      }
      OneChanged(w, after, x, fd);
    }
  }

  lemma DisorderlyBreaks(w: World, call: Call)
    requires Invariant(w) && Possible(w, call) && !Orderly(w, call)
    ensures !Invariant(After(w, call))
  {
    var after, fd := After(w, call), w.sources[call.x].fd;
    var y :| Keeps(w, y, fd);
    assert y != call.x && y in after.sources && after.sources[y] == w.sources[y];
    assert call.CallReregister? ==> !Knows(after, call.x);
    assert call.CallUnregister? ==> !Knows(after, y);
  }

  /** Whether calls fail or not, order is kept exactly by the orderly ones. */
  lemma CallKeepsIff(w: World, call: Call)
    requires Invariant(w) && Possible(w, call)
    ensures Invariant(After(w, call)) <==> Orderly(w, call)
  {
    if Orderly(w, call) {
      OrderlyKeeps(w, call);
    } else {
      DisorderlyBreaks(w, call);
    }
  }

  predicate Legal(w: World, calls: seq<Call>)
    decreases |calls|
  {
    calls == [] || (Possible(w, calls[0]) && Orderly(w, calls[0]) && Legal(After(w, calls[0]), calls[1..]))
  }

  lemma {:induction false} RunKeeps(w: World, calls: seq<Call>)
    requires Invariant(w) && Legal(w, calls)
    ensures Possibles(w, calls) && Invariant(Run(w, calls))
    decreases |calls|
  {
    if calls != [] {
      CallKeepsIff(w, calls[0]);
      RunKeeps(After(w, calls[0]), calls[1..]);
    }
  }

  /** In every orderly run, a source forwards an event exactly when its own registration is under that token. */
  lemma OwnEventsOnly(calls: seq<Call>, x: SourceId, key: Key)
    requires Legal(EMPTY, calls)
    ensures Possibles(EMPTY, calls)
    ensures var w := Run(EMPTY, calls);
            x in w.sources ==>
              var g := w.sources[x];
              Forwards(g, key) <==> g.hasPoller && g.fd in w.poll.fds && w.poll.fds[g.fd].key == key
  {
    RunKeeps(EMPTY, calls);
  }

  /**
   A second source around a registered descriptor fails to register, changes nothing, and
   can be dropped without taking the descriptor away from the first.
   */
  lemma DuplicateHarmless(w: World, x: SourceId, y: SourceId, key: Key)
    requires Invariant(w) && x in w.sources && y in w.sources && x != y
    requires w.sources[x].fd == w.sources[y].fd && w.sources[y].hasPoller
    ensures After(w, CallRegister(x, key)) == w
    ensures After(w, CallDrop(x)).poll == w.poll && Invariant(After(w, CallDrop(x)))
  {
    assert Knows(w, y) && Keeps(w, y, w.sources[y].fd) && !Keeps(w, x, w.sources[x].fd);
    CallKeepsIff(w, CallDrop(x));
  }

  /**
   Dropping a registered source leaves the emulation's map exact only when the source is not
   level-triggered: the map is cleaned by `Poll::unregister`, which the drop does not call.
   */
  lemma DropKeepsEmulationIff(w: World, x: SourceId)
    requires Invariant(w) && LevelPolls.Invariant(w.poll) && x in w.sources && w.sources[x].hasPoller
    ensures LevelPolls.Invariant(After(w, CallDrop(x)).poll) <==> w.poll.fds[w.sources[x].fd].mode != Level
    ensures LevelPolls.Invariant(After(After(w, CallUnregister(x)), CallDrop(x)).poll)
  {
    assert Knows(w, x);
    DeletingKeepsIff(w.poll, w.sources[x].fd);
    UnregisterKeeps(w.poll, w.sources[x].fd);
  }

  lemma DeletingKeepsIff(p: Poll, fd: Fd)
    requires LevelPolls.Invariant(p) && fd in p.fds
    ensures LevelPolls.Invariant(DeleteFromBackend(p, fd)) <==> p.fds[fd].mode != Level
  {
    if p.fds[fd].mode == Level {
      assert p.fds[fd].key in DeleteFromBackend(p, fd).level;
    }
  }

  // ---------------------------------------------------------------------------
  // The source as an object
  // ---------------------------------------------------------------------------

  class GenericSource {
    var state: Generic

    constructor (fd: Fd, interest: Interest, mode: Mode)
      ensures state == Generic(fd, interest, mode, false, None)
    {
      state := Generic(fd, interest, mode, false, None);
    }

    /** This source alone, with the poller it shares. */
    ghost function Around(poll: Poll): World
      reads this
    {
      World(poll, EMPTY.sources[0 := state])
    }

    method Register(poller: Poller, key: Key) returns (ok: bool)
      modifies this, poller
      ensures ok <==> old(state).fd !in old(poller.fds)
      ensures Around(poller.State()) == After(old(Around(poller.State())), CallRegister(0, key))
    {
      ok := poller.Add(state.fd, state.interest, state.mode, key);
      if ok {
        state := state.(hasPoller := true, token := Some(key));
      }
    }

    method Reregister(poller: Poller, key: Key) returns (ok: bool)
      modifies this, poller
      ensures ok <==> old(state).fd in old(poller.fds)
      ensures Around(poller.State()) == After(old(Around(poller.State())), CallReregister(0, key))
    {
      ok := poller.Change(state.fd, state.interest, state.mode, key);
      if ok {
        state := state.(token := Some(key));
      }
    }

    method Unregister(poller: Poller) returns (ok: bool)
      modifies this, poller
      ensures ok <==> old(state).fd in old(poller.fds)
      ensures Around(poller.State()) == After(old(Around(poller.State())), CallUnregister(0))
    {
      ok := poller.Delete(state.fd);
      if ok {
        state := state.(hasPoller := false, token := None);
      }
    }

    method Drop(poller: Poller)
      modifies poller
      ensures poller.State() == After(old(Around(poller.State())), CallDrop(0)).poll
    {
      if state.hasPoller {
        poller.DeleteFromBackend(state.fd);
      }
    }

    /** `called` tells whether the callback was called; otherwise the event is skipped. */
    method ProcessEvents(key: Key) returns (called: bool)
      ensures called <==> Forwards(state, key)
    {
      called := state.token == Some(key);
    }
  }
}
