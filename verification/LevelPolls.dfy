/**
 Level-triggered polling on a backend that only has oneshot mode (src/sys.rs): the poller
 keeps a map from keys to descriptors and re-arms a descriptor whenever it has reported.

 The backend is a map of descriptors, each armed or not; a report disarms it. Which armed
 descriptors a wait reports, and with what readiness, is up to the system.
 */
module LevelPolls {
  import opened Wrappers

  type Fd = nat
  type Key = nat

  datatype Mode = OneShot | Level | Edge

  datatype Interest = Interest(readable: bool, writable: bool)

  /** A descriptor in the backend. The mode is the one the source asked for, which the backend does not know. */
  datatype Entry = Entry(key: Key, interest: Interest, mode: Mode, armed: bool)

  datatype Watched = Watched(fd: Fd, interest: Interest)

  datatype Poll = Poll(fds: map<Fd, Entry>, level: map<Key, Watched>)

  datatype Report = Report(fd: Fd, readable: bool, writable: bool)

  datatype PollEvent = PollEvent(key: Key, readable: bool, writable: bool)

  /** The calls fail on a descriptor that is, or is not, in the backend already; `None` is the error. */
  function Register(p: Poll, fd: Fd, interest: Interest, mode: Mode, key: Key): Option<Poll> {
    if fd in p.fds then None
    else
      Some(Poll(p.fds[fd := Entry(key, interest, mode, true)],
                if mode == Level then p.level[key := Watched(fd, interest)] else p.level))
  }

  function Reregister(p: Poll, fd: Fd, interest: Interest, mode: Mode, key: Key): Option<Poll> {
    if fd !in p.fds then None
    else
      Some(Poll(p.fds[fd := Entry(key, interest, mode, true)],
                if mode == Level then p.level[key := Watched(fd, interest)] else p.level))
  }

  function Forget(level: map<Key, Watched>, fd: Fd): map<Key, Watched> {
    map k | k in level && level[k].fd != fd :: level[k]
  }

  function Unregister(p: Poll, fd: Fd): Option<Poll> {
    if fd !in p.fds then None else Some(Poll(p.fds - {fd}, Forget(p.level, fd)))
  }

  /** What the backend does when it reports: oneshot descriptors go quiet. */
  function Disarm(fds: map<Fd, Entry>, reports: seq<Report>): map<Fd, Entry>
    requires forall r :: r in reports ==> r.fd in fds
  {
    map fd | fd in fds :: if Reported(reports, fd) then fds[fd].(armed := false) else fds[fd]
  }

  /** The backend's `modify`: fails on an unknown descriptor. */
  function Modify(fds: map<Fd, Entry>, key: Key, w: Watched): Option<map<Fd, Entry>> {
    if w.fd !in fds then None
    else Some(fds[w.fd := fds[w.fd].(key := key, interest := w.interest, armed := true)])
  }

  datatype Collected = Collected(poll: Poll, events: Option<seq<PollEvent>>)

  /** Turns the reports into events, re-arming what is level-triggered; a failing `modify` ends it. */
  function Collect(p: Poll, keys: seq<Key>, reports: seq<Report>): Collected
    requires |keys| == |reports|
    decreases |keys|
  {
    if keys == [] then Collected(p, Some([]))
    else
      var event := PollEvent(keys[0], reports[0].readable, reports[0].writable);
      var rearmed := if keys[0] in p.level then Modify(p.fds, keys[0], p.level[keys[0]]) else Some(p.fds);
      match rearmed
      case None => Collected(p, None)
      case Some(fds) =>
        var rest := Collect(p.(fds := fds), keys[1..], reports[1..]);
        Collected(rest.poll, if rest.events.Some? then Some([event] + rest.events.value) else None)
  }

  /** The backend reports distinct armed descriptors. */
  predicate Reportable(p: Poll, reports: seq<Report>) {
    && (forall r :: r in reports ==> r.fd in p.fds && p.fds[r.fd].armed)
    && (forall i, j :: 0 <= i < j < |reports| ==> reports[i].fd != reports[j].fd)
  }

  function KeysOf(fds: map<Fd, Entry>, reports: seq<Report>): (keys: seq<Key>)
    requires forall r :: r in reports ==> r.fd in fds
    ensures |keys| == |reports|
    ensures forall i :: 0 <= i < |reports| ==> keys[i] == fds[reports[i].fd].key
  {
    seq(|reports|, i requires 0 <= i < |reports| => fds[reports[i].fd].key)
  }

  function Wait(p: Poll, reports: seq<Report>): Collected
    requires Reportable(p, reports)
  {
    Collect(p.(fds := Disarm(p.fds, reports)), KeysOf(p.fds, reports), reports)
  }

  // ---------------------------------------------------------------------------
  // The invariant
  // ---------------------------------------------------------------------------

  predicate KeysDistinct(fds: map<Fd, Entry>) {
    forall a, b :: a in fds && b in fds && a != b ==> fds[a].key != fds[b].key
  }

  /** The map holds exactly the level-triggered descriptors, under their current keys and interests. */
  predicate LevelExact(p: Poll) {
    && (forall fd :: fd in p.fds && p.fds[fd].mode == Level ==>
                       p.fds[fd].key in p.level && p.level[p.fds[fd].key] == Watched(fd, p.fds[fd].interest))
    && (forall k :: k in p.level ==>
                      p.level[k].fd in p.fds && p.fds[p.level[k].fd].key == k && p.fds[p.level[k].fd].mode == Level)
  }

  predicate AllLevelArmed(p: Poll) {
    forall fd :: fd in p.fds && p.fds[fd].mode == Level ==> p.fds[fd].armed
  }

  predicate Invariant(p: Poll) {
    KeysDistinct(p.fds) && LevelExact(p) && AllLevelArmed(p)
  }

  predicate KeyFree(p: Poll, fd: Fd, key: Key) {
    forall other :: other in p.fds && other != fd ==> p.fds[other].key != key
  }

  lemma RegisterKeeps(p: Poll, fd: Fd, interest: Interest, mode: Mode, key: Key)
    requires Invariant(p) && fd !in p.fds && KeyFree(p, fd, key)
    ensures Invariant(Register(p, fd, interest, mode, key).value)
  {
  }

  lemma UnregisterKeeps(p: Poll, fd: Fd)
    requires Invariant(p) && fd in p.fds
    ensures Invariant(Unregister(p, fd).value)
  {
  }

  /** Reregistering a descriptor that is not level-triggered, or stays so under its key, keeps the map exact. */
  lemma ReregisterKeeps(p: Poll, fd: Fd, interest: Interest, mode: Mode, key: Key)
    requires Invariant(p) && fd in p.fds && KeyFree(p, fd, key)
    requires p.fds[fd].mode == Level ==> mode == Level && key == p.fds[fd].key
    ensures Invariant(Reregister(p, fd, interest, mode, key).value)
  {
    var after := Reregister(p, fd, interest, mode, key).value;
    forall k | k in after.level
      ensures after.level[k].fd in after.fds
      ensures after.fds[after.level[k].fd].key == k && after.fds[after.level[k].fd].mode == Level
    {
      if mode == Level && k == key {
        assert after.level[k].fd == fd;
      } else {
        assert k in p.level && after.level[k] == p.level[k] && p.fds[p.level[k].fd].key == k;
      }
    }
  }

  /** Otherwise the entry of the old key stays and is wrong. */
  lemma StaleKeyRemains(p: Poll, fd: Fd, interest: Interest, mode: Mode, key: Key)
    requires Invariant(p) && fd in p.fds && p.fds[fd].mode == Level && !(mode == Level && key == p.fds[fd].key)
    ensures !LevelExact(Reregister(p, fd, interest, mode, key).value)
  {
    var after := Reregister(p, fd, interest, mode, key).value;
    assert p.fds[fd].key in after.level && p.level[p.fds[fd].key].fd == fd;
  }

  /**
   Reregistering keeps the map exact precisely when a level-triggered descriptor keeps its
   key and its mode; the entry of the old key is never taken out.
   */
  lemma ReregisterKeepsIff(p: Poll, fd: Fd, interest: Interest, mode: Mode, key: Key)
    requires Invariant(p) && fd in p.fds && KeyFree(p, fd, key)
    ensures Invariant(Reregister(p, fd, interest, mode, key).value)
            <==> (p.fds[fd].mode == Level ==> mode == Level && key == p.fds[fd].key)
  {
    if p.fds[fd].mode == Level && !(mode == Level && key == p.fds[fd].key) {
      StaleKeyRemains(p, fd, interest, mode, key);
    } else {
      ReregisterKeeps(p, fd, interest, mode, key);
    }
  }

  // ---------------------------------------------------------------------------
  // Refinement of a level poller
  // ---------------------------------------------------------------------------

  /** The poller one would like to have: a level-triggered descriptor reports whenever it may. */
  datatype Wanted = Wanted(key: Key, interest: Interest, mode: Mode, spent: bool)

  function Ideal(p: Poll): map<Fd, Wanted> {
    map fd | fd in p.fds :: Wanted(p.fds[fd].key, p.fds[fd].interest, p.fds[fd].mode, !p.fds[fd].armed)
  }

  predicate IdealReportable(ideal: map<Fd, Wanted>, reports: seq<Report>) {
    && (forall r :: r in reports ==> r.fd in ideal && (ideal[r.fd].mode == Level || !ideal[r.fd].spent))
    && (forall i, j :: 0 <= i < j < |reports| ==> reports[i].fd != reports[j].fd)
  }

  /** Reporting changes nothing for level-triggered descriptors and spends the others. */
  function IdealWait(ideal: map<Fd, Wanted>, reports: seq<Report>): map<Fd, Wanted> {
    map fd | fd in ideal ::
      if ideal[fd].mode != Level && Reported(reports, fd) then ideal[fd].(spent := true) else ideal[fd]
  }

  function IdealEvents(ideal: map<Fd, Wanted>, reports: seq<Report>): (events: seq<PollEvent>)
    requires forall r :: r in reports ==> r.fd in ideal
    ensures |events| == |reports|
  {
    seq(|reports|, i requires 0 <= i < |reports| =>
      PollEvent(ideal[reports[i].fd].key, reports[i].readable, reports[i].writable))
  }

  /** The backend after the first `n` reports were turned into events. */
  function Rearmed(p: Poll, reports: seq<Report>, n: nat): map<Fd, Entry>
    requires n <= |reports| && forall r :: r in reports ==> r.fd in p.fds
  {
    map fd | fd in p.fds ::
      if p.fds[fd].mode == Level && (exists i :: 0 <= i < n && reports[i].fd == fd)
      then p.fds[fd] else Disarm(p.fds, reports)[fd]
  }

  lemma RearmOne(p: Poll, reports: seq<Report>, n: nat)
    requires Invariant(p) && Reportable(p, reports) && n < |reports|
    ensures var key := p.fds[reports[n].fd].key;
            && (key in p.level <==> p.fds[reports[n].fd].mode == Level)
            && (key in p.level ==> Modify(Rearmed(p, reports, n), key, p.level[key]) == Some(Rearmed(p, reports, n + 1)))
            && (key !in p.level ==> Rearmed(p, reports, n + 1) == Rearmed(p, reports, n))
  {
    var fd := reports[n].fd;
    assert reports[n] in reports;
    var key := p.fds[fd].key;
    if key in p.level {
      assert p.level[key].fd == fd;
      var now, next := Rearmed(p, reports, n), Rearmed(p, reports, n + 1);
      assert now[fd].mode == Level && now[fd].key == key && now[fd].interest == p.fds[fd].interest;
      assert next[fd] == p.fds[fd];
      assert now[fd := now[fd].(key := key, interest := p.level[key].interest, armed := true)] == next;
    } else {
      assert p.fds[fd].mode != Level;
    }
  }

  /** One round of the conversion, on the rest of the reports. */
  lemma CollectOne(p: Poll, keys: seq<Key>, reports: seq<Report>, n: nat, fds: map<Fd, Entry>)
    requires |keys| == |reports| && n < |keys|
    requires (fds == p.fds && keys[n] !in p.level)
             || (keys[n] in p.level && Modify(p.fds, keys[n], p.level[keys[n]]) == Some(fds))
    ensures var rest := Collect(p.(fds := fds), keys[n + 1..], reports[n + 1..]);
            var event := PollEvent(keys[n], reports[n].readable, reports[n].writable);
            Collect(p, keys[n..], reports[n..])
            == Collected(rest.poll, if rest.events.Some? then Some([event] + rest.events.value) else None)
  {
  }

  lemma EventsFrom(p: Poll, reports: seq<Report>, n: nat)
    requires (forall r :: r in reports ==> r.fd in p.fds) && n < |reports|
    ensures var keys, events := KeysOf(p.fds, reports), IdealEvents(Ideal(p), reports);
            events[n..] == [PollEvent(keys[n], reports[n].readable, reports[n].writable)] + events[n + 1..]
  {
    assert reports[n] in reports;
  }

  lemma {:induction false} CollectFrom(p: Poll, reports: seq<Report>, n: nat)
    requires Invariant(p) && Reportable(p, reports) && n <= |reports|
    ensures Collect(p.(fds := Rearmed(p, reports, n)), KeysOf(p.fds, reports)[n..], reports[n..])
            == Collected(p.(fds := Rearmed(p, reports, |reports|)), Some(IdealEvents(Ideal(p), reports)[n..]))
    decreases |reports| - n
  {
    var keys := KeysOf(p.fds, reports);
    if n < |reports| {
      RearmOne(p, reports, n);
      CollectFrom(p, reports, n + 1);
      EventsFrom(p, reports, n);
      CollectOne(p.(fds := Rearmed(p, reports, n)), keys, reports, n, Rearmed(p, reports, n + 1));
    } else {
      assert keys[n..] == [] && reports[n..] == [] && IdealEvents(Ideal(p), reports)[n..] == [];
    }
  }

  predicate Reported(reports: seq<Report>, fd: Fd) {
    exists r :: r in reports && r.fd == fd
  }

  lemma RearmedIs(p: Poll, reports: seq<Report>, fd: Fd)
    requires Reportable(p, reports) && fd in p.fds
    ensures Rearmed(p, reports, 0)[fd] == Disarm(p.fds, reports)[fd]
    ensures Rearmed(p, reports, |reports|)[fd]
            == if p.fds[fd].mode != Level && Reported(reports, fd) then p.fds[fd].(armed := false) else p.fds[fd]
  {
  }

  lemma ChangesOnlyArming(p: Poll, after: Poll)
    requires Invariant(p) && after.level == p.level && after.fds.Keys == p.fds.Keys
    requires forall fd :: fd in p.fds ==>
                            && (p.fds[fd].mode == Level ==> after.fds[fd] == p.fds[fd])
                            && after.fds[fd].(armed := p.fds[fd].armed) == p.fds[fd]
    ensures Invariant(after)
  {
  }

  lemma NothingRearmed(p: Poll, reports: seq<Report>)
    requires Reportable(p, reports)
    ensures Rearmed(p, reports, 0) == Disarm(p.fds, reports)
  {
  }

  lemma AllRearmed(p: Poll, reports: seq<Report>)
    requires Invariant(p) && Reportable(p, reports)
    ensures Invariant(p.(fds := Rearmed(p, reports, |reports|)))
  {
    var after := p.(fds := Rearmed(p, reports, |reports|));
    forall fd | fd in p.fds
      ensures p.fds[fd].mode == Level ==> after.fds[fd] == p.fds[fd]
      ensures after.fds[fd].(armed := p.fds[fd].armed) == p.fds[fd]
    {
      RearmedIs(p, reports, fd);
    }
    ChangesOnlyArming(p, after);
  }

  lemma AllRearmedIdeal(p: Poll, reports: seq<Report>)
    requires Invariant(p) && Reportable(p, reports)
    ensures Ideal(p.(fds := Rearmed(p, reports, |reports|))) == IdealWait(Ideal(p), reports)
  {
    var after := p.(fds := Rearmed(p, reports, |reports|));
    forall fd | fd in p.fds
      ensures Ideal(after)[fd] == IdealWait(Ideal(p), reports)[fd]
    {
      RearmedIs(p, reports, fd);
    }
  }

  /**
   A poll on the emulating poller succeeds and returns what the ideal one returns, may report
   the same descriptors next time, and leaves every level-triggered descriptor armed with
   its current interest under its current key.
   */
  lemma WaitRefines(p: Poll, reports: seq<Report>)
    requires Invariant(p)
    ensures Reportable(p, reports) <==> IdealReportable(Ideal(p), reports)
    ensures Reportable(p, reports) ==>
              var waited := Wait(p, reports);
              && waited.events == Some(IdealEvents(Ideal(p), reports))
              && Ideal(waited.poll) == IdealWait(Ideal(p), reports)
              && Invariant(waited.poll)
  {
    if Reportable(p, reports) {
      NothingRearmed(p, reports);
      AllRearmed(p, reports);
      AllRearmedIdeal(p, reports);
      CollectFrom(p, reports, 0);
      assert KeysOf(p.fds, reports)[0..] == KeysOf(p.fds, reports) && reports[0..] == reports;
      assert IdealEvents(Ideal(p), reports)[0..] == IdealEvents(Ideal(p), reports);
    }
  }

  // ---------------------------------------------------------------------------
  // Runs
  // ---------------------------------------------------------------------------

  datatype Step =
    | DoRegister(fd: Fd, interest: Interest, mode: Mode, key: Key)
    | DoReregister(fd: Fd, interest: Interest, mode: Mode, key: Key)
    | DoUnregister(fd: Fd)
    | DoWait(reports: seq<Report>)

  /** Keys are unique among registered descriptors, and level-triggered ones keep key and mode. */
  predicate Enabled(p: Poll, step: Step) {
    match step
    case DoRegister(fd, _, _, key) => fd !in p.fds && KeyFree(p, fd, key)
    case DoReregister(fd, _, mode, key) =>
      && fd in p.fds && KeyFree(p, fd, key)
      && (p.fds[fd].mode == Level ==> mode == Level && key == p.fds[fd].key)
    case DoUnregister(fd) => fd in p.fds
    case DoWait(reports) => Reportable(p, reports)
  }

  function Take(p: Poll, step: Step): Poll
    requires Enabled(p, step)
  {
    match step
    case DoRegister(fd, interest, mode, key) => Register(p, fd, interest, mode, key).value
    case DoReregister(fd, interest, mode, key) => Reregister(p, fd, interest, mode, key).value
    case DoUnregister(fd) => Unregister(p, fd).value
    case DoWait(reports) => Wait(p, reports).poll
  }

  function EventsOf(p: Poll, step: Step): seq<PollEvent>
    requires Enabled(p, step)
  {
    if step.DoWait? && Wait(p, step.reports).events.Some? then Wait(p, step.reports).events.value else []
  }

  /** The same steps on the ideal poller. */
  function IdealTake(ideal: map<Fd, Wanted>, step: Step): map<Fd, Wanted> {
    match step
    case DoRegister(fd, interest, mode, key) => ideal[fd := Wanted(key, interest, mode, false)]
    case DoReregister(fd, interest, mode, key) => ideal[fd := Wanted(key, interest, mode, false)]
    case DoUnregister(fd) => ideal - {fd}
    case DoWait(reports) => IdealWait(ideal, reports)
  }

  function IdealEventsOf(ideal: map<Fd, Wanted>, step: Step): seq<PollEvent> {
    if step.DoWait? && IdealReportable(ideal, step.reports) then IdealEvents(ideal, step.reports) else []
  }

  predicate Legal(p: Poll, steps: seq<Step>)
    decreases |steps|
  {
    steps == [] || (Enabled(p, steps[0]) && Legal(Take(p, steps[0]), steps[1..]))
  }

  function Run(p: Poll, steps: seq<Step>): (Poll, seq<PollEvent>)
    requires Legal(p, steps)
    decreases |steps|
  {
    if steps == [] then (p, [])
    else
      var (last, rest) := Run(Take(p, steps[0]), steps[1..]);
      (last, EventsOf(p, steps[0]) + rest)
  }

  function IdealRun(ideal: map<Fd, Wanted>, steps: seq<Step>): (map<Fd, Wanted>, seq<PollEvent>)
    decreases |steps|
  {
    if steps == [] then (ideal, [])
    else
      var (last, rest) := IdealRun(IdealTake(ideal, steps[0]), steps[1..]);
      (last, IdealEventsOf(ideal, steps[0]) + rest)
  }

  lemma SetIdeal(p: Poll, after: Poll, fd: Fd, e: Entry)
    requires after.fds == p.fds[fd := e] && e.armed
    ensures Ideal(after) == Ideal(p)[fd := Wanted(e.key, e.interest, e.mode, false)]
  {
  }

  lemma StepRefines(p: Poll, step: Step)
    requires Invariant(p) && Enabled(p, step)
    ensures Invariant(Take(p, step)) && Ideal(Take(p, step)) == IdealTake(Ideal(p), step)
    ensures EventsOf(p, step) == IdealEventsOf(Ideal(p), step)
  {
    match step
    case DoRegister(fd, interest, mode, key) =>
      RegisterKeeps(p, fd, interest, mode, key);
      SetIdeal(p, Take(p, step), fd, Entry(key, interest, mode, true));
    case DoReregister(fd, interest, mode, key) =>
      ReregisterKeeps(p, fd, interest, mode, key);
      SetIdeal(p, Take(p, step), fd, Entry(key, interest, mode, true));
    case DoUnregister(fd) => UnregisterKeeps(p, fd);
    case DoWait(reports) => WaitRefines(p, reports);
  }

  /** Over whole runs, the emulating poller produces the events of the ideal level poller. */
  lemma {:induction false} EmulationRefines(p: Poll, steps: seq<Step>)
    requires Invariant(p) && Legal(p, steps)
    ensures var (last, events) := Run(p, steps);
            Invariant(last) && IdealRun(Ideal(p), steps) == (Ideal(last), events)
    decreases |steps|
  {
    if steps != [] {
      StepRefines(p, steps[0]);
      EmulationRefines(Take(p, steps[0]), steps[1..]);
    }
  }

  /** A descriptor turned from level-triggered to oneshot is still re-armed by its first report. */
  lemma ModeChangeStillRearms(p: Poll, fd: Fd, r: Report)
    requires Invariant(p) && fd in p.fds && p.fds[fd].mode == Level && r.fd == fd
    ensures var changed := Reregister(p, fd, p.fds[fd].interest, OneShot, p.fds[fd].key).value;
            && Reportable(changed, [r])
            && fd in Wait(changed, [r]).poll.fds && Wait(changed, [r]).poll.fds[fd].armed
            && fd in Ideal(changed) && IdealWait(Ideal(changed), [r])[fd].spent
  {
    var changed := Reregister(p, fd, p.fds[fd].interest, OneShot, p.fds[fd].key).value;
    var keys := KeysOf(changed.fds, [r]);
    assert r in [r] && Reported([r], fd);
    assert keys[1..] == [] && [r][1..] == [];
    assert keys[0] in changed.level && changed.level[keys[0]].fd == fd;
    var quiet := changed.(fds := Disarm(changed.fds, [r]));
    var rearmed := Modify(quiet.fds, keys[0], changed.level[keys[0]]).value;
    assert Collect(quiet.(fds := rearmed), keys[1..], [r][1..]).poll.fds == rearmed;
    assert Wait(changed, [r]).poll.fds == rearmed;
  }

  // ---------------------------------------------------------------------------
  // The poller as an object
  // ---------------------------------------------------------------------------

  class Poller {
    var fds: map<Fd, Entry>
    var level: map<Key, Watched>

    ghost function State(): Poll
      reads this
    {
      Poll(fds, level)
    }

    constructor ()
      ensures State() == Poll(map[], map[]) && Invariant(State())
    {
      fds, level := map[], map[];
    }

    method Add(fd: Fd, interest: Interest, mode: Mode, key: Key) returns (ok: bool)
      modifies this
      ensures ok <==> fd !in old(fds)
      ensures State() == if ok then Register(old(State()), fd, interest, mode, key).value else old(State())
    {
      if fd in fds {
        return false;
      }
      fds := fds[fd := Entry(key, interest, mode, true)];
      if mode == Level {
        level := level[key := Watched(fd, interest)];
      }
      ok := true;
    }

    method Change(fd: Fd, interest: Interest, mode: Mode, key: Key) returns (ok: bool)
      modifies this
      ensures ok <==> fd in old(fds)
      ensures State() == if ok then Reregister(old(State()), fd, interest, mode, key).value else old(State())
    {
      if fd !in fds {
        return false;
      }
      fds := fds[fd := Entry(key, interest, mode, true)];
      if mode == Level {
        level := level[key := Watched(fd, interest)];
      }
      ok := true;
    }

    method Delete(fd: Fd) returns (ok: bool)
      modifies this
      ensures ok <==> fd in old(fds)
      ensures State() == if ok then Unregister(old(State()), fd).value else old(State())
    {
      if fd !in fds {
        return false;
      }
      fds := fds - {fd};
      level := map k | k in level && level[k].fd != fd :: level[k];
      ok := true;
    }

    /** The backend's own `delete`, without the bookkeeping of `Delete`. */
    method DeleteFromBackend(fd: Fd)
      modifies this`fds
      ensures fds == old(fds) - {fd}
    {
      fds := fds - {fd};
    }

    /** The conversion loop of `Poll::poll` over what the backend reported. */
    method PollOnce(reports: seq<Report>) returns (events: Option<seq<PollEvent>>)
      requires Reportable(State(), reports)
      modifies this`fds
      ensures Collected(State(), events) == Wait(old(State()), reports)
    {
      var keys := KeysOf(fds, reports);
      fds := Disarm(fds, reports);
      ghost var whole := Collect(State(), keys, reports);
      var found: seq<PollEvent> := [];
      var i := 0;
      assert keys[0..] == keys && reports[0..] == reports;
      assert whole.events.Some? ==> found + whole.events.value == whole.events.value;
      while i < |reports|
        invariant i <= |reports| && level == old(level)
        invariant var rest := Collect(State(), keys[i..], reports[i..]);
                  whole == Collected(rest.poll, if rest.events.Some? then Some(found + rest.events.value) else None)
      {
        ghost var rest := Collect(State(), keys[i..], reports[i..]);
        assert keys[i..][0] == keys[i] && keys[i..][1..] == keys[i + 1..] && reports[i..][1..] == reports[i + 1..];
        if keys[i] in level {
          var watched := level[keys[i]];
          if watched.fd !in fds {
            return None;
          }
          fds := fds[watched.fd := fds[watched.fd].(key := keys[i], interest := watched.interest, armed := true)];
        }
        ghost var later := Collect(State(), keys[i + 1..], reports[i + 1..]);
        var event := PollEvent(keys[i], reports[i].readable, reports[i].writable);
        if later.events.Some? {
          assert found + ([event] + later.events.value) == (found + [event]) + later.events.value;
        }
        found := found + [event];
        i := i + 1;
      }
      assert keys[i..] == [] && reports[i..] == [];
      assert found + [] == found;
      events := Some(found);
    }
  }
}
