/**
 How an executor is woken (src/sources/futures.rs): senders on any thread push a runnable,
 then swap the `notified` flag, then ping if it was clear; the executor drains the ping,
 clears the flag, pops at most 1024 runnables, and pings itself if it may have left some.

 Every atomic access is a step of its own and the steps interleave freely.
 */
module Wakeups {
  import opened Eventfd

  type SenderId = nat
  type Runnable = nat

  /** How far a call of `Sender::send` has come; a sender that is not in the map has none in progress. */
  datatype SendPhase = Pushed | MustPing

  datatype ExecPhase =
    | Waiting
    | Drained
    | Popping(left: nat)
    | Leaving(clearReadiness: bool)

  const BUDGET: nat := 1024

  datatype Wake = Wake(
    queue: seq<Runnable>,
    counter: nat,
    notified: bool,
    senders: map<SenderId, SendPhase>,
    exec: ExecPhase,
    // Everything ever pushed and popped, in order.
    pushed: seq<Runnable>,
    popped: seq<Runnable>)

  datatype Step =
    | Push(id: SenderId, r: Runnable)
    | Swap(id: SenderId)
    | SendPing(id: SenderId)
    | Start
    | StartSpurious
    | Clear
    | Pop
    | FindEmpty
    | Exhaust
    | Leave

  predicate Enabled(s: Wake, step: Step) {
    match step
    case Push(id, _) => id !in s.senders
    case Swap(id) => id in s.senders && s.senders[id] == Pushed
    case SendPing(id) => id in s.senders && s.senders[id] == MustPing
    case Start => s.exec == Waiting && s.counter > 0
    case StartSpurious => s.exec == Waiting
    case Clear => s.exec == Drained
    case Pop => s.exec.Popping? && s.exec.left > 0 && s.queue != []
    case FindEmpty => s.exec.Popping? && s.exec.left > 0 && s.queue == []
    case Exhaust => s.exec == Popping(0)
    case Leave => s.exec.Leaving?
  }

  function Take(s: Wake, step: Step): Wake
    requires Enabled(s, step)
  {
    match step
    case Push(id, r) =>
      s.(queue := s.queue + [r], pushed := s.pushed + [r], senders := s.senders[id := Pushed])
    case Swap(id) =>
      if s.notified then s.(senders := s.senders - {id})
      else s.(notified := true, senders := s.senders[id := MustPing])
    case SendPing(id) =>
      s.(counter := Write(s.counter, INCREMENT_PING), senders := s.senders - {id})
    case Start =>
      // The executor's own `Ping` keeps the close bit away; the callback runs on the ping bits.
      s.(counter := 0, exec := if Decode(s.counter).ping then Drained else Leaving(false))
    case StartSpurious =>
      // An event under a token that is no longer current: nothing is read.
      s.(exec := Leaving(false))
    case Clear =>
      s.(notified := false, exec := Popping(BUDGET))
    case Pop =>
      s.(queue := s.queue[1..], popped := s.popped + [s.queue[0]], exec := Popping(s.exec.left - 1))
    case FindEmpty =>
      s.(exec := Leaving(true))
    case Exhaust =>
      s.(exec := Leaving(false))
    case Leave =>
      s.(exec := Waiting, counter := if s.exec.clearReadiness then s.counter else Write(s.counter, INCREMENT_PING))
  }

  const INITIAL := Wake([], 0, false, map[], Waiting, [], [])

  predicate Legal(s: Wake, steps: seq<Step>)
    decreases |steps|
  {
    steps == [] || (Enabled(s, steps[0]) && Legal(Take(s, steps[0]), steps[1..]))
  }

  function Run(s: Wake, steps: seq<Step>): Wake
    requires Legal(s, steps)
    decreases |steps|
  {
    if steps == [] then s else Run(Take(s, steps[0]), steps[1..])
  }

  /** Some sender has set the flag and not pinged yet. */
  predicate PingOwed(s: Wake) {
    exists id :: id in s.senders && s.senders[id] == MustPing
  }

  predicate Invariant(s: Wake) {
    && s.counter <= COUNTER_MAX && s.counter % 2 == 0
    // A set flag is backed by a ping: readable, owed, or being handled before the flag is cleared.
    && (s.notified ==> s.counter > 0 || PingOwed(s) || s.exec == Drained)
    // What is queued when the executor will not look again has a wake-up under way.
    && (s.queue != [] && s.exec in {Waiting, Leaving(true)} ==> s.counter > 0 || s.senders != map[])
    && s.pushed == s.popped + s.queue
  }

  lemma SenderStepKeeps(s: Wake, step: Step)
    requires Invariant(s) && Enabled(s, step) && (step.Push? || step.Swap? || step.SendPing?)
    ensures Invariant(Take(s, step))
  {
    var after := Take(s, step);
    match step
    case Push(id, r) =>
      assert id in after.senders;
      if PingOwed(s) {
        var other :| other in s.senders && s.senders[other] == MustPing;
        assert other in after.senders && after.senders[other] == MustPing;
      }
    case Swap(id) =>
      if s.notified {
        if PingOwed(s) {
          var other :| other in s.senders && s.senders[other] == MustPing;
          assert other in after.senders && after.senders[other] == MustPing;
        }
      } else {
        assert id in after.senders && after.senders[id] == MustPing;
      }
    case SendPing(id) =>
  }

  lemma StepKeeps(s: Wake, step: Step)
    requires Invariant(s) && Enabled(s, step)
    ensures Invariant(Take(s, step))
  {
    match step
    case Push(_, _) => SenderStepKeeps(s, step);
    case Swap(_) => SenderStepKeeps(s, step);
    case SendPing(_) => SenderStepKeeps(s, step);
    case Pop => assert s.queue == [s.queue[0]] + s.queue[1..];
    case _ =>
  }

  lemma {:induction false} RunKeeps(s: Wake, steps: seq<Step>)
    requires Invariant(s) && Legal(s, steps)
    ensures Invariant(Run(s, steps))
    decreases |steps|
  {
    if steps != [] {
      StepKeeps(s, steps[0]);
      RunKeeps(Take(s, steps[0]), steps[1..]);
    }
  }

  /**
   No wake-up is lost: in every interleaving of any number of senders with the executor,
   runnables that are queued while the executor is idle have a ping waiting to be read or
   a sender that has yet to swap the flag or to ping. Nor is a runnable lost or repeated.
   */
  lemma NoLostWakeup(steps: seq<Step>)
    requires Legal(INITIAL, steps)
    ensures var s := Run(INITIAL, steps);
            && (s.exec == Waiting && s.queue != [] ==> s.counter > 0 || s.senders != map[])
            && s.pushed == s.popped + s.queue
  {
    RunKeeps(INITIAL, steps);
  }

  /** Once the senders have finished, an idle executor with work left is readable. */
  lemma QuietSendersMeanReadable(steps: seq<Step>)
    requires Legal(INITIAL, steps)
    requires var s := Run(INITIAL, steps); s.exec == Waiting && s.senders == map[] && s.queue != []
    ensures Enabled(Run(INITIAL, steps), Start)
    ensures Take(Run(INITIAL, steps), Start).exec == Drained
  {
    RunKeeps(INITIAL, steps);
  }

  function Pushes(steps: seq<Step>): seq<Runnable> {
    if steps == [] then []
    else (if steps[0].Push? then [steps[0].r] else []) + Pushes(steps[1..])
  }

  lemma {:induction false} PushedFrom(s: Wake, steps: seq<Step>)
    requires Legal(s, steps)
    ensures Run(s, steps).pushed == s.pushed + Pushes(steps)
    decreases |steps|
  {
    if steps != [] {
      PushedFrom(Take(s, steps[0]), steps[1..]);
    }
  }

  /** In every run, what was sent is what the executor popped followed by what is queued, in the order of the sends. */
  lemma SentIsPoppedOrQueued(steps: seq<Step>)
    requires Legal(INITIAL, steps)
    ensures Run(INITIAL, steps).popped + Run(INITIAL, steps).queue == Pushes(steps)
  {
    PushedFrom(INITIAL, steps);
    RunKeeps(INITIAL, steps);
  }

  // ---------------------------------------------------------------------------
  // How long a backlog takes
  // ---------------------------------------------------------------------------

  function Pops(n: nat): (steps: seq<Step>)
    ensures |steps| == n
  {
    if n == 0 then [] else [Pop] + Pops(n - 1)
  }

  /** The steps of one call of `process_events` with `n` runnables queued and no sender interfering. */
  function Pass(n: nat): seq<Step> {
    [Start, Clear] + Pops(if n < BUDGET then n else BUDGET) + [if n < BUDGET then FindEmpty else Exhaust] + [Leave]
  }

  lemma {:induction false} RunAppends(s: Wake, a: seq<Step>, b: seq<Step>)
    requires Legal(s, a) && Legal(Run(s, a), b)
    ensures Legal(s, a + b) && Run(s, a + b) == Run(Run(s, a), b)
    decreases |a|
  {
    if a == [] {
      assert a + b == b;
    } else {
      RunAppends(Take(s, a[0]), a[1..], b);
      assert (a + b)[1..] == a[1..] + b;
    }
  }

  lemma RunOne(s: Wake, step: Step)
    requires Enabled(s, step)
    ensures Legal(s, [step]) && Run(s, [step]) == Take(s, step)
  {
  }

  /** The state after popping the first `n` runnables. */
  function Popped(s: Wake, n: nat): Wake
    requires s.exec.Popping? && n <= s.exec.left && n <= |s.queue|
  {
    s.(queue := s.queue[n..], popped := s.popped + s.queue[..n], exec := Popping(s.exec.left - n))
  }

  lemma PopThenPopped(s: Wake, n: nat)
    requires s.exec.Popping? && 0 < n <= s.exec.left && n <= |s.queue|
    ensures Popped(Take(s, Pop), n - 1) == Popped(s, n)
  {
  }

  lemma {:induction false} PopsRun(s: Wake, n: nat)
    requires s.exec.Popping? && n <= s.exec.left && n <= |s.queue|
    ensures Legal(s, Pops(n)) && Run(s, Pops(n)) == Popped(s, n)
    decreases n
  {
    if n > 0 {
      PopsRun(Take(s, Pop), n - 1);
      PopThenPopped(s, n);
      assert Pops(n)[1..] == Pops(n - 1);
    } else {
      assert s.popped + s.queue[..0] == s.popped;
    }
  }

  /** What one undisturbed pass comes to. */
  function AfterPass(s: Wake): Wake {
    var n := |s.queue|;
    var k := if n < BUDGET then n else BUDGET;
    s.(queue := s.queue[k..], popped := s.popped + s.queue[..k], notified := false,
       counter := if n < BUDGET then 0 else INCREMENT_PING)
  }

  /** A pass pops a full budget and pings itself, or empties the queue and leaves the counter at zero. */
  lemma PassRuns(s: Wake)
    requires s.exec == Waiting && s.counter > 1
    ensures Legal(s, Pass(|s.queue|)) && Run(s, Pass(|s.queue|)) == AfterPass(s)
  {
    var n := |s.queue|;
    var k := if n < BUDGET then n else BUDGET;
    var head, last := [Start, Clear], [if n < BUDGET then FindEmpty else Exhaust];
    RunOne(s, Start);
    var started := Take(Take(s, Start), Clear);
    RunOne(Take(s, Start), Clear);
    RunAppends(s, [Start], [Clear]);
    assert [Start] + [Clear] == head;
    PopsRun(started, k);
    RunAppends(s, head, Pops(k));
    var popped := Run(s, head + Pops(k));
    RunOne(popped, last[0]);
    RunAppends(s, head + Pops(k), last);
    RunOne(Take(popped, last[0]), Leave);
    RunAppends(s, head + Pops(k) + last, [Leave]);
    assert head + Pops(k) + last + [Leave] == Pass(n);
  }

  /** `calls` passes in a row, the first with `n` runnables queued. */
  function Passes(n: nat, calls: nat): seq<Step> {
    if calls == 0 then [] else Pass(n) + Passes(if n < BUDGET then 0 else n - BUDGET, calls - 1)
  }

  function AfterBacklog(s: Wake): Wake {
    s.(queue := [], popped := s.popped + s.queue, notified := false, counter := 0)
  }

  lemma BacklogSplits(s: Wake)
    ensures |s.queue| < BUDGET ==> AfterPass(s) == AfterBacklog(s)
    ensures |s.queue| >= BUDGET ==> AfterBacklog(AfterPass(s)) == AfterBacklog(s)
  {
  }

  /** A backlog of n drains in floor(n / 1024) + 1 passes, in order, and the executor then sleeps. */
  lemma {:induction false} BacklogDrains(s: Wake, calls: nat)
    requires s.exec == Waiting && s.counter > 1 && calls == |s.queue| / BUDGET + 1
    ensures Legal(s, Passes(|s.queue|, calls)) && Run(s, Passes(|s.queue|, calls)) == AfterBacklog(s)
    decreases calls
  {
    var n := |s.queue|;
    PassRuns(s);
    BacklogSplits(s);
    var rest := Passes(if n < BUDGET then 0 else n - BUDGET, calls - 1);
    if n < BUDGET {
      assert rest == [] && Legal(AfterPass(s), rest);
    } else {
      BacklogDrains(AfterPass(s), calls - 1);
    }
    RunAppends(s, Pass(n), rest);
  }

  // ---------------------------------------------------------------------------
  // No run drains it otherwise
  // ---------------------------------------------------------------------------

  /** The executor's own steps on an event of its own. */
  predicate ExecStep(step: Step) {
    step.Start? || step.Clear? || step.Pop? || step.FindEmpty? || step.Exhaust? || step.Leave?
  }

  predicate AllExec(steps: seq<Step>) {
    forall k :: 0 <= k < |steps| ==> ExecStep(steps[k])
  }

  /**
   Undisturbed, the executor has no choice: its runs are the beginnings of one that it cannot
   continue, and each can go on along that one.
   */
  lemma {:induction false} RunsAgree(s: Wake, steps: seq<Step>, whole: seq<Step>)
    requires Legal(s, steps) && Legal(s, whole) && AllExec(steps) && AllExec(whole)
    requires forall step :: ExecStep(step) ==> !Enabled(Run(s, whole), step)
    ensures steps <= whole
    ensures |steps| < |whole| ==> Enabled(Run(s, steps), whole[|steps|])
    decreases |steps|
  {
    if steps != [] {
      assert ExecStep(steps[0]);
      assert whole != [] && steps[0] == whole[0];
      RunsAgree(Take(s, steps[0]), steps[1..], whole[1..]);
      assert steps == [steps[0]] + steps[1..] && whole == [whole[0]] + whole[1..];
    }
  }

  lemma {:induction false} PopsAre(n: nat)
    ensures forall k :: 0 <= k < n ==> Pops(n)[k] == Pop
  {
    if n > 0 {
      PopsAre(n - 1);
    }
  }

  lemma {:induction false} PassesAreExec(n: nat, calls: nat)
    ensures AllExec(Passes(n, calls))
    decreases calls
  {
    if calls > 0 {
      PopsAre(if n < BUDGET then n else BUDGET);
      PassesAreExec(if n < BUDGET then 0 else n - BUDGET, calls - 1);
    }
  }

  lemma DrainsAlong(s: Wake, steps: seq<Step>, whole: seq<Step>)
    requires s.exec == Waiting && Legal(s, whole) && AllExec(whole) && Run(s, whole) == AfterBacklog(s)
    requires Legal(s, steps) && AllExec(steps)
    ensures steps <= whole
    ensures (forall step :: ExecStep(step) ==> !Enabled(Run(s, steps), step)) <==> Run(s, steps) == AfterBacklog(s)
  {
    var drained := AfterBacklog(s);
    assert forall step :: ExecStep(step) ==> !Enabled(drained, step);
    RunsAgree(s, steps, whole);
    if |steps| < |whole| {
      assert ExecStep(whole[|steps|]) && Enabled(Run(s, steps), whole[|steps|]);
    } else {
      assert steps == whole;
    }
  }

  /**
   Whatever the executor does undisturbed is a beginning of those passes; when it can do no
   more, and only then, everything is popped and the counter is zero.
   */
  lemma BacklogDrainsSurely(s: Wake, steps: seq<Step>)
    requires s.exec == Waiting && s.counter > 1 && Legal(s, steps) && AllExec(steps)
    ensures steps <= Passes(|s.queue|, |s.queue| / BUDGET + 1)
    ensures (forall step :: ExecStep(step) ==> !Enabled(Run(s, steps), step)) <==> Run(s, steps) == AfterBacklog(s)
  {
    var calls := |s.queue| / BUDGET + 1;
    BacklogDrains(s, calls);
    PassesAreExec(|s.queue|, calls);
    DrainsAlong(s, steps, Passes(|s.queue|, calls));
  }
}
