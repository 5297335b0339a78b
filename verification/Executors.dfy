/**
 The tasks of an executor (src/sources/futures.rs): a slab of active tasks, a queue of
 runnables, and the pass over the queue that runs them and hands finished results to the
 callback. How other threads wake the executor is in `Wakeups`.

 The contract of `async-task` is that a task has at most one runnable, queued or running:
 waking a queued task does nothing, waking a running one queues it again when its poll
 returns, and waking a task that is over does nothing. The contract of `Slab` is that a
 vacant key is one that is not in use, and is otherwise arbitrary.
 */
module Executors {
  import opened Wrappers
  import opened Eventfd

  type Task = nat
  type Index = nat
  type Value = nat

  /** A waker or a result; the task it stands for is recorded with both. */
  datatype Active = Future(t: Task) | Finished(t: Task, v: Value)

  datatype Output = Output(t: Task, v: Value)

  datatype Tasks = Tasks(
    active: map<Index, Active>,
    // The tasks whose future still exists, with the index that its runnable and its guard carry.
    index: map<Task, Index>,
    queue: seq<Task>,
    running: Option<Task>,
    rewoken: bool,
    // Every task ever scheduled, every result ever produced, every result passed to the callback.
    spawned: set<Task>,
    finished: seq<Output>,
    delivered: seq<Output>,
    // The tasks whose futures were polled, in order.
    polled: seq<Task>)

  const EMPTY := Tasks(map[], map[], [], None, false, {}, [], [], [])

  /** What futures and callbacks do to the executor: schedule another future, or wake a task. */
  datatype TaskOp = Spawn(t: Task, key: Index) | WakeTask(t: Task)

  /** A future is scheduled once, under a key that is vacant. */
  predicate Possible(s: Tasks, op: TaskOp) {
    op.Spawn? ==> op.t !in s.spawned && op.key !in s.active
  }

  function Perform(s: Tasks, op: TaskOp): Tasks {
    match op
    case Spawn(t, key) =>
      s.(active := s.active[key := Future(t)], index := s.index[t := key],
         queue := s.queue + [t], spawned := s.spawned + {t})
    case WakeTask(t) =>
      if t !in s.index || t in s.queue then s
      else if s.running == Some(t) then s.(rewoken := true)
      else s.(queue := s.queue + [t])
  }

  predicate AllPossible(s: Tasks, ops: seq<TaskOp>)
    decreases |ops|
  {
    ops == [] || (Possible(s, ops[0]) && AllPossible(Perform(s, ops[0]), ops[1..]))
  }

  function PerformAll(s: Tasks, ops: seq<TaskOp>): Tasks
    decreases |ops|
  {
    if ops == [] then s else PerformAll(Perform(s, ops[0]), ops[1..])
  }

  /** How one poll of a future ends: not ready, with a value, or dropped without one. */
  datatype Outcome = Pending | Ready(v: Value) | Abandoned

  /** One turn: what the future did while polled, how that ended, what the callback did with a result. */
  datatype Turn = Turn(inFuture: seq<TaskOp>, outcome: Outcome, inCallback: seq<TaskOp>)

  const IDLE_TURN := Turn([], Pending, [])

  function BeginRun(s: Tasks): Tasks
    requires s.queue != []
  {
    s.(queue := s.queue[1..], running := Some(s.queue[0]), rewoken := false, polled := s.polled + [s.queue[0]])
  }

  /** The end of `Runnable::run`, including the drop of the guard that stores the result. */
  function EndRun(s: Tasks, t: Task, i: Index, outcome: Outcome): Tasks {
    match outcome
    case Pending => s.(running := None, rewoken := false, queue := if s.rewoken then s.queue + [t] else s.queue)
    case Ready(v) =>
      s.(running := None, rewoken := false, active := s.active[i := Finished(t, v)],
         index := s.index - {t}, finished := s.finished + [Output(t, v)])
    case Abandoned =>
      s.(running := None, rewoken := false, active := s.active - {i}, index := s.index - {t})
  }

  /** The result stored at `i`, if any, is taken out; the callback runs after that. */
  function Collect(s: Tasks, i: Index, inCallback: seq<TaskOp>): Tasks {
    if i in s.active && s.active[i].Finished? then
      PerformAll(s.(active := s.active - {i}, delivered := s.delivered + [Output(s.active[i].t, s.active[i].v)]), inCallback)
    else s
  }

  function AfterFuture(s: Tasks, turn: Turn): Tasks
    requires s.queue != [] && s.queue[0] in s.index
  {
    EndRun(PerformAll(BeginRun(s), turn.inFuture), s.queue[0], s.index[s.queue[0]], turn.outcome)
  }

  function TakeTurn(s: Tasks, turn: Turn): Tasks
    requires s.queue != [] && s.queue[0] in s.index
  {
    Collect(AfterFuture(s, turn), s.index[s.queue[0]], turn.inCallback)
  }

  predicate TurnPossible(s: Tasks, turn: Turn)
    requires s.queue != [] && s.queue[0] in s.index
  {
    var ended := AfterFuture(s, turn);
    var i := s.index[s.queue[0]];
    && AllPossible(BeginRun(s), turn.inFuture)
    && (i in ended.active && ended.active[i].Finished? ==>
          AllPossible(ended.(active := ended.active - {i},
                             delivered := ended.delivered + [Output(ended.active[i].t, ended.active[i].v)]),
                      turn.inCallback))
  }

  // ---------------------------------------------------------------------------
  // What every operation keeps
  // ---------------------------------------------------------------------------

  predicate Distinct(queue: seq<Task>) {
    forall i, j :: 0 <= i < j < |queue| ==> queue[i] != queue[j]
  }

  /** The slab holds exactly the futures that exist, each at its own index. */
  predicate SlabExact(s: Tasks) {
    && (forall i :: i in s.active ==>
                      s.active[i].Future? && s.active[i].t in s.index && s.index[s.active[i].t] == i)
    && (forall t :: t in s.index ==> s.index[t] in s.active && s.active[s.index[t]] == Future(t))
  }

  predicate Invariant(s: Tasks) {
    && SlabExact(s)
    && (forall t :: t in s.queue ==> t in s.index)
    && Distinct(s.queue)
    && (s.running.Some? ==> s.running.value in s.index && s.running.value !in s.queue)
    && s.index.Keys <= s.spawned
    && (forall k :: 0 <= k < |s.finished| ==> s.finished[k].t in s.spawned && s.finished[k].t !in s.index)
    && (forall k, l :: 0 <= k < l < |s.finished| ==> s.finished[k].t != s.finished[l].t)
    && s.delivered == s.finished
  }

  lemma OpKeeps(s: Tasks, op: TaskOp)
    requires Invariant(s) && Possible(s, op)
    ensures Invariant(Perform(s, op)) && Perform(s, op).running == s.running
    ensures s.running.Some? ==> Perform(s, op).index[s.running.value] == s.index[s.running.value]
    ensures Perform(s, op).finished == s.finished
  {
    var after := Perform(s, op);
    if op.Spawn? {
      forall t | t in after.index
        ensures after.index[t] in after.active && after.active[after.index[t]] == Future(t)
      {
        if t != op.t {
          assert s.active[s.index[t]] == Future(t);
        }
      }
    }
  }

  /**
   What futures and callbacks ask for happens: a scheduled future is in the slab under its
   key and at the end of the queue, a woken one is in the queue or, while it runs, queued
   again when its poll returns; nothing else changes.
   */
  lemma OpEffect(s: Tasks, op: TaskOp)
    requires Invariant(s) && Possible(s, op)
    ensures var after := Perform(s, op);
            && s.queue <= after.queue
            && after.delivered == s.delivered && after.polled == s.polled
            && (op.Spawn? ==>
                  && after.queue == s.queue + [op.t]
                  && after.active == s.active[op.key := Future(op.t)]
                  && after.index == s.index[op.t := op.key] && op.t in after.spawned)
            && (op.WakeTask? ==>
                  && after.active == s.active && after.index == s.index && after.spawned == s.spawned
                  && (op.t in s.index ==> op.t in after.queue || (s.running == Some(op.t) && after.rewoken))
                  && (forall t :: t != op.t && t in after.queue ==> t in s.queue))
    ensures op.WakeTask? && s.running == Some(op.t) ==>
              op.t in EndRun(Perform(s, op), op.t, s.index[op.t], Pending).queue
  {
  }

  lemma {:induction false} OpsGrow(s: Tasks, ops: seq<TaskOp>)
    requires Invariant(s) && AllPossible(s, ops)
    ensures var after := PerformAll(s, ops);
            && s.queue <= after.queue && after.delivered == s.delivered && after.polled == s.polled
            && (s.rewoken ==> after.rewoken)
    decreases |ops|
  {
    if ops != [] {
      OpEffect(s, ops[0]);
      OpKeeps(s, ops[0]);
      OpsGrow(Perform(s, ops[0]), ops[1..]);
    }
  }

  /** Performing operations is performing the first and then the others. */
  lemma {:induction false} OpsSplit(s: Tasks, a: seq<TaskOp>, b: seq<TaskOp>)
    ensures PerformAll(s, a + b) == PerformAll(PerformAll(s, a), b)
    ensures forall op :: PerformAll(s, [op]) == Perform(s, op)
    decreases |a|
  {
    forall op
      ensures PerformAll(s, [op]) == Perform(s, op)
    {
      assert [op][1..] == [];
    }
    if a == [] {
      assert a + b == b;
    } else {
      assert (a + b)[1..] == a[1..] + b;
      OpsSplit(Perform(s, a[0]), a[1..], b);
    }
  }

  lemma {:induction false} OpsKeep(s: Tasks, ops: seq<TaskOp>)
    requires Invariant(s) && AllPossible(s, ops)
    ensures Invariant(PerformAll(s, ops)) && PerformAll(s, ops).running == s.running
    ensures s.running.Some? ==> PerformAll(s, ops).index[s.running.value] == s.index[s.running.value]
    ensures PerformAll(s, ops).finished == s.finished
    decreases |ops|
  {
    if ops != [] {
      OpKeeps(s, ops[0]);
      OpsKeep(Perform(s, ops[0]), ops[1..]);
    }
  }

  /** Until its result is collected, the key of a finished task is in use: no future gets it. */
  lemma KeyHeldUntilCollected(s: Tasks, turn: Turn, op: TaskOp)
    requires Invariant(s) && s.running == None && s.queue != [] && TurnPossible(s, turn) && turn.outcome.Ready?
    requires op.Spawn? && Possible(AfterFuture(s, turn), op)
    ensures op.key != s.index[s.queue[0]]
    ensures AfterFuture(s, turn).active[s.index[s.queue[0]]] == Finished(s.queue[0], turn.outcome.v)
  {
  }

  lemma BeginKeeps(s: Tasks)
    requires Invariant(s) && s.running == None && s.queue != []
    ensures Invariant(BeginRun(s))
  {
  }

  lemma PendingKeeps(s: Tasks, t: Task)
    requires Invariant(s) && s.running == Some(t)
    ensures Invariant(EndRun(s, t, s.index[t], Pending))
  {
  }

  /** A task that is over, whether or not its result was stored and collected. */
  lemma OverKeeps(s: Tasks, t: Task, outcome: Outcome)
    requires Invariant(s) && s.running == Some(t) && outcome != Pending
    ensures var i := s.index[t];
            var ended := EndRun(s, t, i, outcome);
            var done := ended.(active := ended.active - {i}, delivered := ended.finished);
            && Invariant(done)
            && done.delivered == s.delivered + (if outcome.Ready? then [Output(t, outcome.v)] else [])
            && (outcome.Ready? <==> i in ended.active && ended.active[i].Finished?)
            && (outcome.Ready? ==> ended.active[i] == Finished(t, outcome.v) && ended.delivered == s.delivered)
            && (outcome == Abandoned ==> ended == done)
  {
    var i := s.index[t];
    var ended := EndRun(s, t, i, outcome);
    var done := ended.(active := ended.active - {i}, delivered := ended.finished);
    forall u | u in done.index
      ensures done.index[u] in done.active && done.active[done.index[u]] == Future(u)
    {
      assert s.active[s.index[u]] == Future(u);
    }
    forall j | j in done.active
      ensures done.active[j].Future? && done.active[j].t in done.index && done.index[done.active[j].t] == j
    {
      assert s.active[j] == done.active[j];
    }
  }

  /**
   A turn passes to the callback the result of the very task that finished in it, before
   the task's index can be taken by another, and nothing if no task finished.
   */
  lemma TurnDelivers(s: Tasks, turn: Turn)
    requires Invariant(s) && s.running == None && s.queue != [] && TurnPossible(s, turn)
    ensures var after := TakeTurn(s, turn);
            && Invariant(after) && after.running == None
            && after.finished == s.finished + (if turn.outcome.Ready? then [Output(s.queue[0], turn.outcome.v)] else [])
  {
    var t, i := s.queue[0], s.index[s.queue[0]];
    BeginKeeps(s);
    OpsKeep(BeginRun(s), turn.inFuture);
    var polled := PerformAll(BeginRun(s), turn.inFuture);
    if turn.outcome == Pending {
      PendingKeeps(polled, t);
      assert EndRun(polled, t, i, Pending).active == polled.active;
    } else {
      OverKeeps(polled, t, turn.outcome);
      var ended := EndRun(polled, t, i, turn.outcome);
      if turn.outcome.Ready? {
        var collected := ended.(active := ended.active - {i}, delivered := ended.delivered + [Output(t, turn.outcome.v)]);
        assert collected == ended.(active := ended.active - {i}, delivered := ended.finished);
        OpsKeep(collected, turn.inCallback);
      }
    }
  }

  // ---------------------------------------------------------------------------
  // A pass, and runs
  // ---------------------------------------------------------------------------

  const BUDGET: nat := 1024

  datatype Passed = Passed(tasks: Tasks, clearReadiness: bool)

  function FirstTurn(turns: seq<Turn>): Turn {
    if turns == [] then IDLE_TURN else turns[0]
  }

  function LaterTurns(turns: seq<Turn>): seq<Turn> {
    if turns == [] then [] else turns[1..]
  }

  /** At most `budget` turns; the readiness may be cleared only when the queue was found empty. */
  function Pass(s: Tasks, turns: seq<Turn>, budget: nat): Passed
    decreases budget
  {
    if budget == 0 then Passed(s, false)
    else if s.queue == [] then Passed(s, true)
    else if s.queue[0] !in s.index then Passed(s, false)
    else Pass(TakeTurn(s, FirstTurn(turns)), LaterTurns(turns), budget - 1)
  }

  predicate PassPossible(s: Tasks, turns: seq<Turn>, budget: nat)
    decreases budget
  {
    budget == 0 || s.queue == []
    || (s.queue[0] in s.index && TurnPossible(s, FirstTurn(turns))
        && PassPossible(TakeTurn(s, FirstTurn(turns)), LaterTurns(turns), budget - 1))
  }

  lemma {:induction false} PassKeeps(s: Tasks, turns: seq<Turn>, budget: nat)
    requires Invariant(s) && s.running == None && PassPossible(s, turns, budget)
    ensures var passed := Pass(s, turns, budget);
            && Invariant(passed.tasks) && passed.tasks.running == None
            && (passed.clearReadiness ==> passed.tasks.queue == [])
    decreases budget
  {
    if budget > 0 && s.queue != [] {
      TurnDelivers(s, FirstTurn(turns));
      PassKeeps(TakeTurn(s, FirstTurn(turns)), LaterTurns(turns), budget - 1);
    }
  }

  /** The turn that the k-th task polled in a pass gets. */
  function TurnAt(turns: seq<Turn>, k: nat): Turn {
    if k < |turns| then turns[k] else IDLE_TURN
  }

  /** The results of a pass: of the tasks polled, those whose turn ended with a value, in order. */
  function OutputsOf(polled: seq<Task>, turns: seq<Turn>): (outputs: seq<Output>)
    ensures forall k :: 0 <= k < |polled| && TurnAt(turns, k).outcome.Ready? ==>
                          Output(polled[k], TurnAt(turns, k).outcome.v) in outputs
  {
    if polled == [] then []
    else
      var rest := OutputsOf(polled[1..], LaterTurns(turns));
      assert forall k :: 0 < k < |polled| ==> polled[k] == polled[1..][k - 1]
                                              && TurnAt(turns, k) == TurnAt(LaterTurns(turns), k - 1);
      if FirstTurn(turns).outcome.Ready? then [Output(polled[0], FirstTurn(turns).outcome.v)] + rest else rest
  }

  predicate QuietTurn(turn: Turn) {
    turn.inFuture == [] && turn.inCallback == []
  }

  ghost predicate AllQuiet(turns: seq<Turn>) {
    forall k: nat :: QuietTurn(TurnAt(turns, k))
  }

  /** What one turn does: polls the head, keeps the others in front, and passes a result on. */
  lemma TurnPolls(s: Tasks, turn: Turn)
    requires Invariant(s) && s.running == None && s.queue != [] && TurnPossible(s, turn)
    ensures var after := TakeTurn(s, turn);
            && after.polled == s.polled + [s.queue[0]]
            && s.queue[1..] <= after.queue
            && after.delivered
               == s.delivered + (if turn.outcome.Ready? then [Output(s.queue[0], turn.outcome.v)] else [])
            && (QuietTurn(turn) ==> after.queue == s.queue[1..])
  {
    var t, i := s.queue[0], s.index[s.queue[0]];
    BeginKeeps(s);
    OpsGrow(BeginRun(s), turn.inFuture);
    OpsKeep(BeginRun(s), turn.inFuture);
    var polled := PerformAll(BeginRun(s), turn.inFuture);
    if turn.outcome == Pending {
      assert EndRun(polled, t, i, Pending).active == polled.active;
    } else {
      OverKeeps(polled, t, turn.outcome);
      var ended := EndRun(polled, t, i, turn.outcome);
      if turn.outcome.Ready? {
        var collected := ended.(active := ended.active - {i}, delivered := ended.delivered + [Output(t, turn.outcome.v)]);
        assert collected == ended.(active := ended.active - {i}, delivered := ended.finished);
        OpsGrow(collected, turn.inCallback);
      }
    }
  }

  function Least(a: nat, b: nat): nat {
    if a < b then a else b
  }

  /**
   The pass polled these tasks: until the queue was empty, which it then reported, or the
   budget was used up; first those that were queued, in order.
   */
  predicate Polls(s: Tasks, passed: Passed, polled: seq<Task>, budget: nat) {
    var n := Least(budget, |s.queue|);
    && passed.tasks.polled == s.polled + polled
    && n <= |polled| <= budget && polled[..n] == s.queue[..n]
    && (if passed.clearReadiness then |polled| < budget && passed.tasks.queue == [] else |polled| == budget)
  }

  /** It passed on the results of exactly the polled tasks whose turn ended with one, in order. */
  predicate Delivers(s: Tasks, passed: Passed, polled: seq<Task>, turns: seq<Turn>) {
    passed.tasks.delivered == s.delivered + OutputsOf(polled, turns)
  }

  /** It took a beginning off the queue and left the rest. */
  predicate LeavesRest(s: Tasks, passed: Passed, budget: nat) {
    var n := Least(budget, |s.queue|);
    passed.tasks.polled == s.polled + s.queue[..n] && passed.tasks.queue == s.queue[n..]
  }

  lemma PollsOneMore(s: Tasks, next: Tasks, passed: Passed, polled: seq<Task>, budget: nat)
    requires budget > 0 && s.queue != [] && Polls(next, passed, polled, budget - 1)
    requires next.polled == s.polled + [s.queue[0]] && s.queue[1..] <= next.queue
    ensures Polls(s, passed, [s.queue[0]] + polled, budget)
  {
    var n := Least(budget, |s.queue|);
    forall k | 0 <= k < n
      ensures ([s.queue[0]] + polled)[k] == s.queue[k]
    {
      if k > 0 {
        assert s.queue[k] == s.queue[1..][k - 1] == next.queue[k - 1] == polled[..n - 1][k - 1];
      }
    }
  }

  lemma DeliversOneMore(s: Tasks, next: Tasks, passed: Passed, polled: seq<Task>, turns: seq<Turn>)
    requires s.queue != [] && Delivers(next, passed, polled, LaterTurns(turns))
    requires next.delivered
             == s.delivered + (if FirstTurn(turns).outcome.Ready? then [Output(s.queue[0], FirstTurn(turns).outcome.v)] else [])
    ensures Delivers(s, passed, [s.queue[0]] + polled, turns)
  {
    assert ([s.queue[0]] + polled)[1..] == polled;
  }

  lemma LeavesOneMore(s: Tasks, next: Tasks, passed: Passed, budget: nat)
    requires budget > 0 && s.queue != [] && LeavesRest(next, passed, budget - 1)
    requires next.polled == s.polled + [s.queue[0]] && next.queue == s.queue[1..]
    ensures LeavesRest(s, passed, budget)
  {
    var m := Least(budget - 1, |s.queue| - 1);
    assert s.queue[1..][m..] == s.queue[m + 1..] && [s.queue[0]] + s.queue[1..][..m] == s.queue[..m + 1];
    assert s.polled + [s.queue[0]] + s.queue[1..][..m] == s.polled + ([s.queue[0]] + s.queue[1..][..m]);
  }

  /** What a pass does, whatever futures and callbacks do in their turns. */
  lemma {:induction false} PassPolls(s: Tasks, turns: seq<Turn>, budget: nat) returns (polled: seq<Task>)
    requires Invariant(s) && s.running == None && PassPossible(s, turns, budget)
    ensures Polls(s, Pass(s, turns, budget), polled, budget)
    ensures Delivers(s, Pass(s, turns, budget), polled, turns)
    decreases budget
  {
    polled := [];
    if budget > 0 && s.queue != [] {
      var next, passed := TakeTurn(s, FirstTurn(turns)), Pass(s, turns, budget);
      TurnDelivers(s, FirstTurn(turns));
      TurnPolls(s, FirstTurn(turns));
      var later := PassPolls(next, LaterTurns(turns), budget - 1);
      polled := [s.queue[0]] + later;
      PollsOneMore(s, next, passed, later, budget);
      DeliversOneMore(s, next, passed, later, turns);
    }
  }

  lemma QuietTurns(turns: seq<Turn>)
    requires AllQuiet(turns)
    ensures QuietTurn(FirstTurn(turns)) && AllQuiet(LaterTurns(turns))
  {
    assert TurnAt(turns, 0) == FirstTurn(turns);
    assert forall k: nat :: TurnAt(LaterTurns(turns), k) == TurnAt(turns, k + 1);
  }

  /** One quiet turn of a pass, and what is left for the rest of it. */
  lemma QuietStep(s: Tasks, turns: seq<Turn>, budget: nat) returns (next: Tasks, later: seq<Turn>)
    requires Invariant(s) && s.running == None && PassPossible(s, turns, budget)
    requires budget > 0 && s.queue != [] && AllQuiet(turns)
    ensures Invariant(next) && next.running == None && PassPossible(next, later, budget - 1) && AllQuiet(later)
    ensures forall passed :: LeavesRest(next, passed, budget - 1) ==> LeavesRest(s, passed, budget)
    ensures Pass(s, turns, budget) == Pass(next, later, budget - 1)
  {
    next, later := TakeTurn(s, FirstTurn(turns)), LaterTurns(turns);
    QuietTurns(turns);
    TurnDelivers(s, FirstTurn(turns));
    TurnPolls(s, FirstTurn(turns));
    forall passed | LeavesRest(next, passed, budget - 1)
      ensures LeavesRest(s, passed, budget)
    {
      LeavesOneMore(s, next, passed, budget);
    }
  }

  /** What it leaves when they schedule and wake nothing. */
  lemma {:induction false} QuietPass(s: Tasks, turns: seq<Turn>, budget: nat)
    requires Invariant(s) && s.running == None && PassPossible(s, turns, budget) && AllQuiet(turns)
    ensures LeavesRest(s, Pass(s, turns, budget), budget)
    decreases budget
  {
    if budget == 0 || s.queue == [] {
      LeavesAll(s, budget, budget > 0);
    } else {
      var next, later := QuietStep(s, turns, budget);
      QuietPass(next, later, budget - 1);
      assert LeavesRest(s, Pass(next, later, budget - 1), budget);
    }
  }

  lemma LeavesAll(s: Tasks, budget: nat, clearReadiness: bool)
    requires budget == 0 || s.queue == []
    ensures LeavesRest(s, Passed(s, clearReadiness), budget)
  {
    assert s.queue[..0] == [] && s.polled + [] == s.polled;
  }

  datatype Step = Outside(op: TaskOp) | Process(turns: seq<Turn>)

  predicate StepPossible(s: Tasks, step: Step) {
    match step
    case Outside(op) => Possible(s, op)
    case Process(turns) => PassPossible(s, turns, BUDGET)
  }

  function Take(s: Tasks, step: Step): Tasks {
    match step
    case Outside(op) => Perform(s, op)
    case Process(turns) => Pass(s, turns, BUDGET).tasks
  }

  predicate Legal(s: Tasks, steps: seq<Step>)
    decreases |steps|
  {
    steps == [] || (StepPossible(s, steps[0]) && Legal(Take(s, steps[0]), steps[1..]))
  }

  function Run(s: Tasks, steps: seq<Step>): Tasks
    decreases |steps|
  {
    if steps == [] then s else Run(Take(s, steps[0]), steps[1..])
  }

  lemma {:induction false} RunKeeps(s: Tasks, steps: seq<Step>)
    requires Invariant(s) && s.running == None && Legal(s, steps)
    ensures Invariant(Run(s, steps)) && Run(s, steps).running == None
    decreases |steps|
  {
    if steps != [] {
      match steps[0] {
        case Outside(op) => OpKeeps(s, op);
        case Process(turns) => PassKeeps(s, turns, BUDGET);
      }
      RunKeeps(Take(s, steps[0]), steps[1..]);
    }
  }

  /**
   In every run, the results passed to the callback are the results produced, in the order
   they were produced, one per task; and every task that can still finish has its own index.
   */
  lemma ResultsDeliveredOnce(steps: seq<Step>)
    requires Legal(EMPTY, steps)
    ensures var s := Run(EMPTY, steps);
            && s.delivered == s.finished
            && (forall k, l :: 0 <= k < l < |s.delivered| ==> s.delivered[k].t != s.delivered[l].t)
            && (forall k :: 0 <= k < |s.delivered| ==> s.delivered[k].t in s.spawned && s.delivered[k].t !in s.index)
            && SlabExact(s)
  {
    RunKeeps(EMPTY, steps);
  }

  // ---------------------------------------------------------------------------
  // The executor
  // ---------------------------------------------------------------------------

  class Executor {
    // `active_tasks`: `None` once the executor is gone.
    var active: map<Index, Active>
    var alive: bool
    var borrowed: bool
    var index: map<Task, Index>
    var queue: seq<Task>
    var running: Option<Task>
    var rewoken: bool
    var spawned: set<Task>
    var finished: seq<Output>
    var delivered: seq<Output>
    var polled: seq<Task>
    const ping: PingPair
    var notified: bool

    ghost function State(): Tasks
      reads this
    {
      Tasks(active, index, queue, running, rewoken, spawned, finished, delivered, polled)
    }

    /** A set flag has its ping still to be read. */
    ghost predicate Backed()
      reads this, ping
    {
      ping.handles > 0 && (notified ==> ping.counter > 0)
    }

    constructor ()
      ensures State() == EMPTY && alive && !borrowed && Backed() && fresh(ping)
    {
      var pair := new PingPair();
      ping, notified := pair, false;
      active, alive, borrowed, index, queue := map[], true, false, map[], [];
      running, rewoken, spawned, finished, delivered, polled := None, false, {}, [], [], [];
    }

    /** `RefCell::borrow_mut` panics on a second borrow. */
    method BorrowTasks()
      requires !borrowed
      modifies this`borrowed
      ensures borrowed
    {
      borrowed := true;
    }

    method ReleaseTasks()
      requires borrowed
      modifies this`borrowed
      ensures !borrowed
    {
      borrowed := false;
    }

    /** `Sender::send`, called on the executor's own thread. */
    method Send(t: Task)
      requires Backed()
      modifies this`queue, this`notified, ping`counter
      ensures Backed() && notified && queue == old(queue) + [t]
      ensures ping.counter == if old(notified) then old(ping.counter) else Write(old(ping.counter), INCREMENT_PING)
    {
      queue := queue + [t];
      if notified {
        return;
      }
      notified := true;
      ping.Ping();
    }

    /** `Scheduler::schedule`; `key` is what the slab answered to `vacant_key`. */
    method Schedule(t: Task, key: Index) returns (ok: bool)
      requires !borrowed && Backed() && Possible(State(), Spawn(t, key))
      modifies this, ping`counter
      ensures ok == old(alive) && alive == old(alive) && !borrowed && Backed()
      ensures ok ==> ping.counter > 0
      ensures !ok ==> notified == old(notified) && ping.counter == old(ping.counter)
      ensures State() == if ok then Perform(old(State()), Spawn(t, key)) else old(State())
    {
      BorrowTasks();
      if !alive {
        ReleaseTasks();
        return false;
      }
      active := active[key := Future(t)];
      index := index[t := key];
      spawned := spawned + {t};
      ReleaseTasks();
      Send(t);
      ok := true;
    }

    method Wake(t: Task)
      requires Backed()
      modifies this`queue, this`rewoken, this`notified, ping`counter
      ensures Backed() && (queue != old(queue) ==> ping.counter > 0)
      ensures State() == Perform(old(State()), WakeTask(t))
    {
      if t in index && t !in queue {
        if running == Some(t) {
          rewoken := true;
        } else {
          Send(t);
        }
      }
    }

    /** A future or callback at work: it must not find the tasks borrowed. */
    method UserCode(ops: seq<TaskOp>)
      requires alive && !borrowed && Backed() && AllPossible(State(), ops)
      modifies this, ping`counter
      ensures alive && !borrowed && Backed()
      ensures State() == PerformAll(old(State()), ops)
    {
      var rest := ops;
      while rest != []
        invariant alive && !borrowed && Backed() && AllPossible(State(), rest)
        invariant PerformAll(old(State()), ops) == PerformAll(State(), rest)
        decreases |rest|
      {
        match rest[0] {
          case Spawn(t, key) =>
            var _ := Schedule(t, key);
          case WakeTask(t) =>
            Wake(t);
        }
        rest := rest[1..];
      }
    }

    /**
     The guard's drop stores the result, or forgets a future that was dropped without one;
     once the executor has ended there is nothing to store it in.
     */
    method StoreOnDrop(i: Index, t: Task, value: Option<Value>)
      requires !borrowed && (alive ==> i in active)
      modifies this`active, this`borrowed
      ensures !borrowed
      ensures active == if !alive then old(active)
                        else if value.Some? then old(active)[i := Finished(t, value.value)]
                        else old(active) - {i}
    {
      BorrowTasks();
      if alive {
        match value {
          case Some(v) =>
            active := active[i := Finished(t, v)];
          case None =>
            active := active - {i};
        }
      }
      ReleaseTasks();
    }

    /** The end of a poll: requeue, or drop the guard. */
    method Finish(t: Task, i: Index, outcome: Outcome)
      requires alive && !borrowed && Backed() && i in active
      modifies this, ping`counter
      ensures alive && !borrowed && Backed()
      ensures State() == EndRun(old(State()), t, i, outcome)
    {
      match outcome {
        case Pending =>
          if rewoken {
            Send(t);
          }
        case Ready(v) =>
          StoreOnDrop(i, t, Some(v));
          index := index - {t};
          finished := finished + [Output(t, v)];
        case Abandoned =>
          StoreOnDrop(i, t, None);
          index := index - {t};
      }
      running, rewoken := None, false;
    }

    /** `Runnable::run` for the runnable at the head of the queue. */
    method RunHead(turn: Turn) returns (i: Index)
      requires alive && !borrowed && Backed() && Invariant(State()) && running == None && queue != []
      requires AllPossible(BeginRun(State()), turn.inFuture)
      modifies this, ping`counter
      ensures alive && !borrowed && Backed()
      ensures i == old(index[queue[0]]) && State() == AfterFuture(old(State()), turn)
    {
      ghost var before := State();
      var t := queue[0];
      i := index[t];
      BeginKeeps(before);
      OpsKeep(BeginRun(before), turn.inFuture);
      queue, running, rewoken, polled := queue[1..], Some(t), false, polled + [t];
      UserCode(turn.inFuture);
      Finish(t, i, turn.outcome);
    }

    /** Takes a result out and calls the callback with it, the borrow released first. */
    method CollectResult(i: Index, inCallback: seq<TaskOp>)
      requires alive && !borrowed && Backed()
      requires i in active && active[i].Finished? ==>
                 AllPossible(State().(active := active - {i},
                                      delivered := delivered + [Output(active[i].t, active[i].v)]), inCallback)
      modifies this, ping`counter
      ensures alive && !borrowed && Backed()
      ensures State() == Collect(old(State()), i, inCallback)
    {
      BorrowTasks();
      if i in active && active[i].Finished? {
        var result := active[i];
        active := active - {i};
        ReleaseTasks();
        delivered := delivered + [Output(result.t, result.v)];
        UserCode(inCallback);
      } else {
        ReleaseTasks();
      }
    }

    method OneTurn(turn: Turn)
      requires alive && !borrowed && Backed() && Invariant(State()) && running == None && queue != []
      requires TurnPossible(State(), turn)
      modifies this, ping`counter
      ensures alive && !borrowed && Backed() && Invariant(State()) && running == None
      ensures State() == TakeTurn(old(State()), turn)
    {
      TurnDelivers(State(), turn);
      var i := RunHead(turn);
      CollectResult(i, turn.inCallback);
    }

    /**
     The body of the callback of the ping source, whose `budget` is 1024: runs that many
     runnables at most. User code runs only while `active_tasks` is not borrowed.
     */
    method ProcessRunnables(turns: seq<Turn>, budget: nat) returns (clearReadiness: bool)
      requires alive && !borrowed && Backed() && Invariant(State()) && running == None
      requires PassPossible(State(), turns, budget)
      modifies this, ping`counter
      ensures alive && !borrowed && Backed() && Invariant(State()) && running == None
      ensures Passed(State(), clearReadiness) == Pass(old(State()), turns, budget)
    {
      clearReadiness := false;
      var later, left := turns, budget;
      ghost var whole := Pass(State(), turns, budget);
      while left > 0 && !clearReadiness
        invariant alive && !borrowed && Backed() && Invariant(State()) && running == None
        invariant clearReadiness ==> whole == Passed(State(), true)
        invariant !clearReadiness ==> PassPossible(State(), later, left) && whole == Pass(State(), later, left)
        decreases left, !clearReadiness
      {
        if queue == [] {
          clearReadiness := true;
        } else {
          OneTurn(FirstTurn(later));
          later, left := LaterTurns(later), left - 1;
        }
      }
    }

    /**
     `process_events`: an event under another token is not for the executor, which then pings
     itself, as it does when it may have left runnables. Work never waits without a ping.
     */
    method ProcessEvents(ours: bool, turns: seq<Turn>) returns (action: PingAction)
      requires alive && !borrowed && Backed() && Invariant(State()) && running == None
      requires PassPossible(State(), turns, BUDGET)
      requires queue != [] ==> ping.counter > 0
      modifies this, ping`counter
      ensures alive && !borrowed && Backed() && Invariant(State()) && running == None
      ensures queue != [] ==> ping.counter > 0
      ensures State() == if ours && Decode(old(ping.counter)).ping then Pass(old(State()), turns, BUDGET).tasks
                         else old(State())
      ensures var read, passed := Decode(old(ping.counter)), Pass(old(State()), turns, BUDGET);
              && action == (if ours && old(ping.counter) == 0 then ReadError
                            else if ours && read.ping && passed.clearReadiness && read.close then Remove
                            else Continue)
              && (ours && read.ping && !passed.clearReadiness ==> ping.counter > 0)
              && (!ours ==> ping.counter == Write(old(ping.counter), INCREMENT_PING))
              && (ours && !read.ping ==> ping.counter == if old(ping.counter) == 0 then 0 else INCREMENT_PING)
      ensures action == Remove ==> queue == []
    {
      var called, fromPing := ping.ProcessEvents(ours);
      if fromPing == ReadError {
        return ReadError;
      }
      var clearReadiness := false;
      if called {
        notified := false;
        clearReadiness := ProcessRunnables(turns, BUDGET);
        PassKeeps(old(State()), turns, BUDGET);
      }
      if clearReadiness {
        action := fromPing;
      } else {
        ping.Ping();
        action := Continue;
      }
    }

    /** Wakes every task that was in the slab. */
    method WakeAll(tasks: map<Index, Active>)
      requires running == None && Backed()
      requires forall t :: t in index ==> index[t] in tasks && tasks[index[t]] == Future(t)
      modifies this`queue, this`rewoken, this`notified, ping`counter
      ensures forall t :: t in index ==> t in queue
    {
      var keys := tasks.Keys;
      while keys != {}
        invariant keys <= tasks.Keys && Backed()
        invariant forall t :: t in index ==> t in queue || index[t] in keys
        decreases |keys|
      {
        var k :| k in keys;
        ghost var woken := queue;
        if tasks[k].Future? {
          Wake(tasks[k].t);
        }
        assert forall t :: t in woken ==> t in queue;
        keys := keys - {k};
      }
    }

    /**
     The executor's drop wakes every task and then drops every runnable, so that no future
     outlives it; from then on nothing can be scheduled.
     */
    method Destroy()
      requires alive && !borrowed && Backed() && Invariant(State()) && running == None
      modifies this, ping`counter
      ensures !alive && !borrowed && active == map[]
      ensures queue == [] && index == map[]
      ensures spawned == old(spawned) && delivered == old(delivered) && finished == old(finished)
    {
      BorrowTasks();
      var tasks := active;
      active, alive := map[], false;
      ReleaseTasks();
      WakeAll(tasks);
      while queue != []
        invariant forall t :: t in index ==> t in queue
        invariant !alive && !borrowed && active == map[]
        invariant spawned == old(spawned) && delivered == old(delivered) && finished == old(finished)
        decreases |queue|
      {
        // Dropping the runnable drops the future, whose guard finds no tasks to update.
        index := index - {queue[0]};
        queue := queue[1..];
      }
    }
  }
}
