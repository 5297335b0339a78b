/**
 Channels (src/sources/channel.rs): senders that enqueue and then ping, handles whose drop
 pings after the inner sender is gone, and a receiver that reads a bounded number of
 messages per wake-up.

 Sends and drops on any thread and the receiver's accesses are single steps that interleave
 freely. Several sends may be in progress on one handle; a handle is dropped only when none
 is (the borrow checker sees to that). The queue is the standard library's `mpsc`: first
 in first out, `Disconnected` once it is empty and no inner sender is left, and for a
 bound of zero a rendezvous in which a blocked send hands its message over.
 */
module Channels {
  import opened Wrappers
  import opened Eventfd

  type Message = nat
  type HandleId = nat
  type SendId = nat

  const MAX_EVENTS_CHECK: nat := 1024

  /** `channel()` or `sync_channel(bound)`. */
  datatype Kind = Async | Sync(bound: nat)

  /** The capacity of an asynchronous channel is `usize::MAX`, to which adding one saturates. */
  function MaxPerPass(kind: Kind): (max: nat)
    ensures 0 < max <= MAX_EVENTS_CHECK
    ensures kind.Sync? ==> max <= kind.bound + 1
    ensures max == MAX_EVENTS_CHECK || (kind.Sync? && max == kind.bound + 1)
  {
    match kind
    case Async => MAX_EVENTS_CHECK
    case Sync(bound) => if bound + 1 < MAX_EVENTS_CHECK then bound + 1 else MAX_EVENTS_CHECK
  }

  predicate HasRoom(kind: Kind, queued: nat) {
    kind.Sync? ==> queued < kind.bound
  }

  /**
   What is left to do of a send: ping and finish; ping and then send again in blocking
   mode; send again; or wait in the blocking send for room.
   */
  datatype SendPhase = PingThenDone | PingThenRetry(m: Message) | Retry(m: Message) | Blocked(m: Message)

  datatype Send = Send(handle: HandleId, phase: SendPhase)

  /**
   A live handle, one whose inner sender is dropped while its ping-on-drop is still to go,
   and (shared by all synchronous handles) the last reference to that ping-on-drop.
   */
  datatype HandlePhase = Live | InnerDropped | LastReference

  datatype Receiver =
    | Waiting
    | Receiving(left: nat)
    | Leaving(clearReadiness: bool)
    | Removed

  datatype Chan = Chan(
    kind: Kind,
    queue: seq<Message>,
    counter: nat,
    handles: map<HandleId, HandlePhase>,
    sends: map<SendId, Send>,
    receiver: Receiver,
    // The messages accepted by the queue and the ones passed to the callback, in order,
    // and how often the callback was told `Closed`.
    sent: seq<Message>,
    delivered: seq<Message>,
    closed: nat)

  datatype Step =
    | Clone(h: HandleId, copy: HandleId)
    | TrySend(h: HandleId, i: SendId, m: Message, blocking: bool)
    | SendPing(i: SendId)
    | EnterSend(i: SendId)
    | Unblock(i: SendId)
    | DropInner(h: HandleId)
    | DropPing(h: HandleId)
    | Start
    | StartSpurious
    | Receive
    | Rendezvous(i: SendId)
    | FindEmpty
    | FindDisconnected
    | Exhaust
    | Leave

  predicate AnyLive(s: Chan) {
    exists h :: h in s.handles && s.handles[h] == Live
  }

  predicate IsBlocked(s: Chan, i: SendId) {
    i in s.sends && s.sends[i].phase.Blocked?
  }

  predicate OwesPing(s: Chan, i: SendId) {
    i in s.sends && (s.sends[i].phase.PingThenDone? || s.sends[i].phase.PingThenRetry?)
  }

  predicate OffersRendezvous(s: Chan) {
    s.kind == Sync(0) && exists i :: i in s.sends && IsBlocked(s, i)
  }

  predicate Enabled(s: Chan, step: Step) {
    match step
    case Clone(h, copy) => h in s.handles && s.handles[h] == Live && copy !in s.handles
    case TrySend(h, i, _, blocking) =>
      h in s.handles && s.handles[h] == Live && i !in s.sends && (blocking ==> s.kind.Sync?)
    case SendPing(i) => OwesPing(s, i)
    case EnterSend(i) => i in s.sends && s.sends[i].phase.Retry?
    case Unblock(i) => IsBlocked(s, i) && HasRoom(s.kind, |s.queue|)
    case DropInner(h) =>
      h in s.handles && s.handles[h] == Live && forall i :: i in s.sends ==> s.sends[i].handle != h
    case DropPing(h) => h in s.handles && s.handles[h] != Live
    case Start => s.receiver == Waiting && s.counter > 0
    case StartSpurious => s.receiver == Waiting
    case Receive => s.receiver.Receiving? && s.receiver.left > 0 && s.queue != []
    case Rendezvous(i) =>
      s.receiver.Receiving? && s.receiver.left > 0 && s.kind == Sync(0) && IsBlocked(s, i)
    case FindEmpty =>
      s.receiver.Receiving? && s.receiver.left > 0 && s.queue == [] && !OffersRendezvous(s) && AnyLive(s)
    case FindDisconnected =>
      s.receiver.Receiving? && s.receiver.left > 0 && s.queue == [] && !AnyLive(s)
    case Exhaust => s.receiver == Receiving(0)
    case Leave => s.receiver.Leaving?
  }

  function Accept(s: Chan, m: Message): Chan {
    s.(queue := s.queue + [m], sent := s.sent + [m])
  }

  function Take(s: Chan, step: Step): Chan
    requires Enabled(s, step)
  {
    match step
    case Clone(h, copy) => s.(handles := s.handles[copy := Live])
    case TrySend(h, i, m, blocking) =>
      if HasRoom(s.kind, |s.queue|) then Accept(s, m).(sends := s.sends[i := Send(h, PingThenDone)])
      else s.(sends := s.sends[i := Send(h, if blocking then PingThenRetry(m) else PingThenDone)])
    case SendPing(i) =>
      var pinged := s.(counter := Write(s.counter, INCREMENT_PING));
      (match s.sends[i].phase
       case PingThenRetry(m) => pinged.(sends := s.sends[i := s.sends[i].(phase := Retry(m))])
       case _ => pinged.(sends := s.sends - {i}))
    case EnterSend(i) =>
      var m := s.sends[i].phase.m;
      if HasRoom(s.kind, |s.queue|) then Accept(s, m).(sends := s.sends[i := s.sends[i].(phase := PingThenDone)])
      else s.(sends := s.sends[i := s.sends[i].(phase := Blocked(m))])
    case Unblock(i) =>
      Accept(s, s.sends[i].phase.m).(sends := s.sends[i := s.sends[i].(phase := PingThenDone)])
    case DropInner(h) => s.(handles := s.handles[h := InnerDropped])
    case DropPing(h) =>
      // The handle's own ping, or for synchronous channels the shared one when nobody else refers to it.
      if s.kind.Sync? && s.handles[h] == InnerDropped && s.handles.Keys == {h} then
        s.(handles := s.handles[h := LastReference])
      else if s.kind.Sync? && s.handles[h] == InnerDropped then s.(handles := s.handles - {h})
      else s.(handles := s.handles - {h}, counter := Write(s.counter, INCREMENT_PING))
    case Start =>
      s.(counter := 0, receiver := if Decode(s.counter).ping then Receiving(MaxPerPass(s.kind)) else Leaving(false))
    case StartSpurious => s.(receiver := Leaving(false))
    case Receive =>
      s.(queue := s.queue[1..], delivered := s.delivered + [s.queue[0]], receiver := Receiving(s.receiver.left - 1))
    case Rendezvous(i) =>
      var m := s.sends[i].phase.m;
      s.(sent := s.sent + [m], delivered := s.delivered + [m], receiver := Receiving(s.receiver.left - 1),
         sends := s.sends[i := s.sends[i].(phase := PingThenDone)])
    case FindEmpty => s.(receiver := Leaving(true))
    case FindDisconnected => s.(receiver := Removed, closed := s.closed + 1)
    case Exhaust => s.(receiver := Leaving(false))
    case Leave =>
      s.(receiver := Waiting,
         counter := if s.receiver.clearReadiness then s.counter else Write(s.counter, INCREMENT_PING))
  }

  function Initial(kind: Kind): Chan {
    Chan(kind, [], 0, map[0 := Live], map[], Waiting, [], [], 0)
  }

  predicate Legal(s: Chan, steps: seq<Step>)
    decreases |steps|
  {
    steps == [] || (Enabled(s, steps[0]) && Legal(Take(s, steps[0]), steps[1..]))
  }

  function Run(s: Chan, steps: seq<Step>): Chan
    requires Legal(s, steps)
    decreases |steps|
  {
    if steps == [] then s else Run(Take(s, steps[0]), steps[1..])
  }

  // ---------------------------------------------------------------------------
  // Wake-ups
  // ---------------------------------------------------------------------------

  predicate SendOwesPing(s: Chan) {
    exists i :: i in s.sends && OwesPing(s, i)
  }

  predicate DropOwesPing(s: Chan) {
    exists h :: h in s.handles && s.handles[h] != Live
  }

  /** A send that waits for room that only the receiver can make. */
  predicate StuckSend(s: Chan) {
    (exists i :: i in s.sends && IsBlocked(s, i)) && !HasRoom(s.kind, |s.queue|)
  }

  /** Messages to take, or senders waiting for the receiver to take one. */
  predicate MessagesWait(s: Chan) {
    s.queue != [] || StuckSend(s)
  }

  /** All senders are gone and the callback has not been told. */
  predicate ClosingWaits(s: Chan) {
    !AnyLive(s) && s.closed == 0
  }

  /**
   The receiver sleeps on work that nobody is going to wake it for. For messages only a send
   may still owe the ping; a handle that is being dropped counts only for the closing, when
   no live one is left and so the last drop does ping.
   */
  predicate LostWakeup(s: Chan) {
    && s.receiver == Waiting && s.counter == 0
    && ((MessagesWait(s) && !SendOwesPing(s)) || (ClosingWaits(s) && !DropOwesPing(s)))
  }

  predicate Invariant(s: Chan) {
    && s.counter <= COUNTER_MAX && s.counter % 2 == 0
    && (s.queue != [] && s.receiver in {Waiting, Leaving(true)} ==> s.counter > 0 || SendOwesPing(s))
    && (s.handles == map[] && s.receiver in {Waiting, Leaving(true)} ==> s.counter > 0)
    && (forall i :: i in s.sends ==> s.sends[i].handle in s.handles && s.handles[s.sends[i].handle] == Live)
    && (s.receiver == Removed <==> s.closed == 1) && s.closed <= 1
    && (s.closed == 1 ==> !AnyLive(s) && s.queue == [])
    && (s.kind == Sync(0) ==> s.queue == [])
    && s.sent == s.delivered + s.queue
  }

  lemma KeepsOwing(s: Chan, after: Chan, i: SendId)
    requires forall j :: j in s.sends && j != i ==> j in after.sends && after.sends[j] == s.sends[j]
    ensures SendOwesPing(s) && !OwesPing(s, i) ==> SendOwesPing(after)
  {
  }

  lemma SendKeeps(s: Chan, step: Step)
    requires Invariant(s) && Enabled(s, step) && (step.TrySend? || step.SendPing? || step.EnterSend? || step.Unblock?)
    ensures Invariant(Take(s, step))
  {
    var after := Take(s, step);
    assert AnyLive(s) by {
      if !step.TrySend? {
        assert s.sends[step.i].handle in s.handles;
      }
    }
    KeepsOwing(s, after, step.i);
    if after.queue != s.queue {
      assert step.i in after.sends && OwesPing(after, step.i);
    }
  }

  lemma HandleKeeps(s: Chan, step: Step)
    requires Invariant(s) && Enabled(s, step) && (step.Clone? || step.DropInner? || step.DropPing?)
    ensures Invariant(Take(s, step))
  {
    var after := Take(s, step);
    assert after.sends == s.sends;
    assert SendOwesPing(after) <==> SendOwesPing(s);
    if AnyLive(after) {
      var h :| h in after.handles && after.handles[h] == Live;
      assert if step.Clone? && h == step.copy then s.handles[step.h] == Live else s.handles[h] == Live;
      assert AnyLive(s);
    }
    if step.DropPing? {
      assert forall k :: k in s.handles && k != step.h ==> k in after.handles;
    }
  }

  lemma ReceiverKeeps(s: Chan, step: Step)
    requires Invariant(s) && Enabled(s, step)
    requires step.Start? || step.StartSpurious? || step.Receive? || step.Rendezvous? || step.FindEmpty?
             || step.FindDisconnected? || step.Exhaust? || step.Leave?
    ensures Invariant(Take(s, step))
  {
  }

  lemma StepKeeps(s: Chan, step: Step)
    requires Invariant(s) && Enabled(s, step)
    ensures Invariant(Take(s, step))
  {
    if step.TrySend? || step.SendPing? || step.EnterSend? || step.Unblock? {
      SendKeeps(s, step);
    } else if step.Clone? || step.DropInner? || step.DropPing? {
      HandleKeeps(s, step);
    } else {
      ReceiverKeeps(s, step);
    }
  }

  lemma {:induction false} RunKeeps(s: Chan, steps: seq<Step>)
    requires Invariant(s) && Legal(s, steps)
    ensures Invariant(Run(s, steps)) && Run(s, steps).kind == s.kind
    decreases |steps|
  {
    if steps != [] {
      StepKeeps(s, steps[0]);
      RunKeeps(Take(s, steps[0]), steps[1..]);
    }
  }

  /** In every run of a channel that can hold a message, no wake-up is ever lost. */
  lemma NoLostWakeup(kind: Kind, steps: seq<Step>)
    requires kind != Sync(0) && Legal(Initial(kind), steps)
    ensures !LostWakeup(Run(Initial(kind), steps))
  {
    assert 0 in Initial(kind).handles;
    RunKeeps(Initial(kind), steps);
    var s := Run(Initial(kind), steps);
    if s.handles != map[] && !AnyLive(s) {
      var h :| h in s.handles;
      assert s.handles[h] != Live;
    }
  }

  lemma RunFirst(s: Chan, step: Step, rest: seq<Step>)
    requires Enabled(s, step) && Legal(Take(s, step), rest)
    ensures Legal(s, [step] + rest) && Run(s, [step] + rest) == Run(Take(s, step), rest)
  {
  }

  /**
   With a bound of zero, a blocking send pings before it blocks, and the receiver can spend
   that ping before the message is on offer.
   */
  lemma RendezvousLosesWakeup() returns (steps: seq<Step>)
    ensures Legal(Initial(Sync(0)), steps) && LostWakeup(Run(Initial(Sync(0)), steps))
  {
    var s0 := Initial(Sync(0));
    assert 0 in s0.handles && s0.handles[0] == Live;
    var s1 := Take(s0, TrySend(0, 0, 7, true));
    var s2 := Take(s1, SendPing(0));
    var s3 := Take(s2, Start);
    assert 0 in s3.handles && s3.handles[0] == Live;
    var s4 := Take(s3, FindEmpty);
    var s5 := Take(s4, Leave);
    var s6 := Take(s5, EnterSend(0));
    assert 0 in s6.sends && IsBlocked(s6, 0);
    assert LostWakeup(s6);
    RunFirst(s5, EnterSend(0), []);
    RunFirst(s4, Leave, [EnterSend(0)]);
    RunFirst(s3, FindEmpty, [Leave] + [EnterSend(0)]);
    RunFirst(s2, Start, [FindEmpty] + ([Leave] + [EnterSend(0)]));
    RunFirst(s1, SendPing(0), [Start] + ([FindEmpty] + ([Leave] + [EnterSend(0)])));
    RunFirst(s0, TrySend(0, 0, 7, true), [SendPing(0)] + ([Start] + ([FindEmpty] + ([Leave] + [EnterSend(0)]))));
    steps := [TrySend(0, 0, 7, true)] + ([SendPing(0)] + ([Start] + ([FindEmpty] + ([Leave] + [EnterSend(0)]))));
  }

  ghost predicate NeverLosesWakeups(kind: Kind) {
    forall steps :: Legal(Initial(kind), steps) ==> !LostWakeup(Run(Initial(kind), steps))
  }

  /** Wake-ups are reliable exactly for the channels that can hold a message. */
  lemma WakeupsReliableIff(kind: Kind)
    ensures NeverLosesWakeups(kind) <==> kind != Sync(0)
  {
    if kind == Sync(0) {
      var steps := RendezvousLosesWakeup();
    } else {
      forall steps | Legal(Initial(kind), steps)
        ensures !LostWakeup(Run(Initial(kind), steps))
      {
        NoLostWakeup(kind, steps);
      }
    }
  }

  /**
   Messages reach the callback in the order the queue accepted them, each exactly once,
   whatever is not delivered yet is still queued; `Closed` is reported at most once, after
   the last message and only when no sender is left.
   */
  lemma DeliveredInOrderOnce(kind: Kind, steps: seq<Step>)
    requires Legal(Initial(kind), steps)
    ensures var s := Run(Initial(kind), steps);
            && s.sent == s.delivered + s.queue
            && s.closed <= 1
            && (s.closed == 1 ==> s.delivered == s.sent && !AnyLive(s) && s.sends == map[] && s.receiver == Removed)
  {
    assert 0 in Initial(kind).handles;
    RunKeeps(Initial(kind), steps);
    var s := Run(Initial(kind), steps);
    assert forall i :: i in s.sends ==> s.sends[i].handle in s.handles && s.handles[s.sends[i].handle] == Live;
  }

  // ---------------------------------------------------------------------------
  // What sends come to
  // ---------------------------------------------------------------------------

  /** A send with room is accepted; without room it pings all the same, and a blocking one goes on with its message. */
  lemma SendTable(s: Chan, step: Step)
    requires Enabled(s, step) && (step.TrySend? || step.SendPing? || step.EnterSend? || step.Unblock?)
    ensures var after, room := Take(s, step), s.kind.Async? || |s.queue| < s.kind.bound;
            var accepts := room && !step.SendPing?;
            var m := if step.TrySend? then step.m else if accepts then s.sends[step.i].phase.m else 0;
            && after.queue == s.queue + (if accepts then [m] else [])
            && after.sent == s.sent + (if accepts then [m] else [])
            && after.delivered == s.delivered && after.handles == s.handles && after.receiver == s.receiver
            && (match step
                case TrySend(h, i, _, blocking) =>
                  after.counter == s.counter
                  && after.sends == s.sends[i := Send(h, if room || !blocking then PingThenDone else PingThenRetry(m))]
                case SendPing(i) =>
                  && after.counter == Write(s.counter, INCREMENT_PING)
                  && (s.sends[i].phase.PingThenDone? ==> after.sends == s.sends - {i})
                  && (s.sends[i].phase.PingThenRetry? ==>
                        after.sends == s.sends[i := Send(s.sends[i].handle, Retry(s.sends[i].phase.m))])
                case _ =>
                  after.counter == s.counter
                  && after.sends == s.sends[step.i := Send(s.sends[step.i].handle,
                                                           if room then PingThenDone else Blocked(s.sends[step.i].phase.m))])
  {
  }

  /** A clone is alive; a drop takes the inner sender first, then pings, for synchronous handles only the last one. */
  lemma HandleTable(s: Chan, step: Step)
    requires Enabled(s, step) && (step.Clone? || step.DropInner? || step.DropPing?)
    ensures var after := Take(s, step);
            && after.queue == s.queue && after.sent == s.sent && after.sends == s.sends && after.receiver == s.receiver
            && (match step
                case Clone(_, copy) => after.handles == s.handles[copy := Live] && after.counter == s.counter
                case DropInner(h) => after.handles == s.handles[h := InnerDropped] && after.counter == s.counter
                case DropPing(h) =>
                  if s.kind.Async? || s.handles[h] == LastReference then
                    after.handles == s.handles - {h} && after.counter == Write(s.counter, INCREMENT_PING)
                  else
                    && after.counter == s.counter
                    && after.handles == if s.handles.Keys == {h} then s.handles[h := LastReference] else s.handles - {h})
  {
  }

  /** The message that a send still has in hand. */
  function InHand(s: Chan, i: SendId): Option<Message> {
    if i !in s.sends || s.sends[i].phase.PingThenDone? then None else Some(s.sends[i].phase.m)
  }

  /** No message gets lost on the way: it stays in its sender's hand until it is accepted. */
  lemma MessageKept(s: Chan, step: Step, i: SendId)
    requires Enabled(s, step) && InHand(s, i).Some?
    ensures var after := Take(s, step);
            || InHand(after, i) == InHand(s, i)
            || (after.sent == s.sent + [InHand(s, i).value] && i in after.sends && after.sends[i].phase == PingThenDone)
  {
  }

  function Offered(steps: seq<Step>): seq<Message> {
    if steps == [] then []
    else (if steps[0].TrySend? then [steps[0].m] else []) + Offered(steps[1..])
  }

  /** An asynchronous channel accepts every message, in the order of the sends. */
  lemma AsyncSendsAll(steps: seq<Step>)
    requires Legal(Initial(Async), steps)
    ensures Run(Initial(Async), steps).sent == Offered(steps)
  {
    AsyncSendsFrom(Initial(Async), steps);
  }

  predicate AllAccepted(s: Chan) {
    forall i :: i in s.sends ==> s.sends[i].phase == PingThenDone
  }

  lemma AsyncStep(s: Chan, step: Step)
    requires s.kind == Async && AllAccepted(s) && Enabled(s, step)
    ensures var next := Take(s, step);
            && next.kind == Async && AllAccepted(next)
            && next.sent == s.sent + if step.TrySend? then [step.m] else []
  {
  }

  lemma {:induction false} AsyncSendsFrom(s: Chan, steps: seq<Step>)
    requires s.kind == Async && Legal(s, steps) && AllAccepted(s)
    ensures Run(s, steps).sent == s.sent + Offered(steps)
    decreases |steps|
  {
    if steps != [] {
      var next := Take(s, steps[0]);
      AsyncStep(s, steps[0]);
      AsyncSendsFrom(next, steps[1..]);
      assert Run(s, steps) == Run(next, steps[1..]);
      assert Offered(steps) == (if steps[0].TrySend? then [steps[0].m] else []) + Offered(steps[1..]);
    }
  }

  // ---------------------------------------------------------------------------
  // How long a backlog takes
  // ---------------------------------------------------------------------------

  lemma {:induction false} RunAppends(s: Chan, a: seq<Step>, b: seq<Step>)
    requires Legal(s, a) && Legal(Run(s, a), b)
    ensures Legal(s, a + b) && Run(s, a + b) == Run(Run(s, a), b)
    decreases |a|
  {
    if a == [] {
      assert a + b == b;
    } else {
      RunAppends(Take(s, a[0]), a[1..], b);
      assert (a + b)[1..] == a[1..] + b;
    }
  }

  lemma RunOne(s: Chan, step: Step)
    requires Enabled(s, step)
    ensures Legal(s, [step]) && Run(s, [step]) == Take(s, step)
  {
  }

  function Receives(n: nat): (steps: seq<Step>)
    ensures |steps| == n
  {
    if n == 0 then [] else [Receive] + Receives(n - 1)
  }

  /** The state after reading the first `n` messages. */
  function Received(s: Chan, n: nat): Chan
    requires s.receiver.Receiving? && n <= s.receiver.left && n <= |s.queue|
  {
    s.(queue := s.queue[n..], delivered := s.delivered + s.queue[..n], receiver := Receiving(s.receiver.left - n))
  }

  lemma ReceiveThenReceived(s: Chan, n: nat)
    requires s.receiver.Receiving? && 0 < n <= s.receiver.left && n <= |s.queue|
    ensures Received(Take(s, Receive), n - 1) == Received(s, n)
  {
  }

  lemma {:induction false} ReceivesRun(s: Chan, n: nat)
    requires s.receiver.Receiving? && n <= s.receiver.left && n <= |s.queue|
    ensures Legal(s, Receives(n)) && Run(s, Receives(n)) == Received(s, n)
    decreases n
  {
    if n > 0 {
      ReceivesRun(Take(s, Receive), n - 1);
      ReceiveThenReceived(s, n);
      assert Receives(n)[1..] == Receives(n - 1);
    } else {
      assert s.delivered + s.queue[..0] == s.delivered;
    }
  }

  /** The steps of one undisturbed call of `process_events` with `n` messages queued and a sender alive. */
  function Pass(max: nat, n: nat): seq<Step> {
    [Start] + Receives(if n < max then n else max) + [if n < max then FindEmpty else Exhaust] + [Leave]
  }

  function AfterPass(s: Chan): Chan {
    var n, max := |s.queue|, MaxPerPass(s.kind);
    var k := if n < max then n else max;
    s.(queue := s.queue[k..], delivered := s.delivered + s.queue[..k], counter := if n < max then 0 else INCREMENT_PING)
  }

  lemma PassRuns(s: Chan)
    requires s.receiver == Waiting && s.counter > 1 && AnyLive(s) && !OffersRendezvous(s)
    ensures var pass := Pass(MaxPerPass(s.kind), |s.queue|);
            Legal(s, pass) && Run(s, pass) == AfterPass(s)
  {
    var n, max := |s.queue|, MaxPerPass(s.kind);
    var k := if n < max then n else max;
    var last := [if n < max then FindEmpty else Exhaust];
    RunOne(s, Start);
    var started := Take(s, Start);
    ReceivesRun(started, k);
    RunAppends(s, [Start], Receives(k));
    var received := Run(s, [Start] + Receives(k));
    assert AnyLive(received) && !OffersRendezvous(received) by {
      assert received.handles == s.handles && received.sends == s.sends;
      assert forall i :: IsBlocked(received, i) ==> IsBlocked(s, i);
    }
    RunOne(received, last[0]);
    RunAppends(s, [Start] + Receives(k), last);
    RunOne(Take(received, last[0]), Leave);
    RunAppends(s, [Start] + Receives(k) + last, [Leave]);
  }

  /** `calls` passes in a row, the first with `n` messages queued. */
  function Passes(max: nat, n: nat, calls: nat): seq<Step> {
    if calls == 0 then [] else Pass(max, n) + Passes(max, if n < max then 0 else n - max, calls - 1)
  }

  function AfterBacklog(s: Chan): Chan {
    s.(queue := [], delivered := s.delivered + s.queue, counter := 0)
  }

  lemma BacklogSplits(s: Chan)
    ensures |s.queue| < MaxPerPass(s.kind) ==> AfterPass(s) == AfterBacklog(s)
    ensures |s.queue| >= MaxPerPass(s.kind) ==> AfterBacklog(AfterPass(s)) == AfterBacklog(s)
  {
  }

  lemma FewerPasses(n: nat, max: nat)
    requires 0 < max
    ensures n / max == if n < max then 0 else (n - max) / max + 1
  {
    if n >= max {
      var q := (n - max) / max;
      assert n == (q + 1) * max + (n - max) % max by {
        assert (q + 1) * max == q * max + max;
      }
      QuotientUnique(n, max, q + 1, (n - max) % max);
    }
  }

  lemma QuotientUnique(n: nat, max: nat, q: nat, r: nat)
    requires 0 < max && n == q * max + r && r < max
    ensures n / max == q
  {
    var d := n / max - q;
    assert n == (n / max) * max + n % max;
    assert d * max == r - n % max;
    assert d >= 1 ==> d * max >= max;
    assert d <= -1 ==> d * max <= 0 - max;
  }

  /** One pass in front of those that drain what it leaves. */
  lemma PassInFront(s: Chan, rest: seq<Step>)
    requires s.receiver == Waiting && s.counter > 1 && AnyLive(s) && !OffersRendezvous(s)
    requires Legal(AfterPass(s), rest)
    ensures var steps := Pass(MaxPerPass(s.kind), |s.queue|) + rest;
            Legal(s, steps) && Run(s, steps) == Run(AfterPass(s), rest)
  {
    PassRuns(s);
    RunAppends(s, Pass(MaxPerPass(s.kind), |s.queue|), rest);
  }

  lemma PassKeepsQuiet(s: Chan)
    requires AnyLive(s) && !OffersRendezvous(s)
    ensures AnyLive(AfterPass(s)) && !OffersRendezvous(AfterPass(s))
  {
    var after := AfterPass(s);
    assert after.handles == s.handles && after.sends == s.sends;
    assert forall i :: IsBlocked(after, i) ==> IsBlocked(s, i);
  }

  /**
   With a sender alive and no sends under way, a backlog of n messages is delivered, in
   order, in floor(n / max) + 1 passes, after which the source is not readable any more.
   */
  lemma {:induction false} BacklogDrains(s: Chan, calls: nat)
    requires s.receiver == Waiting && s.counter > 1 && AnyLive(s) && !OffersRendezvous(s)
    requires calls == |s.queue| / MaxPerPass(s.kind) + 1
    ensures var passes := Passes(MaxPerPass(s.kind), |s.queue|, calls);
            Legal(s, passes) && Run(s, passes) == AfterBacklog(s)
    decreases calls
  {
    var n, max := |s.queue|, MaxPerPass(s.kind);
    FewerPasses(n, max);
    BacklogSplits(s);
    if n < max {
      assert Passes(max, 0, calls - 1) == [];
      PassInFront(s, []);
    } else {
      PassKeepsQuiet(s);
      BacklogDrains(AfterPass(s), calls - 1);
      PassInFront(s, Passes(max, n - max, calls - 1));
    }
  }

  // ---------------------------------------------------------------------------
  // No run drains it otherwise
  // ---------------------------------------------------------------------------

  predicate ReceiverStep(step: Step) {
    step.Start? || step.Receive? || step.Rendezvous? || step.FindEmpty? || step.FindDisconnected?
    || step.Exhaust? || step.Leave?
  }

  predicate AllReceiver(steps: seq<Step>) {
    forall k :: 0 <= k < |steps| ==> ReceiverStep(steps[k])
  }

  /** Undisturbed, the receiver has no choice. */
  lemma OnlyOneStep(s: Chan, a: Step, b: Step)
    requires !OffersRendezvous(s) && ReceiverStep(a) && ReceiverStep(b) && Enabled(s, a) && Enabled(s, b)
    ensures a == b && !OffersRendezvous(Take(s, a))
  {
    var after := Take(s, a);
    assert after.sends == s.sends && after.kind == s.kind;
    assert forall i :: IsBlocked(after, i) ==> IsBlocked(s, i);
  }

  /** So its runs are the beginnings of one that it cannot continue, and each can go on along that one. */
  lemma {:induction false} RunsAgree(s: Chan, steps: seq<Step>, whole: seq<Step>)
    requires !OffersRendezvous(s) && Legal(s, steps) && Legal(s, whole) && AllReceiver(steps) && AllReceiver(whole)
    requires forall step :: ReceiverStep(step) ==> !Enabled(Run(s, whole), step)
    ensures steps <= whole
    ensures |steps| < |whole| ==> Enabled(Run(s, steps), whole[|steps|])
    decreases |steps|
  {
    if steps != [] {
      assert ReceiverStep(steps[0]);
      assert whole != [];
      OnlyOneStep(s, steps[0], whole[0]);
      RunsAgree(Take(s, steps[0]), steps[1..], whole[1..]);
      assert steps == [steps[0]] + steps[1..] && whole == [whole[0]] + whole[1..];
    }
  }

  lemma {:induction false} ReceivesAre(n: nat)
    ensures forall k :: 0 <= k < n ==> Receives(n)[k] == Receive
  {
    if n > 0 {
      ReceivesAre(n - 1);
    }
  }

  lemma {:induction false} PassesAreReceiver(max: nat, n: nat, calls: nat)
    ensures AllReceiver(Passes(max, n, calls))
    decreases calls
  {
    if calls > 0 {
      ReceivesAre(if n < max then n else max);
      PassesAreReceiver(max, if n < max then 0 else n - max, calls - 1);
    }
  }

  lemma DrainsAlong(s: Chan, steps: seq<Step>, whole: seq<Step>)
    requires s.receiver == Waiting && !OffersRendezvous(s)
    requires Legal(s, whole) && AllReceiver(whole) && Run(s, whole) == AfterBacklog(s)
    requires Legal(s, steps) && AllReceiver(steps)
    ensures steps <= whole
    ensures (forall step :: ReceiverStep(step) ==> !Enabled(Run(s, steps), step)) <==> Run(s, steps) == AfterBacklog(s)
  {
    var drained := AfterBacklog(s);
    assert forall step :: ReceiverStep(step) ==> !Enabled(drained, step);
    RunsAgree(s, steps, whole);
    if |steps| < |whole| {
      assert ReceiverStep(whole[|steps|]) && Enabled(Run(s, steps), whole[|steps|]);
    } else {
      assert steps == whole;
    }
  }

  /**
   Whatever the receiver does undisturbed is a beginning of those passes; when it can do no
   more, and only then, the backlog is delivered and the counter is zero.
   */
  lemma BacklogDrainsSurely(s: Chan, steps: seq<Step>)
    requires s.receiver == Waiting && s.counter > 1 && AnyLive(s) && !OffersRendezvous(s)
    requires Legal(s, steps) && AllReceiver(steps)
    ensures steps <= Passes(MaxPerPass(s.kind), |s.queue|, |s.queue| / MaxPerPass(s.kind) + 1)
    ensures (forall step :: ReceiverStep(step) ==> !Enabled(Run(s, steps), step)) <==> Run(s, steps) == AfterBacklog(s)
  {
    var calls := |s.queue| / MaxPerPass(s.kind) + 1;
    BacklogDrains(s, calls);
    PassesAreReceiver(MaxPerPass(s.kind), |s.queue|, calls);
    DrainsAlong(s, steps, Passes(MaxPerPass(s.kind), |s.queue|, calls));
  }

  // ---------------------------------------------------------------------------
  // The receiving end
  // ---------------------------------------------------------------------------

  datatype Event = Msg(m: Message) | Closed

  function Messages(queue: seq<Message>): (events: seq<Event>)
    ensures |events| == |queue|
    ensures forall k :: 0 <= k < |queue| ==> events[k] == Msg(queue[k])
  {
    seq(|queue|, k requires 0 <= k < |queue| => Msg(queue[k]))
  }

  /** The channel as an event source, with the queue and sender count that it shares with its senders. */
  class Channel {
    const kind: Kind
    const ping: PingPair
    var queue: seq<Message>
    var liveSenders: nat

    constructor (kind: Kind)
      ensures this.kind == kind && queue == [] && liveSenders == 1
      ensures fresh(ping) && ping.State() == Fd(0, 1)
    {
      var pair := new PingPair();
      this.kind, ping, queue, liveSenders := kind, pair, [], 1;
    }

    /**
     One call of `process_events` while nobody else acts; `events` is what the callback gets.
     It reads a prefix of the queue no longer than a pass allows. When that leaves the queue
     empty with room to spare it reports the closing or goes to sleep; otherwise it pings
     itself, as it does after an event that was not for it.
     */
    method ProcessEvents(ours: bool) returns (events: seq<Event>, action: PingAction)
      requires ping.handles > 0
      modifies this`queue, ping`counter
      ensures var n, max := |old(queue)|, MaxPerPass(kind);
              var read := Decode(old(ping.counter));
              if ours && old(ping.counter) == 0 then
                action == ReadError && events == [] && queue == old(queue) && ping.counter == 0
              else if !ours || !read.ping then
                && action == Continue && events == [] && queue == old(queue)
                && ping.counter == Write(if ours then 0 else old(ping.counter), INCREMENT_PING)
              else if n >= max then
                && action == Continue && events == Messages(old(queue)[..max]) && queue == old(queue)[max..]
                && ping.counter == INCREMENT_PING
              else
                && queue == [] && ping.counter == 0
                && events == Messages(old(queue)) + (if liveSenders == 0 then [Closed] else [])
                && action == if liveSenders == 0 || read.close then Remove else Continue
    {
      var called, fromPing := ping.ProcessEvents(ours);
      events := [];
      if fromPing == ReadError {
        return events, ReadError;
      }
      var clearReadiness, disconnected := false, false;
      if called {
        var max := MaxPerPass(kind);
        ghost var before := queue;
        var i := 0;
        while i < max
          invariant i <= max && i <= |before|
          invariant queue == before[i..] && events == Messages(before[..i])
          invariant ping.counter == 0 && !clearReadiness && !disconnected
          decreases max - i
        {
          if queue == [] {
            if liveSenders > 0 {
              clearReadiness := true;
            } else {
              events := events + [Closed];
              disconnected := true;
            }
            break;
          }
          assert before[..i + 1] == before[..i] + [before[i]];
          events := events + [Msg(queue[0])];
          queue := queue[1..];
          i := i + 1;
        }
        assert i == |before| ==> before[..i] == before;
      }
      if disconnected {
        action := Remove;
      } else if clearReadiness {
        action := fromPing;
      } else {
        ping.Ping();
        action := Continue;
      }
    }
  }
}
