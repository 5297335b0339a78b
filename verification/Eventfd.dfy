/**
 The eventfd behind a ping source (src/sources/ping/eventfd.rs): one 64-bit counter that
 carries both "pinged" and "closed".
 */
module Eventfd {
  import opened Wrappers

  const INCREMENT_PING: nat := 2
  const INCREMENT_CLOSE: nat := 1

  /** The largest value an eventfd counter takes. */
  const COUNTER_MAX: nat := 0xFFFF_FFFF_FFFF_FFFE

  /** A write that would exceed the maximum fails with `EAGAIN`, which `send_ping` ignores. */
  function Write(counter: nat, count: nat): nat {
    if counter + count <= COUNTER_MAX then counter + count else counter
  }

  datatype Decoded = Decoded(ping: bool, close: bool)

  /** The two bit tests on the value read: everything but the lowest bit, and the lowest bit. */
  function Decode(counter: nat): Decoded {
    Decoded(counter / 2 != 0, counter % 2 != 0)
  }

  /** On 64-bit words the masks of the program are that quotient and that remainder. */
  lemma MasksAreDigits(c: bv64)
    ensures c & 1 != 0 <==> c % 2 != 0
    ensures c & (0xFFFF_FFFF_FFFF_FFFF - 1) != 0 <==> c / 2 != 0
  {
  }

  // ---------------------------------------------------------------------------
  // Runs of pings, clones, drops and drains
  // ---------------------------------------------------------------------------

  /** The counter and the number of live `Ping` handles; the last one dropped writes the close increment. */
  datatype Fd = Fd(counter: nat, handles: nat)

  datatype FdOp = Ping | Clone | Drop | Drain

  predicate Enabled(s: Fd, op: FdOp) {
    op == Drain || s.handles > 0
  }

  function Apply(s: Fd, op: FdOp): Fd {
    match op
    case Ping => s.(counter := Write(s.counter, INCREMENT_PING))
    case Clone => s.(handles := s.handles + 1)
    case Drop =>
      if s.handles <= 1 then Fd(Write(s.counter, INCREMENT_CLOSE), 0) else s.(handles := s.handles - 1)
    case Drain => s.(counter := 0)
  }

  function Run(s: Fd, ops: seq<FdOp>): Fd {
    if ops == [] then s else Apply(Run(s, ops[..|ops| - 1]), ops[|ops| - 1])
  }

  predicate Legal(s: Fd, ops: seq<FdOp>) {
    ops == []
    || (Legal(s, ops[..|ops| - 1]) && Enabled(Run(s, ops[..|ops| - 1]), ops[|ops| - 1]))
  }

  /** The number of pings since the last drain. */
  function PingsSinceDrain(ops: seq<FdOp>): nat {
    if ops == [] then 0
    else
      match ops[|ops| - 1]
      case Drain => 0
      case Ping => PingsSinceDrain(ops[..|ops| - 1]) + 1
      case _ => PingsSinceDrain(ops[..|ops| - 1])
  }

  /** The handles there should be: the first ones and one for each clone, less one for each drop. */
  function LiveHandles(handles: nat, ops: seq<FdOp>): int {
    if ops == [] then handles
    else
      LiveHandles(handles, ops[..|ops| - 1])
      + match ops[|ops| - 1]
        case Clone => 1
        case Drop => -1
        case _ => 0
  }

  /** Whether the last handle was dropped since the last drain. */
  predicate ClosedSinceDrain(handles: nat, ops: seq<FdOp>) {
    if ops == [] then false
    else
      match ops[|ops| - 1]
      case Drain => false
      case Drop => LiveHandles(handles, ops[..|ops| - 1]) == 1 || ClosedSinceDrain(handles, ops[..|ops| - 1])
      case _ => ClosedSinceDrain(handles, ops[..|ops| - 1])
  }

  /** What the counter is worth after `pings` pings and possibly a close. */
  function CounterFor(pings: nat, closed: bool): nat {
    var pinged := if 2 * pings <= COUNTER_MAX then 2 * pings else COUNTER_MAX;
    if closed && pinged < COUNTER_MAX then pinged + 1 else pinged
  }

  lemma {:induction false} CounterOf(handles: nat, ops: seq<FdOp>)
    requires Legal(Fd(0, handles), ops)
    ensures var s := Run(Fd(0, handles), ops);
            var closed := ClosedSinceDrain(handles, ops);
            && s.counter == CounterFor(PingsSinceDrain(ops), closed)
            && s.handles == LiveHandles(handles, ops) && (closed ==> s.handles == 0)
  {
    if ops != [] {
      CounterOf(handles, ops[..|ops| - 1]);
    }
  }

  /**
   After any interleaving, the value in the counter decodes as "pinged" exactly when there
   was a ping since the last drain, even when writes hit the cap, and as "closed" exactly
   when the last handle was dropped since, provided fewer than 2^63 - 1 pings came before
   the drop; with as many the close write itself fails.
   */
  lemma DecoderFaithful(handles: nat, ops: seq<FdOp>)
    requires Legal(Fd(0, handles), ops)
    ensures var read := Decode(Run(Fd(0, handles), ops).counter);
            && (read.ping <==> PingsSinceDrain(ops) > 0)
            && (read.close <==> ClosedSinceDrain(handles, ops)
                                && PingsSinceDrain(ops) < 0x7FFF_FFFF_FFFF_FFFF)
  {
    CounterOf(handles, ops);
  }

  /** The source has something to read exactly when it was pinged or closed: the wake-up itself is never lost. */
  lemma ReadableIff(handles: nat, ops: seq<FdOp>)
    requires Legal(Fd(0, handles), ops)
    ensures Run(Fd(0, handles), ops).counter > 0
            <==> PingsSinceDrain(ops) > 0 || ClosedSinceDrain(handles, ops)
  {
    CounterOf(handles, ops);
  }

  /** The encoding would not survive a second close: two close increments read as a ping. */
  lemma SecondCloseReadsAsPing()
    ensures Decode(Write(Write(0, INCREMENT_CLOSE), INCREMENT_CLOSE)) == Decoded(true, false)
  {
  }

  // ---------------------------------------------------------------------------
  // The source and its handles
  // ---------------------------------------------------------------------------

  datatype PingAction = Continue | Remove | ReadError

  class PingPair {
    var counter: nat
    var handles: nat

    ghost function State(): Fd
      reads this
    {
      Fd(counter, handles)
    }

    /** `make_ping`: one handle, nothing to read. */
    constructor ()
      ensures State() == Fd(0, 1)
    {
      counter, handles := 0, 1;
    }

    method SendPing(count: nat)
      requires count > 0
      modifies this`counter
      ensures counter == Write(old(counter), count)
    {
      if counter + count <= COUNTER_MAX {
        counter := counter + count;
      }
    }

    method Ping()
      requires handles > 0
      modifies this`counter
      ensures State() == Apply(old(State()), FdOp.Ping)
    {
      SendPing(INCREMENT_PING);
    }

    method Clone()
      requires handles > 0
      modifies this`handles
      ensures State() == Apply(old(State()), FdOp.Clone)
    {
      handles := handles + 1;
    }

    method Drop()
      requires handles > 0
      modifies this
      ensures State() == Apply(old(State()), FdOp.Drop)
    {
      handles := handles - 1;
      if handles == 0 {
        SendPing(INCREMENT_CLOSE);
      }
    }

    /**
     `PingSource::process_events`. An event under another token is skipped without a read;
     reading a zero counter is an error. `called` tells whether the callback was called.
     */
    method ProcessEvents(ours: bool) returns (called: bool, action: PingAction)
      modifies this`counter
      ensures !ours ==> counter == old(counter) && !called && action == Continue
      ensures ours && old(counter) == 0 ==> counter == 0 && !called && action == ReadError
      ensures ours && old(counter) > 0 ==>
                && State() == Apply(old(State()), Drain)
                && Decoded(called, action == Remove) == Decode(old(counter))
                && action != ReadError
    {
      if !ours {
        return false, Continue;
      }
      if counter == 0 {
        return false, ReadError;
      }
      var value := counter;
      counter := 0;
      called := value / 2 != 0;
      action := if value % 2 != 0 then Remove else Continue;
    }
  }
}
