/**
 The slots that own the event sources (src/list.rs). A slot emptied by a removal is
 filled again under the next version of its token.
 */
module SourceLists {
  import opened Wrappers
  import opened Tokens

  /** The identity of a dispatcher: two handles on one `Rc` have the same one. */
  type DispatcherId = nat

  datatype SourceEntry = SourceEntry(token: TokenInner, source: Option<DispatcherId>)

  /** Every slot carries its own index, some version, and no sub-id. */
  predicate WellFormedSlots(w: Width, slots: seq<SourceEntry>) {
    forall i :: 0 <= i < |slots| ==>
                  slots[i].token.id == i && slots[i].token.version < Versions(w) && slots[i].token.subId == 0
  }

  /** The first slot without a source, or the number of slots. */
  function FirstVacant(slots: seq<SourceEntry>): (i: nat)
    ensures i <= |slots|
    ensures i < |slots| ==> slots[i].source.None?
    ensures forall j :: 0 <= j < i ==> slots[j].source.Some?
  {
    if slots == [] then 0
    else if slots[0].source.None? then 0
    else
      var i := FirstVacant(slots[1..]);
      assert forall j :: 0 < j < i + 1 ==> slots[j] == slots[1..][j - 1];
      i + 1
  }

  /** The slots after reserving one for a new source; the reserved slot is the one that was first vacant. */
  function WithVacantEntry(w: Width, slots: seq<SourceEntry>): (after: seq<SourceEntry>)
    ensures |after| == if FirstVacant(slots) < |slots| then |slots| else |slots| + 1
    ensures after[FirstVacant(slots)].source.None?
    ensures FirstVacant(slots) < |slots| ==>
              after[FirstVacant(slots)].token == IncrementVersion(w, slots[FirstVacant(slots)].token)
    ensures forall j :: 0 <= j < |slots| && j != FirstVacant(slots) ==> after[j] == slots[j]
    ensures WellFormedSlots(w, slots) ==> WellFormedSlots(w, after)
  {
    var id := FirstVacant(slots);
    if id < |slots| then
      slots[id := SourceEntry(IncrementVersion(w, slots[id].token), None)]
    else
      slots + [SourceEntry(TokenInner(|slots|, 0, 0), None)]
  }

  /** `None` is `Err(InvalidToken)`. */
  function Get(slots: seq<SourceEntry>, token: TokenInner): (entry: Option<SourceEntry>)
    ensures entry.Some? <==> token.id < |slots| && SameSource(slots[token.id].token, token)
    ensures entry.Some? ==> entry.value == slots[token.id]
  {
    if token.id < |slots| && SameSource(slots[token.id].token, token) then Some(slots[token.id]) else None
  }

  /** The dispatcher a token leads to, if its slot is of that version and not empty. */
  function Lookup(slots: seq<SourceEntry>, token: TokenInner): Option<DispatcherId> {
    match Get(slots, token)
    case None => None
    case Some(entry) => entry.source
  }

  function SetSource(slots: seq<SourceEntry>, i: nat, source: Option<DispatcherId>): (after: seq<SourceEntry>)
    requires i < |slots|
    ensures |after| == |slots|
    ensures after[i] == SourceEntry(slots[i].token, source)
    ensures forall j :: 0 <= j < |slots| && j != i ==> after[j] == slots[j]
  {
    slots[i := slots[i].(source := source)]
  }

  class SourceList {
    const w: Width
    var sources: seq<SourceEntry>

    constructor (w: Width)
      ensures this.w == w && sources == []
    {
      this.w := w;
      sources := [];
    }

    /** Running out of 32-bit ids is the one panic. */
    method VacantEntry() returns (id: nat)
      requires FirstVacant(sources) < |sources| || |sources| < U32_COUNT
      modifies this
      ensures id == FirstVacant(old(sources)) && sources == WithVacantEntry(w, old(sources))
    {
      id := 0;
      while id < |sources| && sources[id].source.Some?
        invariant id <= |sources|
        invariant forall j :: 0 <= j < id ==> sources[j].source.Some?
      {
        id := id + 1;
      }
      if id < |sources| {
        sources := sources[id := SourceEntry(IncrementVersion(w, sources[id].token), sources[id].source)];
      } else {
        sources := sources + [SourceEntry(TokenInner(|sources|, 0, 0), None)];
      }
    }

    method Find(token: TokenInner) returns (entry: Option<SourceEntry>)
      ensures entry == Get(sources, token)
    {
      if token.id < |sources| && SameSource(sources[token.id].token, token) {
        entry := Some(sources[token.id]);
      } else {
        entry := None;
      }
    }

    /** Writing the `source` field through the entry that `get_mut` or `vacant_entry` returned. */
    method Put(i: nat, source: Option<DispatcherId>)
      requires i < |sources|
      modifies this
      ensures sources == SetSource(old(sources), i, source)
    {
      sources := sources[i := sources[i].(source := source)];
    }
  }

  // ---------------------------------------------------------------------------
  // Runs of insertions and removals
  // ---------------------------------------------------------------------------

  datatype ListOp =
    | Fill(d: DispatcherId)
    | Vacate(token: TokenInner)

  /** An insertion fills the first vacant slot, a removal empties the slot of a token that is accepted. */
  function Apply(w: Width, slots: seq<SourceEntry>, op: ListOp): (after: seq<SourceEntry>)
    ensures |after| >= |slots|
    ensures op.Fill? ==> FirstVacant(slots) < |after| && after[FirstVacant(slots)].source == Some(op.d)
    ensures op.Vacate? && Get(slots, op.token).Some? ==>
              after[op.token.id] == SourceEntry(slots[op.token.id].token, None)
    ensures forall j :: 0 <= j < |slots| && j != (if op.Fill? then FirstVacant(slots) else op.token.id) ==>
                          after[j] == slots[j]
  {
    match op
    case Fill(d) => SetSource(WithVacantEntry(w, slots), FirstVacant(slots), Some(d))
    case Vacate(token) =>
      if Get(slots, token).Some? then SetSource(slots, token.id, None) else slots
  }

  function Run(w: Width, slots: seq<SourceEntry>, ops: seq<ListOp>): seq<SourceEntry>
    decreases |ops|
  {
    if ops == [] then slots else Run(w, Apply(w, slots, ops[0]), ops[1..])
  }

  /** How often a run fills the slot `i`, which must exist already. */
  function Reuses(w: Width, slots: seq<SourceEntry>, ops: seq<ListOp>, i: nat): nat
    decreases |ops|
  {
    if ops == [] then 0
    else
      (if ops[0].Fill? && FirstVacant(slots) == i then 1 else 0) + Reuses(w, Apply(w, slots, ops[0]), ops[1..], i)
  }

  lemma ApplyVersion(w: Width, slots: seq<SourceEntry>, op: ListOp, i: nat)
    requires WellFormedSlots(w, slots) && i < |slots|
    ensures var next := Apply(w, slots, op);
            && WellFormedSlots(w, next) && i < |next|
            && next[i].token == if op.Fill? && FirstVacant(slots) == i then IncrementVersion(w, slots[i].token)
                                else slots[i].token
  {
  }

  lemma {:induction false} RunVersion(w: Width, slots: seq<SourceEntry>, ops: seq<ListOp>, i: nat)
    requires WellFormedSlots(w, slots) && i < |slots|
    ensures var after := Run(w, slots, ops);
            WellFormedSlots(w, after) && i < |after|
            && after[i].token == IncrementedBy(w, slots[i].token, Reuses(w, slots, ops, i))
    decreases |ops|
  {
    if ops != [] {
      var next := Apply(w, slots, ops[0]);
      ApplyVersion(w, slots, ops[0], i);
      RunVersion(w, next, ops[1..], i);
      var n, reused := Reuses(w, next, ops[1..], i), ops[0].Fill? && FirstVacant(slots) == i;
      assert Run(w, slots, ops) == Run(w, next, ops[1..]);
      assert Reuses(w, slots, ops, i) == if reused then n + 1 else n;
      if reused {
        IncrementedLater(w, slots[i].token, n);
      }
    }
  }

  lemma {:induction false} IncrementedLater(w: Width, t: TokenInner, n: nat)
    ensures IncrementedBy(w, IncrementVersion(w, t), n) == IncrementedBy(w, t, n + 1)
  {
    if n > 0 {
      IncrementedLater(w, t, n - 1);
    }
  }

  /**
   Over any run, a token is accepted exactly when its slot has been reused a multiple of
   2^BITS_VERSION times since: a removed source's token turns invalid at the next reuse of
   its slot and stays invalid for the following 2^BITS_VERSION - 1 reuses.
   */
  lemma StaleTokensRejected(w: Width, slots: seq<SourceEntry>, ops: seq<ListOp>, token: TokenInner)
    requires WellFormedSlots(w, slots) && |slots| <= U32_COUNT
    requires Get(slots, token).Some?
    ensures Get(Run(w, slots, ops), token).Some?
            <==> Reuses(w, slots, ops, token.id) % Versions(w) == 0
  {
    RunVersion(w, slots, ops, token.id);
    VersionCycle(w, slots[token.id].token, Reuses(w, slots, ops, token.id));
  }

  /** At no point of a run do two slots accept the same token, whatever its sub-id. */
  lemma TokensOfSlotsDistinct(w: Width, slots: seq<SourceEntry>, ops: seq<ListOp>, i: nat, j: nat)
    requires WellFormedSlots(w, slots)
    requires i < |Run(w, slots, ops)| && j < |Run(w, slots, ops)|
    ensures SameSource(Run(w, slots, ops)[i].token, Run(w, slots, ops)[j].token) <==> i == j
  {
    RunWellFormed(w, slots, ops);
  }

  lemma {:induction false} RunWellFormed(w: Width, slots: seq<SourceEntry>, ops: seq<ListOp>)
    requires WellFormedSlots(w, slots)
    ensures WellFormedSlots(w, Run(w, slots, ops))
    decreases |ops|
  {
    if ops != [] {
      RunWellFormed(w, Apply(w, slots, ops[0]), ops[1..]);
    }
  }
}
