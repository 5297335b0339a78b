# A verified model of calloop

calloop is a callback event loop: sources of events are inserted in a loop, a dispatch waits for
events and hands each one to the callback of its source, and callbacks may change the loop while
it is being walked. This project models the state machines that have to stay consistent while
that happens, and proves what they are for, over all inputs and all runs.

`dafny verify dfyconfig.toml` checks everything. Where the program updates an object in place the
model is a class whose methods are tied, by their postconditions, to functions on values; the
theorems are about those functions, invariants over runs of them, and independent definitions of
what they should compute.

## What is modelled

**Slots and tokens** (`Tokens`, `SourceLists`; src/token.rs, src/list.rs, part of src/sys.rs).
Sources live in numbered slots. A slot that was emptied is reused under the next version of its
token, versions wrap, and a token is packed with a sub-id into one machine word. All statements
are for each of the three pointer widths.

**The loop** (`LoopState`, `LoopInvariant`, `Dispatching`, `LoopRuns`, `LoopInner`;
src/loop_logic.rs, src/sources/mod.rs). A callback is an arbitrary finite sequence of handle
operations (insert, enable, update, disable, remove, on any source including its own) followed by
a returned action or an error. Every call into a user's source has an answer, success or failure,
which is a parameter. A run is any sequence of handle operations and dispatches. Two pieces of
instrumentation that no operation looks at let statements tell insertions apart whose tokens are
equal: `generation` counts how often a slot was reused, and an event's `origin` and `generation`
say which insertion it was produced for.

**Wake-ups from other threads** (`Eventfd`, `Wakeups`, `Executors`, `Channels`;
src/sources/ping/eventfd.rs, src/sources/futures.rs, src/sources/channel.rs). The 64-bit eventfd
counter is exact, including its cap. Pushes, flag swaps, pings, drops and the receiver's accesses
are separate steps of machines with any number of senders, and the theorems are over every
interleaving.

**Timers** (`Timers`, `TimerRuns`; src/sources/timer.rs, part of src/sys.rs). The binary heap is
known by its contract: `peek` and `pop` take one same entry of minimal deadline, and which of
several is arbitrary.

**Transient sources** (`Transients`; src/sources/transient.rs): the six-state wrapper around an
inner source, with every inner call allowed to fail.

**Polling** (`LevelPolls`, `Generics`, `Timeouts`; src/sys.rs, src/sources/generic.rs): emulation
of level-triggered events on a oneshot backend, proved against an ideal level-triggered poller;
the descriptor source on top of it; and the arithmetic of timeouts and interrupted waits.

## What the statements assume, and what fails without it

Each hypothesis below is about the caller or the system. Calls into user sources may all fail, at
any time; what a failure costs is stated exactly.

- `Usable` (loop): handles are used without panicking, a dispatcher is in one slot at a time, and
  tokens are ones the loop gave out. Synthetic events carry the token of the source that returns
  them. Enabling or inserting the source whose callback is running panics on its `RefCell`, and
  for the same reason nobody holds an `as_source_mut` guard while using a handle; runs are up to
  the first panic.
- `WellBehaved` (loop) is `Usable` without the failures that leave something behind. They are
  `Breaks` for handle operations (a failing `register` of an unregistered source that asked for
  lifecycle events, a failing `unregister` of a registered source that is removed) and
  `LeavesUnsettled` after a callback (an error, a failed post action or a failed sweep, each only
  when the source left its slot while registered or had asked for something). `RunSoundIff` says
  that over all runs and all answers the loop stays sound throughout exactly if none of these
  happens. What each costs: `FailedInsertion`, `FailedRemoval` and `FailedSweep` make the next
  dispatch run into `unreachable!()` exactly if the source asked for lifecycle events;
  `FailedEnable` has an unregistered source told before the next sleep; `ErrorSkipsSettling` leaves a
  request for the next event.
- Recent events (loop): between an event's registration and the end of its callback, its slot is
  reused fewer than 2^BITS_VERSION times. `StaleTokensRejected` shows that the bound is exact.
- Ids that fit a poller key (tokens): `RegisteredEventsIssued` says that events come back to their
  source exactly for those. On 64-bit targets all ids fit; on smaller ones the loop gives out ids
  that do not, and by `PollerKeysUnique` their keys collide.
- `Careful` (timers): a timer is not registered while it has an entry in the wheel, is neither
  registered nor reregistered while an expiry under the same token is in flight, has no deadline
  past the last instant set while registered, and no dispatch ends with an error while the expiry
  of a registered timer is in flight. `StepKeepsIff` says that the invariant breaks exactly
  otherwise. `OrphanLeft`: enabling an enabled timer leaves an entry that belongs to nobody.
  `AbortLoses` and `NeverFiresAgain`: an error from any source ends the dispatch and drops the
  events not handled yet, among them the expiries already taken from the wheel; such a timer stays
  registered and never fires again unless it is registered anew.
- `Documented` (transient sources): `remove` and `replace` are not called again over a pending
  replacement, a pending replacement or removal is followed by `reregister` or `unregister`, and
  the wrapper is dropped after its sources are unregistered. `RunSafeIff` states the exact
  condition and `ReplacingTwiceLosesRegistration` gives a run that fails.
- `Orderly` (descriptor sources): a source is not reregistered or unregistered while another one
  around the same descriptor is registered. `CallKeepsIff` is exact; that no descriptor outlives
  its sources holds without it.
- Channels of bound 0 lose wake-ups: `WakeupsReliableIff` is an if-and-only-if over all kinds of
  channels, with the failing run in `RendezvousLosesWakeup`. The sender pings before it blocks, so
  the receiver can look before there is anything to take.
- Emulated level mode is kept exactly when a descriptor registered as `Level` is reregistered as
  `Level` under its own key (`ReregisterKeepsIff`), and when a registered source that is not
  `Level` is dropped (`DropKeepsEmulationIff`).

## Where the code and its documentation differ

The model follows the code.

- The documentation of `Mode::Edge` promises an error on platforms that do not support it;
  `cvt_mode` turns every mode into oneshot there (src/sys.rs:43-44, 440-443).
- The comment on `level_triggered` promises emulation for every level-triggered source, but the map
  is not cleaned when a source changes mode or key, nor when a registered `Generic` is dropped
  (src/sys.rs:366-375, src/sources/generic.rs:250-264).
- An interrupted wait subtracts the whole time since the dispatch started, each time
  (src/loop_logic.rs:476-480). No wait goes past the timeout, but after two interruptions the
  dispatch can give up early: `GivesUpIff` and `NeverOversleeps` say when.
- The "set" of lifecycle tokens is a list that every reregistration pushes to again
  (src/sources/mod.rs:434-441), so a source can be told several times per dispatch. The statements
  are about that list as it is.

## Model

| member | source | states |
|---|---|---|
| Tokens.PackThenUnpack | src/token.rs:77-96 | A packed token is one machine word and unpacking it gives the token back exactly when its id fits the id field; otherwise only the id is truncated. |
| Tokens.UnpackThenPack | src/token.rs:77-96 | Packing inverts unpacking on every machine word, so keys and tokens with fitting ids correspond one to one. |
| Tokens.KeyLayout | src/token.rs:77-96 | A key holds the sub-id in its lowest bits, the version above it and the id above both. |
| Tokens.VersionCycle | src/token.rs:43-53 | After n reuses a token names the same source again if and only if n is a multiple of 2^BITS_VERSION. |
| Tokens.FactoryIssues | src/sys.rs:132-150 | A factory yields n tokens without panicking exactly when the sub-ids last, that is 2^BITS_SUBID - 1 from a fresh one, and they are consecutive. |
| Tokens.PollerKeysUnique | src/token.rs:55-96 | Keys of two sub-sources are equal exactly when their ids agree in the bits that fit, their versions agree and they are the same in number; so for ids that fit, only when they are the same sub-source. |
| Tokens.TokenFactory.constructor | src/sys.rs:133-137 | A factory starts from the source's own token without sub-id. |
| Tokens.TokenFactory.RegistrationToken | src/sys.rs:139-142 | Whatever was handed out since, the registration token is that of the source the factory was made for, without sub-id. |
| Tokens.TokenFactory.Token | src/sys.rs:144-149 | Yields the next token, or panics exactly when one more cannot be issued, leaving the factory as it was. |
| SourceLists.FirstVacant | src/list.rs:23 | The index found is vacant and everything before it is occupied. |
| SourceLists.WithVacantEntry | src/list.rs:22-43 | The first vacant slot, moved to its next version, or a new one is vacant afterwards; no other slot changed, and every slot's token still carries its own index. |
| SourceLists.SourceList.VacantEntry | src/list.rs:22-43 | Reuses the first vacant slot under its next version or appends one, changing no other slot. |
| SourceLists.SourceList.Find | src/list.rs:45-70 | The lookup in the list is that function of the slots. |
| SourceLists.SourceList.Put | src/loop_logic.rs:137-151 | Filling or emptying a slot keeps its token and every other slot. |
| SourceLists.RunVersion | src/list.rs:22-43 | After any sequence of insertions and removals a slot's token is its old one advanced by the number of times the slot was reused. |
| SourceLists.StaleTokensRejected | src/list.rs:22-70 | A token valid now is accepted after any sequence of insertions and removals exactly when its slot was reused a multiple of 2^BITS_VERSION times since. |
| SourceLists.TokensOfSlotsDistinct | src/list.rs:22-70 | After any run the tokens of different slots name different sources. |
| LoopState.WithoutSplits | src/sources/mod.rs:439-441 | Unregistering from the lifecycle bag drops every copy of the token and keeps the order and number of all others. |
| LoopState.InsertEffect | src/loop_logic.rs:124-154 | An accepted insertion puts the source in the first vacant slot under the next version, registers it under exactly that token, adds the token to the bag if and only if it asked, and touches nothing else; a refused one is reported and leaves the slot empty and nobody registered. |
| LoopState.EnableEffect | src/loop_logic.rs:176-194 | An accepted `enable` registers the source found under its slot's token, bag included, and nobody else; the reply is `InvalidToken` exactly for a token that leads nowhere and an error exactly when the source fails. |
| LoopState.UpdateEffect | src/loop_logic.rs:200-229 | The same for `update`, which is only remembered exactly while the source is running. |
| LoopState.DisableEffect | src/loop_logic.rs:234-264 | An accepted `disable` unregisters the source and takes every copy of the token, and no other, out of the bag, or is only remembered. |
| LoopState.RemoveEffect | src/loop_logic.rs:267-287 | `remove` empties that slot and no other whatever the source answers, and unregisters the source unless it is running or fails. |
| LoopState.PerformSplits | src/loop_logic.rs:527 | A callback's operations take effect one after the other, each in the state the ones before it left. |
| LoopInvariant.InsertKeeps | src/loop_logic.rs:124-154 | Inserting a source, also from inside any callback, keeps the loop consistent: slots versioned, registered sources in their own slots, lifecycle bag exact. So does a failed insertion of a source without lifecycle events. |
| LoopInvariant.InsertBreaks | src/loop_logic.rs:148-151 | A failed insertion of a source that asked for lifecycle events leaves a token nobody is registered under. |
| LoopInvariant.EnableKeepsIff | src/loop_logic.rs:176-194 | `enable` keeps the loop consistent if and only if it does not fail for an unregistered source that asked for lifecycle events. |
| LoopInvariant.UpdateKeeps | src/loop_logic.rs:200-229 | `update` keeps it always: carried out, deferred or failed. |
| LoopInvariant.DisableKeeps | src/loop_logic.rs:234-264 | `disable` keeps it always: carried out, deferred or failed. |
| LoopInvariant.RemoveKeeps | src/loop_logic.rs:267-287 | `remove` keeps it, including a source that removes itself and stays registered until its callback is over, and one that fails to unregister while it is not registered. |
| LoopInvariant.RemoveBreaks | src/loop_logic.rs:273-285 | Removing a registered source that fails to unregister leaves it registered and in no slot. |
| LoopInvariant.OpKeepsIff | src/loop_logic.rs:124-287 | Any operation, whatever the sources answer, keeps the loop consistent if and only if it is not one of those failures. |
| LoopInvariant.TokenOwner | src/loop_logic.rs:512-523 | Only the source in an occupied slot can be registered under the slot's token, even while an earlier occupant is still running. |
| LoopInvariant.FoundToken | src/list.rs:45-70 | A source found under a token is registered under that token if at all, and is the only one. |
| Dispatching.OpsKeep | src/loop_logic.rs:176-287 | Any sequence of such operations in a callback keeps the loop consistent around the running source. |
| Dispatching.OpsKeepIff | src/loop_logic.rs:124-287 | The loop is consistent after every operation of a callback if and only if none of them is such a failure. |
| Dispatching.OwnRequest | src/loop_logic.rs:218-226 | An operation sets the pending action exactly when it is an `update` or `disable` of the running source by its own valid token, and takes the source out of its slot exactly when it removes that token. |
| Dispatching.PendingIsOwnRequest | src/loop_logic.rs:218-226 | After any callback the pending action is the running source's own last `update` or `disable` before it removed itself; no other source's request gets there. |
| Dispatching.EnterCallback | src/loop_logic.rs:514-527 | An event whose token resolves resolves to the source it was produced for, which is still in its slot. |
| Dispatching.EventReachesItsSource | src/loop_logic.rs:512-527 | An event is delivered to the insertion it was produced for if that is still in its slot, and otherwise to nobody, whatever sources answer. |
| Dispatching.LeaveCallback | src/loop_logic.rs:527-537 | What is left when a callback returns: a consistent loop and the request derived from the operations alone. |
| Dispatching.ActionIsLocal | src/loop_logic.rs:539-578 | Carrying out a post action changes nobody's slot or registration but the event's source. |
| Dispatching.PostActionIsLocal | src/loop_logic.rs:529-603 | The same for everything after the callback, including the completion of a self-removal, even when the slot was refilled meanwhile. |
| Dispatching.ConcludeKeepsIff | src/loop_logic.rs:529-603 | Settling ends quiet if and only if no failed action or sweep meets a source that is registered and out of its slot. |
| Dispatching.HandleEventKeepsIff | src/loop_logic.rs:512-607 | After an event every registered source owns its slot and no request is left over, whatever the callback removed, refilled or asked for, if and only if that guard holds, errors included. |
| Dispatching.EventQuietIff | src/loop_logic.rs:512-607 | The same for an event together with all operations of its callback. |
| Dispatching.ActionEffect | src/loop_logic.rs:539-578 | What each action does to the event's source; it fails exactly when the source fails a reregistration or disabling, which then changed nothing. |
| Dispatching.SweepEffect | src/loop_logic.rs:580-603 | A source that left its slot is unregistered; one still there is untouched. |
| Dispatching.EventSettled | src/loop_logic.rs:527-603 | How an event leaves its source: a returned action overrides, `Continue` gives way to the last own request, a self-removed source ends unregistered and in no slot, and a failed action leaves the source as its callback did. |
| Dispatching.EventIsItsCallback | src/loop_logic.rs:527-603 | An event comes to all operations of its callback and then to something about its own source alone; it fails exactly for an error of the callback and for an action the source fails. |
| LoopRuns.RegisteredEventsIssued | src/sys.rs:255-264 | What the poller reports for a registration, unpacked from its key, is an event of that insertion if and only if the slot's id fits the key, which on 64-bit targets it always does. |
| LoopRuns.HandleEventGrows | src/loop_logic.rs:512-607 | Handling an event never lowers a generation or gives a slot of one generation to another source. |
| LoopRuns.WalkKeeps | src/loop_logic.rs:512-607 | Over the whole walk: events are handled in order without a gap, each from a quiet state and by its own insertion or nobody. |
| LoopRuns.WalkSteps | src/loop_logic.rs:512-607 | Whatever sources do, the k-th event is handled with its own callback in the state the one before it left; the first failure ends the walk and is reported, and without one all events are handled. |
| LoopRuns.WalkQuietIff | src/loop_logic.rs:512-607 | A walk is consistent and quiet all through if and only if no failure on the way leaves something behind. |
| LoopRuns.EventsOfSplits | src/loop_logic.rs:799-813 | The iterator shows the events with the token's id and version, in order and each as often as it was polled, and no others. |
| LoopRuns.LifecycleResolves | src/loop_logic.rs:443-465 | In a quiet loop each token of the lifecycle bag leads to a source that asked for the notifications and is in that slot. |
| LoopRuns.SleepUnreachable | src/loop_logic.rs:451-464 | The first `unreachable!()` is reached exactly when some token of the bag leads nowhere. |
| LoopRuns.SleepVisits | src/loop_logic.rs:451-464 | `before_sleep` is called in the order of the bag, once per entry, up to the first failure, and queues only events of the sources' own insertions. |
| LoopRuns.SleepFails | src/loop_logic.rs:456 | The first notification reports an error exactly when some source in the bag fails it. |
| LoopRuns.WakeVisits | src/loop_logic.rs:488-510 | `before_handle_events` is called in the order of the bag with the polled events of each entry. |
| LoopRuns.IteratorShowsOwnEvents | src/loop_logic.rs:794-813 | A source is shown exactly the polled events of its own current insertion, none of an earlier occupant of its slot. |
| LoopRuns.SyntheticsQueued | src/loop_logic.rs:456-460 | The queue of synthetic events grows by exactly the sources' answers, in the order of the bag. |
| LoopRuns.SyntheticFirst | src/loop_logic.rs:456-460 | Each source in turn adds nothing or one event, under its own token and of its own insertion. |
| LoopRuns.NoSynthetics | src/loop_logic.rs:456-460 | Nothing is queued exactly when no source of the bag answered with an event. |
| LoopRuns.SyntheticWakesAtOnce | src/loop_logic.rs:456-487 | After a synthetic event there is one wait, of no time, and an interruption of it ends the dispatch with the event kept for the next. |
| LoopRuns.DispatchKeeps | src/loop_logic.rs:438-610 | A dispatch never reaches `unreachable!()`; when waiting completes, both notifications visit the same tokens in the same order before any event is processed, then synthetic and polled events follow; a failed or expired wait changes nothing but the synthetic queue. |
| LoopRuns.DispatchComesTo | src/loop_logic.rs:438-610 | By what happens alone: the first wait is of no time if some source answered with an event and of the caller's otherwise; when waiting completes in time all polled events are shown to the bag and handled, a failed wait is an error and a used-up timeout is not, and both handle nothing. |
| LoopRuns.DispatchReports | src/loop_logic.rs:466-527 | A dispatch that handles its events reports an error exactly when the last event it handled failed. |
| LoopRuns.RunKeeps | src/loop_logic.rs:438-610 | Soundness is kept by any sequence of handle operations and dispatches. |
| LoopRuns.StepSoundIff | src/loop_logic.rs:124-610 | One handle operation or dispatch, whatever the sources answer, is sound all through if and only if it is well behaved. |
| LoopRuns.RunSoundIff | src/loop_logic.rs:124-610 | Over all runs and all answers of sources, the loop stays sound throughout if and only if no failure leaves something behind. |
| LoopRuns.EveryRunIsSound | src/loop_logic.rs:438-610 | In every run from an empty loop, at every dispatch: registered sources own their slots, the lifecycle bag names exactly the registered sources that asked for it, nothing is pending, and `unreachable!()` is dead. |
| LoopRuns.FailedInsertion | src/sources/mod.rs:333-345 | A failed insertion makes the next dispatch reach `unreachable!()` if and only if the source asked for lifecycle events. |
| LoopRuns.FailedRemoval | src/loop_logic.rs:273-285 | So does the removal of a registered source that fails to unregister. |
| LoopRuns.FailedSweep | src/loop_logic.rs:580-603 | So does a source that left its slot in its own callback and was not unregistered after it, because of an error, a failed action or a failed sweep. |
| LoopRuns.FailedEnable | src/sources/mod.rs:341-344 | A failed `enable` has an unregistered source told before the next sleep if and only if it asked for lifecycle events. |
| LoopRuns.ErrorSkipsSettling | src/loop_logic.rs:527 | After an error from `process_events` the loop is quiet if and only if the callback left no request on itself and did not remove itself while registered. |
| LoopInner.EventLoop.RetainOthers | src/sources/mod.rs:439-441 | The in-place filter of the bag drops exactly the copies of one token. |
| LoopInner.EventLoop.Register | src/sources/mod.rs:333-345 | The dispatcher's `register` on the fields: token pushed before the source answers, registration on success, as `InsertEffect` and `EnableEffect` spell out. |
| LoopInner.EventLoop.Reregister | src/sources/mod.rs:347-362 | Deferred while borrowed, otherwise pushes the token only after success. |
| LoopInner.EventLoop.Unregister | src/sources/mod.rs:364-379 | Deferred while borrowed, otherwise drops the token only after success. |
| LoopInner.EventLoop.RegisterNew | src/loop_logic.rs:124-154 | Insertion on the fields, reply included, is the function that `InsertEffect` and the invariants are about. |
| LoopInner.EventLoop.EnableToken | src/loop_logic.rs:176-194 | The same for `enable` and `EnableEffect`. |
| LoopInner.EventLoop.UpdateToken | src/loop_logic.rs:200-229 | The same for `update` and `UpdateEffect`. |
| LoopInner.EventLoop.DisableToken | src/loop_logic.rs:234-264 | The same for `disable` and `DisableEffect`. |
| LoopInner.EventLoop.RemoveToken | src/loop_logic.rs:267-287 | The same for `remove` and `RemoveEffect`. |
| LoopInner.EventLoop.Settle | src/loop_logic.rs:529-603 | The same for everything after a callback. |
| LoopInner.EventLoop.Handle | src/loop_logic.rs:512-607 | The same for one event. |
| LoopInner.EventLoop.WalkEvents | src/loop_logic.rs:512-607 | The loop over the events computes the recursive walk. |
| LoopInner.EventLoop.SleepAll | src/loop_logic.rs:443-465 | The loop over the bag computes the recursive first notification, and the timeout that its answers leave. |
| LoopInner.EventLoop.WakeAll | src/loop_logic.rs:488-510 | The loop over the bag computes the recursive second notification. |
| LoopInner.EventLoop.DispatchAll | src/loop_logic.rs:438-610 | The whole dispatch, retries included: what `DispatchComesTo` says of it by timeout, answers, the way each wait ends and the polled events alone, and that its waits are those `NeverOversleeps` speaks about. |
| Eventfd.MasksAreDigits | src/sources/ping/eventfd.rs:133-137 | On 64-bit words, the two bit tests of the decoder are the last binary digit and the rest. |
| Eventfd.CounterOf | src/sources/ping/eventfd.rs:63-95 | After any interleaving of pings, clones, drops and drains the counter is determined by the pings and the close since the last drain, cap included. |
| Eventfd.DecoderFaithful | src/sources/ping/eventfd.rs:129-147 | The decoder reports a ping exactly when there was one since the last drain, and a close exactly when the last handle was dropped since then and the counter was below its cap. |
| Eventfd.ReadableIff | src/sources/ping/eventfd.rs:63-95 | The descriptor is readable exactly when there is something to report. |
| Eventfd.SecondCloseReadsAsPing | src/sources/ping/eventfd.rs:33-37 | Why there must be only one close: two would read as a ping without close. |
| Eventfd.PingPair.SendPing | src/sources/ping/eventfd.rs:63-77 | A write adds its count or, at the cap, changes nothing. |
| Eventfd.PingPair.Ping | src/sources/ping/eventfd.rs:177-184 | One ping step of the runs that `DecoderFaithful` is about. |
| Eventfd.PingPair.Drop | src/sources/ping/eventfd.rs:186-197 | Dropping a handle writes the close exactly when it was the last one. |
| Eventfd.PingPair.ProcessEvents | src/sources/ping/eventfd.rs:120-150 | An event under another token reads nothing; otherwise the counter is drained and both reports are those of the decoder. |
| Wakeups.SenderStepKeeps | src/sources/futures.rs:195-227 | Each atomic step of `send` keeps: a set flag is backed by a readable or owed ping, and queued work has a wake-up under way. |
| Wakeups.StepKeeps | src/sources/futures.rs:302-369 | The same for each step of the executor. |
| Wakeups.NoLostWakeup | src/sources/futures.rs:195-227 | In every interleaving of any number of senders with the executor, if it is idle and runnables are queued then the ping is readable or some sender is before its swap or ping; nothing is lost or reordered. |
| Wakeups.SentIsPoppedOrQueued | src/sources/futures.rs:195-227 | In every run the runnables sent are exactly those popped followed by those queued, in the order of the sends. |
| Wakeups.QuietSendersMeanReadable | src/sources/futures.rs:302-369 | Once senders are done, queued work lets the executor start, and start reading. |
| Wakeups.PassRuns | src/sources/futures.rs:313-368 | A pass pops min(1024, backlog) runnables and leaves a ping exactly when it stopped at 1024. |
| Wakeups.BacklogDrains | src/sources/futures.rs:313-368 | A backlog of n is drained in n / 1024 + 1 passes, the last of which leaves no ping. |
| Wakeups.BacklogDrainsSurely | src/sources/futures.rs:313-368 | Every undisturbed run of the executor is a beginning of those passes, and it can do no more exactly when the backlog is drained. |
| Executors.OpKeeps | src/sources/futures.rs:119-192 | Scheduling and waking, from futures and callbacks too, keep the slab exact and every task queued at most once. |
| Executors.OpEffect | src/sources/futures.rs:148-191 | A scheduled future is in the slab under its key and at the end of the queue; a woken one is in the queue, or is queued again when its running poll returns. |
| Executors.KeyHeldUntilCollected | src/sources/futures.rs:146-192 | A stored result stays in the slab and its index is not given out again before it is collected. |
| Executors.TurnDelivers | src/sources/futures.rs:323-355 | One turn delivers the result of the future that finished, and no other. |
| Executors.TurnPolls | src/sources/futures.rs:323-355 | One turn polls the head of the queue, keeps the others in front of what is added, and delivers the head's result if it has one. |
| Executors.PassKeeps | src/sources/futures.rs:316-356 | A whole pass keeps the invariant, and clears readiness only with an empty queue. |
| Executors.PassPolls | src/sources/futures.rs:316-356 | A pass polls tasks until the queue is empty, which it then reports, or the budget is used up: first those queued before, in order; and it delivers the results of exactly the polled tasks that finished, in order. |
| Executors.QuietPass | src/sources/futures.rs:316-356 | With turns that schedule and wake nothing it takes min(budget, backlog) tasks off the queue and leaves the rest. |
| Executors.ResultsDeliveredOnce | src/sources/futures.rs:316-356 | In every run the results passed to the callback are exactly those produced, in order, each task's once, and the slab holds exactly the unfinished futures. |
| Executors.Executor.Send | src/sources/futures.rs:195-227 | A runnable is queued and the flag set, with a ping exactly if the flag was clear. |
| Executors.Executor.Schedule | src/sources/futures.rs:119-192 | Schedules the future, or fails without effect exactly after the executor's end; `active_tasks` is not borrowed twice and is released before the runnable is sent. |
| Executors.Executor.StoreOnDrop | src/sources/futures.rs:131-144 | The guard stores the result at its index or forgets the task, or does nothing once the executor has ended; the borrow is released. |
| Executors.Executor.UserCode | src/sources/futures.rs:335-352 | Futures and callbacks run while `active_tasks` is not borrowed and leave it so. |
| Executors.Executor.RunHead | src/sources/futures.rs:323-335 | Running a runnable carries its own index and ends as the future ended. |
| Executors.Executor.CollectResult | src/sources/futures.rs:337-354 | A result is taken out before the callback runs, and the borrow is released first. |
| Executors.Executor.ProcessRunnables | src/sources/futures.rs:323-356 | The bounded loop computes the pass that `PassPolls` and `QuietPass` are about. |
| Executors.Executor.ProcessEvents | src/sources/futures.rs:302-369 | On the executor's own thread work never waits without a ping, before or after; what is returned and pinged for a foreign token, a read error, a lone close, an exhausted budget and an emptied queue; `Remove` only with nothing queued. |
| Executors.Executor.WakeAll | src/sources/futures.rs:233-247 | At the end every future still in the slab has its runnable in the queue. |
| Executors.Executor.Destroy | src/sources/futures.rs:229-252 | Dropping the executor leaves no runnable and no future, and delivers nothing more. |
| Channels.MaxPerPass | src/sources/channel.rs:235 | At least one message per pass, at most 1024 and at most one more than the bound, and one of the two. |
| Channels.SendKeeps | src/sources/channel.rs:72-135 | Each step of a send keeps: queued messages have a wake-up under way when the receiver will not look again. |
| Channels.HandleKeeps | src/sources/channel.rs:45-101 | The same for cloning and for the two-step drop of a handle, with the shared ping-on-drop of synchronous channels. |
| Channels.ReceiverKeeps | src/sources/channel.rs:217-262 | The same for each step of the receiver. |
| Channels.NoLostWakeup | src/sources/channel.rs:72-135 | For async channels and bounds of at least 1, in every interleaving: an idle receiver with messages queued or a sender stuck has a readable ping or one owed by a send; with a closing to report, one owed by a drop of the last handles will do. |
| Channels.SendTable | src/sources/channel.rs:72-135 | Each step of a send: with room the message is queued, without it the send pings all the same and a blocking one goes on with its message. |
| Channels.HandleTable | src/sources/channel.rs:45-101 | Each step of cloning and dropping a handle; only the last synchronous handle pings. |
| Channels.MessageKept | src/sources/channel.rs:113-120 | Over any step a message stays in its sender's hand until the channel accepts it. |
| Channels.AsyncSendsAll | src/sources/channel.rs:72-80 | In every run an asynchronous channel has accepted every message offered, in the order of the sends. |
| Channels.RendezvousLosesWakeup | src/sources/channel.rs:113-134 | A run with bound 0 after which a sender is blocked for ever on a receiver nobody wakes. |
| Channels.WakeupsReliableIff | src/sources/channel.rs:72-135 | A channel never loses a wake-up if and only if it is not a `sync_channel(0)`. |
| Channels.DeliveredInOrderOnce | src/sources/channel.rs:236-261 | In every run the messages sent are those delivered followed by those queued; `Closed` comes at most once, and only when all are delivered and all senders are gone. |
| Channels.PassRuns | src/sources/channel.rs:226-261 | One pass delivers min(max, backlog) messages and leaves a ping exactly when it stopped at the maximum. |
| Channels.BacklogDrains | src/sources/channel.rs:226-261 | With a sender alive and no new sends, a backlog of n is drained in n / max + 1 passes, after which the counter is zero. |
| Channels.BacklogDrainsSurely | src/sources/channel.rs:226-261 | Every undisturbed run of the receiver is a beginning of those passes, and it can do no more exactly when the backlog is drained. |
| Channels.Channel.ProcessEvents | src/sources/channel.rs:217-262 | What one call delivers, leaves queued, leaves in the counter and returns, in each of: foreign token, read error, close without ping, full budget, drained, disconnected. |
| Timers.CancelCounts | src/sources/timer.rs:231-243 | Cancelling removes every entry of the counter exactly unless there were several and one was on top, and touches no other counter. |
| Timers.TimerWheel.Insert | src/sources/timer.rs:212-221 | Adds one entry under the wheel's next counter and uses that up. |
| Timers.TimerWheel.InsertReuse | src/sources/timer.rs:223-229 | Adds one entry under the given counter and uses none up. |
| Timers.TimerWheel.Peek | src/sources/timer.rs:261-267 | The inverted ordering makes the top of the heap an entry of least deadline. |
| Timers.TimerWheel.Cancel | src/sources/timer.rs:231-243 | Pops the top if it is of that counter, else filters. |
| Timers.TimerWheel.NextExpired | src/sources/timer.rs:245-252 | Takes out an entry of least deadline if that is due; if none is returned then none is due. |
| Timers.TimerWheel.NextDeadline | src/sources/timer.rs:254-256 | The least deadline of all entries. |
| Timers.TimerWheel.DrainExpired | src/sys.rs:270-281 | The drain terminates and takes exactly the due entries, in nondecreasing order of deadline, leaving the others untouched. |
| TimerRuns.DeadlineIrrelevant | src/sources/timer.rs:83-93 | Changing a deadline neither loses nor duplicates anything, as long as a registered timer keeps one. |
| TimerRuns.FreshCounter | src/sources/timer.rs:212-221 | The counter that an insertion takes occurs nowhere in the wheel or in flight. |
| TimerRuns.Timer.Register | src/sources/timer.rs:145-159 | The heap grows by one entry of the timer's own deadline and token under a fresh counter, which the timer remembers; a deadline past the last instant changes nothing. |
| TimerRuns.Timer.Unregister | src/sources/timer.rs:170-175 | Forgets the registration and cancels its counter. |
| TimerRuns.Timer.Reregister | src/sources/timer.rs:161-168 | Unregisters, then registers. |
| TimerRuns.Timer.ProcessEvents | src/sources/timer.rs:109-143 | Fires with its deadline exactly on its own token; then goes on at exactly the instant its callback named, under the same counter and token, or asks to be removed. |
| TimerRuns.RegisterKeeps | src/sources/timer.rs:145-159 | A careful registration keeps every registered timer's counter occurring once, and no other. |
| TimerRuns.UnregisterKeeps | src/sources/timer.rs:170-175 | So does unregistration, after which the counter is in the wheel no more. |
| TimerRuns.ExpireKeeps | src/sys.rs:270-281 | So does moving an expired entry in flight. |
| TimerRuns.DeliverKeeps | src/sources/timer.rs:118-121 | So does handing an expiry to whoever answers to its token. |
| TimerRuns.FinishKeeps | src/sources/timer.rs:122-142 | So does the end of a callback, whether the timer goes on, overflows or is dropped. |
| TimerRuns.NoTimerLostOrDuplicated | src/sources/timer.rs:109-175 | In every careful run each registered timer's counter occurs exactly once in the wheel and in flight together (nowhere during its own callback), the wheel has no other entries, and what else is in flight carries no registered timer's counter or token. |
| TimerRuns.FiresWhenDue | src/sources/timer.rs:118-151 | In every careful run a registered timer has its entry under the very moment it was last set to, by registration or by its callback, and is called back only after some poll at or past that moment. |
| TimerRuns.CancelledIsSilent | src/sources/timer.rs:170-175 | A cancelled counter is gone from the wheel, is gone altogether exactly if no expiry of it was in flight, and such an expiry is answered by nobody. |
| TimerRuns.AbortKeepsIff | src/loop_logic.rs:512-607 | A dispatch that ends with an error, dropping what it has not handled, keeps the invariant if and only if no registered timer's expiry was in flight. |
| TimerRuns.AbortLoses | src/sys.rs:270-281 | Otherwise such a timer is registered and has no entry anywhere. |
| TimerRuns.NeverFiresAgain | src/sources/timer.rs:109-175 | Then it never fires in any run, careful or not, in which it is not registered anew. |
| TimerRuns.StepKeepsIff | src/sources/timer.rs:109-175 | Of all steps that can happen, those that are careful keep the invariant and no others. |
| TimerRuns.RegisterKeepsIff | src/sources/timer.rs:145-159 | Registration keeps the invariant if and only if it is careful. |
| TimerRuns.ReregisterKeepsIff | src/sources/timer.rs:161-168 | Reregistration keeps it if and only if no expiry under the new token is in flight. |
| TimerRuns.OrphanLeft | src/sources/timer.rs:145-159 | Registering a timer that has an entry in the wheel always leaves an entry that belongs to nobody. |
| TimerRuns.FiresOncePerPoll | src/sys.rs:270-281 | Between two drains a timer fires at most once, even when it reschedules itself into the past. |
| Transients.StepSafeIff | src/sources/transient.rs:174-186 | A call drops a source that is still registered exactly when its guard says so. |
| Transients.RunSafeIff | src/sources/transient.rs:251-366 | A run, inner failures included, drops no registered source if and only if none of its calls meets that guard. |
| Transients.NeverDropsRegistered | src/sources/transient.rs:867-872 | Under the documented use every dropped inner source was unregistered, up to and including the drop of the wrapper, and only held sources are registered. |
| Transients.UnregisterAllowsDrop | src/sources/transient.rs:349-366 | Dropping the wrapper is safe if and only if nothing is registered, and a successful unregister makes it so in every state. |
| Transients.ReplacingTwiceLosesRegistration | src/sources/transient.rs:231-234 | Replacing twice drops a registered source. |
| Transients.KeptOnlyByRegistering | src/sources/transient.rs:296-347 | A source comes to receive events only by a call that registers it. |
| Transients.SilentUntilRegistered | src/sources/transient.rs:260-285 | Over any run without such a call nothing is forwarded. |
| Transients.RequestsSilence | src/sources/transient.rs:217-293 | `remove`, `replace` and a child's `Disable` or `Remove` all stop forwarding, and the wrapper asks for reregistration exactly when its child asked for something. |
| Transients.ReregisterSettles | src/sources/transient.rs:320-347 | From any safe state, a successful reregister leaves registered exactly the source that is kept. |
| Transients.RequestTable | src/sources/transient.rs:174-234 | For each state, what `remove` and `replace` make of it and what they drop. |
| Transients.ProcessTable | src/sources/transient.rs:251-294 | For each state and answer: who hears of the event, the state after it, and the wrapper's action; nothing is dropped. |
| Transients.RegisterTable | src/sources/transient.rs:296-318 | For each state and answer: the state, what is registered and what is dropped after `register`. |
| Transients.ReregisterTable | src/sources/transient.rs:320-347 | The same after `reregister`, including a replacement that fails halfway. |
| Transients.UnregisterTable | src/sources/transient.rs:349-366 | The same after `unregister`: a source stays in its state and is not dropped unless its removal or replacement was asked for. |
| Transients.DisableEnableRestores | src/sources/transient.rs:296-366 | Disabling and enabling a wrapper gives back the very same wrapper. |
| Transients.TransientSource.ReplaceWith | src/sources/transient.rs:174-186 | The in-place swap, with the drops it causes. |
| Transients.TransientSource.Dispose | src/sources/transient.rs:124-153 | The drop of the wrapper drops exactly what its state holds. |
| Transients.TransientSource.ProcessEvents | src/sources/transient.rs:251-294 | Forwards only while kept, and turns the child's action into the state and the wrapper's action. |
| Transients.TransientSource.RegisterWith | src/sources/transient.rs:296-318 | The state after registering, success and failure. |
| Transients.TransientSource.ReregisterWith | src/sources/transient.rs:320-347 | The state after reregistering, including a replacement that fails halfway. |
| Transients.TransientSource.UnregisterWith | src/sources/transient.rs:349-366 | The state after unregistering, including a replacement that fails halfway. |
| LevelPolls.RegisterKeeps | src/sys.rs:302-338 | After registration each `Level` descriptor is armed with its interest under its key and is in the map. |
| LevelPolls.UnregisterKeeps | src/sys.rs:384-408 | Unregistration keeps that. |
| LevelPolls.ReregisterKeepsIff | src/sys.rs:346-378 | Reregistration keeps it if and only if a `Level` descriptor stays `Level` under its own key. |
| LevelPolls.WaitRefines | src/sys.rs:239-266 | A wait with re-arming reports, and leaves, exactly what an ideal level-triggered poller would; every `Level` descriptor is armed again. |
| LevelPolls.EmulationRefines | src/sys.rs:181-190 | Over whole runs the emulation produces the events of the ideal poller and ends in its state. |
| LevelPolls.ModeChangeStillRearms | src/sys.rs:366-375 | A descriptor changed from `Level` to `OneShot` is re-armed although the ideal poller would have spent it. |
| LevelPolls.Poller.Add | src/sys.rs:302-338 | Fails without effect exactly for a descriptor that is there. |
| LevelPolls.Poller.Change | src/sys.rs:346-378 | Fails without effect exactly for a descriptor that is not there. |
| LevelPolls.Poller.Delete | src/sys.rs:384-408 | Fails without effect exactly for a descriptor that is not there, else clears every entry of the descriptor. |
| LevelPolls.Poller.PollOnce | src/sys.rs:239-266 | The loop over the reports re-arms and converts as the recursive definition that `WaitRefines` is about. |
| Generics.NoDescriptorOutlivesSource | src/sources/generic.rs:250-340 | In every run, also with several sources around one descriptor, each descriptor in the poller has a living source that will take it out. |
| Generics.CallKeepsIff | src/sources/generic.rs:293-339 | Each registered descriptor belongs to one source that knows its token, others know nothing; a call keeps that if and only if it does not reregister or unregister past the registered source. |
| Generics.CallTable | src/sources/generic.rs:250-339 | For each call: a successful registration has the descriptor armed with the source's interest and mode under the given key, a refused one changes nothing, and no call touches another source. |
| Generics.OwnEventsOnly | src/sources/generic.rs:285-290 | In every run of such calls a source forwards an event exactly when its own registration is under that token. |
| Generics.DuplicateHarmless | src/sources/generic.rs:305-311 | A second source around a registered descriptor fails to register without effect, and its drop leaves the first one's registration alone. |
| Generics.DropKeepsEmulationIff | src/sources/generic.rs:250-264 | Dropping a registered source keeps the emulation intact if and only if it was not `Level`; unregistering first always does. |
| Generics.GenericSource.Register | src/sources/generic.rs:293-314 | Remembers poller and token exactly on success. |
| Generics.GenericSource.Reregister | src/sources/generic.rs:316-332 | Remembers the new token exactly on success. |
| Generics.GenericSource.Unregister | src/sources/generic.rs:334-339 | Forgets both exactly on success. |
| Generics.GenericSource.Drop | src/sources/generic.rs:250-264 | Takes the descriptor out of the backend if it was registered. |
| Timeouts.Merged | src/sys.rs:224-233 | The wait is bounded by the caller's timeout and by the earliest deadline, is one of the two, and is unbounded only if both are. |
| Timeouts.PollTimers | src/sys.rs:223-284 | No timer becomes due before the wait is over, a wait that runs to a timeout chosen by a timer reports at least one timer, and the report is complete, sorted and exact. |
| Timeouts.TimeoutsAre | src/loop_logic.rs:466-487 | The timeout of the k-th wait is the first less the elapsed times so far, which never underflows. |
| Timeouts.NeverOversleeps | src/loop_logic.rs:466-487 | No wait ends past the caller's timeout, and it may use all of it exactly if the earlier elapsed times were zero. |
| Timeouts.GivesUpIff | src/loop_logic.rs:473-482 | The loop gives up exactly when some prefix of interruptions adds up to the timeout. |
| Timeouts.OutcomeIs | src/loop_logic.rs:466-487 | By the way waits end alone: giving up exactly if the interruptions use up the timeout, else failing exactly if an error follows them, else completing; the first wait gets the whole timeout. |
| Timeouts.Retry | src/loop_logic.rs:466-487 | The retry loop computes the recursive definition that those three are about. |

## Left out

- epoll, kqueue and `polling::Poller` internals: the backend is a map of armed descriptors, and which of them a wait reports is arbitrary.
- Native level and edge triggering: only the emulating poller has logic; on other backends the modes are passed through.
- `BinaryHeap`, `mpsc`, `Slab` and `async-task` are known by their contracts only.
- `PostAction` bit-or, weak handles, `insert_idle` and idle callbacks, `LoopSignal`, `run` and `block_on`: thin code that would add only easy members.
- src/io.rs, src/sources/signals.rs, src/sources/stream.rs, src/sources/ping/pipe.rs and src/sources/ping/iocp.rs: plumbing or platform variants of what is modelled.
- Panics in callbacks, poisoned mutexes and `catch_unwind` in the executor's drop: a panic ends the run that is modelled.
- Windows: wepoll and the socket types.
- Readiness contents beyond readable and writable: they are passed through.
- One dispatcher inserted in two slots at once: a cloned `Dispatcher` allows it, the loop gives it no meaning, and `Usable` excludes it.
- Receiving from a channel by `recv` or `try_recv`, and dropping the receiver while senders are left: outside the loop's protocol.
- Failures of the ping write other than at the cap, and of the eventfd read other than on an empty counter.
- Timer counters past 2^32 registrations: the addition overflows in the program and is excluded by a precondition.
- Dropping the `Rc` of a wheel: the wheel outlives its timers in the model.
- Time between reading the clock and waiting: the code between two waits takes no time.
- Executors.Executor.Send: states the effect on the executor's own thread; sends from other threads are the separate steps of `Wakeups`.
- Channels.Channel.ProcessEvents: one call without senders running meanwhile; the interleaved version is the receiver's steps in the machine of the same module.
