# A model of the Angstrom node's synchronisation, election and order pool

This project models six parts of the Angstrom node and proves what they promise.

- **The global block barrier** (`BlockSync`, `BlockSyncMeaning`, `BlockSyncRuns`, `RacingSigners`,
  `RacingRefinement`).
  `GlobalBlockSync` is a class with the shared fields; each call is proved against a function of
  those fields, whole runs are machines over the calls, and a finer machine splits sign-off into
  the steps threads really interleave and is shown to refine the calls.
- **Leader election** (`LeaderSelection`, `LeaderElection`, `LeaderBounds`, `LeaderFairness`,
  `LeaderRoundRobin`, `LeaderCatchUp`, `LeaderStartBlock`, `LeaderMeaning`). `WeightedRoundRobin` is a class;
  its loops are proved against functions of the validator set that do not depend on iteration
  order. Division rounds toward zero, as in Rust.
- **The validation pipeline** (`Pipeline`, `PipelineRuns`): the four-state machine that keeps
  validations from crossing a block change.
- **The order pool** (`OrderPool`, `OrderTracking`, `OrderIndexer`, and the theorems in
  `OrderFacts`, `OrderResults`, `OrderAnswers`, `OrderCancel`, `OrderClaims`, `OrderDisplaced`,
  `OrderLevels`, `OrderLost`, `OrderParking`, `OrderBlocks`, `OrderRequests`, `OrderOwners`, `OrderEffects`).
  `OrderPool` gives each operation as a function on the whole state, with one log of everything
  sent; the classes in `OrderTracking` and `OrderIndexer` update their fields in place and are
  proved to make those steps; the theorems range over all states, events and runs.
- **The pool manager** (`PoolSignOff`, `PoolProgress`, `PoolManager`, `PoolBarrier`): how the pool's
  transitions become sign-offs, that they always can, and how they fit the barrier.
- **The finalization pool and the chunked log scan** (`Finalization`, `LogScan`).

`Options` and `Sums` hold a result type and sums over finite maps.

How the source is rendered:

- An order is its hash; `Env.info` gives what the hash determines (owner, kind, pool, deadline,
  flash block), so that the signer of an order, its recorded address and its owner are one.
  `Env.arrange` is the order in which a hash set is walked. Every theorem holds for every `Env`;
  the few that need it assume that walking a set visits each element once (`Faithful`).
- Times, results of validation futures, readiness of futures and the next event are inputs.
  Wake-ups, metrics, logs and telemetry are not modelled. Integers are unbounded; that they fit
  an `i64` in the election is a theorem.
- The wait loops of `new_block` and `reorg` are preconditions of the calls that follow them.
- Storage is a map from hashes to entries with the keys of the price index beside it: removing a
  booked limit order whose price level is gone takes it out without handing it back
  (crates/order-pool/src/limit/pending.rs:78-88), which is why `HandedBackIff` and `StepSound`
  state exactly when an order can get lost. `level` stands for side and priority.
- Claims recorded before the owner is known are a map keyed by order and signer, where the source
  nests two maps.
- The log `out` merges the answers, the broadcasts, the calls to the validator and the events for
  the pool manager into one sequence, in the order the code sends them.
- The assertion on a block filled twice is part of `Finalization`; the pool's own steps go on past
  it, so what is proved of them holds of every run that does not stop there.

Where code and text differ the code is followed:

- The documentation of `is_transitioning` (crates/types/src/block_sync.rs:29-34) says that it is
  true when all modules have signed off; the code returns false then.
- The election test at crates/consensus/src/leader_selection.rs:397-400 expects a spread of at
  most 2T after scaling; the code gives 1.001 times that in general (`ScalingCanMissThreshold`,
  `ThresholdMetIff`, `PreparedSpread`).
- A displaced order is not always put back: `HandedBackIff` has the exact condition, and the
  lemmas in `OrderLost` say what becomes of one that is not.
- A node that asks for a leader at its start block is, in general, a round ahead of one that asks
  later; `SteppingIsCatchingUpIff` has the exact condition. Validators start at priority zero
  (crates/types/primitives/src/consensus/mod.rs:24-30).
- Adding a pool makes no place for its parked orders, because the second of two inserts is joined
  to the first by a lazy "or" (crates/order-pool/src/limit/standard.rs:239-250); the model does the
  same.

## Model

| member | source | states |
|---|---|---|
| `BlockSyncRuns.BarrierAgreement` | crates/types/src/block_sync.rs:121-266 | In every run of register, propose and in-order sign-off calls, completed ++ pending is exactly what was queued, in order; each completed proposal was signed by exactly the modules that had joined by then, each woken with the waker it gave; and the shared block is that of the last completed progression, or the initial one. |
| `BlockSyncRuns.SignCompletes` | crates/types/src/block_sync.rs:203-266 | A sign-off in turn is accepted, and it completes the front proposal if and only if its module was the only one that had not signed it. |
| `BlockSyncRuns.NoPanic` | crates/types/src/block_sync.rs:155-266 | No enabled call in any reachable state panics, so neither does an `unwrap` in a reset. |
| `BlockSyncRuns.NotStuck` | crates/types/src/block_sync.rs:179-265 | In every reachable state each queue matches a prefix of the pending proposals and some registered module has an empty queue, so a fully signed front never stays pending. |
| `BlockSyncRuns.ProducerWait` | crates/types/src/block_sync.rs:105-147 | In every reachable state the producer waits if and only if the module set is final and some queue is not empty. |
| `BlockSyncRuns.BlockIsQueued` | crates/types/src/block_sync.rs:121-136 | In every reachable state a block proposed once the wait is over changes nothing if it is the last pending one, and otherwise is queued behind everything pending, however much that is. |
| `BlockSyncRuns.DroppedIff` | crates/types/src/block_sync.rs:121-136 | A proposed block is dropped if and only if it is the one queued last and not yet completed, as the history of calls has it. |
| `BlockSyncRuns.SignOffOutOfTurn` | crates/types/src/block_sync.rs:155-231 | In every reachable state a sign-off for something not pending changes nothing; it is let pass if and only if the module has signed nothing since it registered and the block is not after the last completed one, and panics otherwise. |
| `BlockSyncMeaning.SignOnMeans` | crates/types/src/block_sync.rs:155-266 | In any state, a sign-off for something pending goes to the end of its queue and completes the oldest proposal if and only if then the oldest sign-off of every module is for this very one; that takes the oldest off every queue, and stores a block only if a block was signed and a block was oldest. |
| `BlockSyncMeaning.WakesMean` | crates/types/src/block_sync.rs:253-265 | In any state, everybody is woken exactly when a proposal completes, once, with the waker of its own oldest sign-off. |
| `BlockSyncMeaning.CompletionAgrees` | crates/types/src/block_sync.rs:239-252 | In any state, and in or out of turn, nothing completes unless all modules have signed for the same block, or all for a reorg. |
| `BlockSyncMeaning.RegisterMeans` | crates/types/src/block_sync.rs:288-303 | Refused once the set is final; a first registration opens an empty queue and marks the module as joining; a second one empties the queue and panics. |
| `BlockSyncMeaning.WaitMeans` | crates/types/src/block_sync.rs:105-119 | The producer waits if and only if the set is final, something is signed, and not everybody has signed the block before as its oldest. |
| `BlockSyncRuns.MissingSignOffsComplete` | crates/types/src/block_sync.rs:203-266 | From every state that meets the invariant, sign-offs of just the missing modules lead to the completion of the front proposal. |
| `BlockSync.GlobalBlockSync.IsTransitioningNow` | crates/types/src/block_sync.rs:105-119 | The scan over the modules computes "not all fronts are this block, and final, and not all empty". |
| `BlockSync.GlobalBlockSync.NewBlockProposal` | crates/types/src/block_sync.rs:121-136 | Queues the block, unless it is already the last one pending. |
| `BlockSync.GlobalBlockSync.ReorgProposal` | crates/types/src/block_sync.rs:138-147 | Queues the range, even if it is there already. |
| `BlockSync.GlobalBlockSync.RegisterModule` | crates/types/src/block_sync.rs:288-303 | Ignored after finalisation; a second registration has emptied the queue by the time it panics. |
| `BlockSync.GlobalBlockSync.FrontsAgree` | crates/types/src/block_sync.rs:239-252 | The scan finds out whether every module has signed and every front equals the sign-off. |
| `BlockSync.GlobalBlockSync.ResetFronts` | crates/types/src/block_sync.rs:253-265 | Every front is popped and every popped waker fired, once. |
| `BlockSync.GlobalBlockSync.SignOffReorg` | crates/types/src/block_sync.rs:155-201 | The whole new state, the outcome and the wakers fired by a reorg sign-off. |
| `BlockSync.GlobalBlockSync.SignOffOnBlock` | crates/types/src/block_sync.rs:203-266 | The whole new state, the outcome and the wakers fired by a block sign-off, with the late joiner let through. |
| `RacingSigners.RacingSignersSafe` | crates/types/src/block_sync.rs:233-265 | With sign-off split into check, push, scan, pop and reset, one thread a module, and proposals queued only when the queues are reset and no signer of the round before can still pop: in every interleaving nothing panics, completed ++ pending is what was queued, and at most one signer resets. |
| `RacingSigners.AllReturned` | crates/types/src/block_sync.rs:233-265 | When all signers of a round have returned, the proposal is done, every queue is empty and each module has been woken exactly once with the waker it gave. |
| `RacingRefinement.StepRefines` | crates/types/src/block_sync.rs:203-266 | Each racing step is one atomic call (the proposal, or the sign-off at the push) or changes nothing seen from the atomic barrier. |
| `RacingRefinement.PushRefines` | crates/types/src/block_sync.rs:203-252 | The push is the atomic sign-off, and it is the completing one exactly if everybody else has pushed. |
| `RacingRefinement.SettledAbs` | crates/types/src/block_sync.rs:233-265 | Once the queues are reset the racing fields are the atomic ones, whoever is still on the way out. |
| `RacingRefinement.HarmlessIff` | crates/types/src/block_sync.rs:233-265 | The signers a producer has to wait for are exactly those bound to pop and those whose scan can still succeed on sign-offs of the new proposal. |
| `RacingRefinement.EarlyProposalIsSwallowed` | crates/types/src/block_sync.rs:121-136 | With a signer about to pop or done scanning, the producer is not kept waiting, and the proposal it queues is completed with no sign-off at all and the reset panics. |
| `RacingRefinement.SwallowedSignersPanic` | crates/types/src/block_sync.rs:203-231 | Any module that has returned and then comes to sign the swallowed proposal panics. |
| `RacingRefinement.EarlyTwinIsSwallowed` | crates/types/src/block_sync.rs:138-147 | With a signer that has other modules left to scan and a new proposal signed alike (two reorgs), some run completes the new proposal without that signer and panics. |
| `RacingRefinement.HarmfulSwallows` | crates/types/src/block_sync.rs:121-147 | So the assumption is the weakest: with any signer that is not harmless, some continuation completes the new proposal without it and panics. |
| `RacingRefinement.LateSignerReachable` | crates/types/src/block_sync.rs:233-265 | Two modules and one proposal reach such a state. |
| `LeaderElection.WeightedRoundRobin.constructor` | crates/consensus/src/leader_selection.rs:21-28 | The set the list makes, the start block, and no election held. |
| `LeaderElection.FirstIsKept` | crates/consensus/src/leader_selection.rs:21-28 | Every listed address is in that set, with the first validator listed for it. |
| `LeaderElection.WeightedRoundRobin.Foremost` | crates/consensus/src/leader_selection.rs:47-71 | In whatever order the set is walked, the maximum by priority and then address is found. |
| `LeaderElection.WeightedRoundRobin.ProposerSelection` | crates/consensus/src/leader_selection.rs:34-60 | Every priority is raised by the power, the foremost is returned, and it alone pays the total power. |
| `LeaderElection.WeightedRoundRobin.CenterPriorities` | crates/consensus/src/leader_selection.rs:73-85 | Every priority is lowered by the average, rounded toward zero. |
| `LeaderElection.WeightedRoundRobin.PriorityRange` | crates/consensus/src/leader_selection.rs:88-98 | The least and the greatest priority. |
| `LeaderElection.WeightedRoundRobin.ScalePriorities` | crates/consensus/src/leader_selection.rs:87-116 | Nothing if the spread is at most 2T; otherwise every priority is divided by the rounded-down factor, toward zero. |
| `LeaderElection.WeightedRoundRobin.CatchUp` | crates/consensus/src/leader_selection.rs:132-141 | The loop runs exactly the missed rounds and its leader is that of the last of them. |
| `LeaderElection.WeightedRoundRobin.ChooseProposer` | crates/consensus/src/leader_selection.rs:118-142 | The state and answer of a call in terms of rounds of the set, whatever the iteration order. |
| `LeaderElection.WeightedRoundRobin.AddValidator` | crates/consensus/src/leader_selection.rs:149-155 | A newcomer starts 1.125 T behind zero; a known address is left as it is. |
| `LeaderMeaning.CentredIff` | crates/consensus/src/leader_selection.rs:73-85 | Centring is the one common shift after which the priorities sum to less than their number, on the side of zero the sum was on: so division rounds toward zero. |
| `LeaderMeaning.ScaleMeans` | crates/consensus/src/leader_selection.rs:87-116 | Scaling leaves priorities spread by at most 2T alone; otherwise each is a thousandfold divided toward zero by one factor, itself the thousandfold spread over 2T rounded down. |
| `LeaderMeaning.SelectionMeans` | crates/consensus/src/leader_selection.rs:34-60 | The elected validator is ahead of every other, by priority and then address, once all are raised by their power; it alone then loses the total. |
| `LeaderMeaning.RoundMeans` | crates/consensus/src/leader_selection.rs:132-141 | A round is such a centring, then such a scaling, then such an election. |
| `LeaderMeaning.ChooseMeans` | crates/consensus/src/leader_selection.rs:118-142 | A call for a later block runs one such round for each block and answers with the leader of the last; the first call for the stored block holds an election without centring or scaling; any other call for it changes nothing. |
| `LeaderMeaning.JoinMeans` | crates/consensus/src/leader_selection.rs:149-155 | A newcomer gets 1000 times the power asked for and starts nine eighths of the total of the others below zero, rounded toward zero; nobody else changes. |
| `LeaderBounds.CenterStraddles` | crates/consensus/src/leader_selection.rs:73-85 | After centring some priority is at most zero and some is at least zero, despite truncation. |
| `LeaderBounds.PreparedSpread` | crates/consensus/src/leader_selection.rs:87-116 | From any centred priorities, 1000 times the spread after scaling is at most 2002 T. |
| `LeaderBounds.ThresholdMetIff` | crates/consensus/src/leader_selection.rs:99-115 | The spread comes down to 2T if and only if what rounding the factor lost is at most what rounding the two extremes lost. |
| `LeaderBounds.ScalingCanMissThreshold` | crates/consensus/src/leader_selection.rs:99-115 | The spread promised by the test at lines 397-400 is not met in general: with T = 1000 two centred priorities 2001 apart go through centring and scaling unchanged. |
| `LeaderBounds.RoundStabilises` | crates/consensus/src/leader_selection.rs:34-116 | From any priorities whatever, one centre, scale and select round puts every priority p in -2002 T <= 1000 p <= 3002 T. |
| `LeaderBounds.InBandFits` | crates/consensus/src/leader_selection.rs:34-116 | For a total power and validator count under an explicit bound, a round from inside the band keeps every intermediate value, partial sums in any order included, within an i64. |
| `LeaderBounds.LaterRoundsFitI64` | crates/consensus/src/leader_selection.rs:118-142 | After the first round of a fixed set no later round leaves the band or overflows. |
| `LeaderFairness.FairnessLedger` | crates/consensus/src/leader_selection.rs:34-60 | From zero priorities, over any k rounds without scaling, priority = k * power - wins * T > -T. |
| `LeaderFairness.AlwaysSolvent` | crates/consensus/src/leader_selection.rs:34-85 | Over such rounds the priorities sum to zero and none reaches -T. |
| `LeaderFairness.CreditBound` | crates/consensus/src/leader_selection.rs:34-60 | Over such rounds no validator is ever owed more than T/2 + ... + T/n. |
| `LeaderFairness.FewNeverScale` | crates/consensus/src/leader_selection.rs:87-116 | With up to three validators from zero, scaling never fires. |
| `LeaderFairness.FewValidatorsFair` | crates/consensus/src/leader_selection.rs:34-142 | With up to three validators, |k * power - wins * T| < T for every validator after any number of rounds. |
| `LeaderRoundRobin.RingExists` | crates/consensus/src/leader_selection.rs:62-71 | Every set of validators can be listed from the largest address down. |
| `LeaderRoundRobin.StateAfter` | crates/consensus/src/leader_selection.rs:34-116 | The whole state after k rounds of n equal validators from zero, in closed form; scaling never fires. |
| `LeaderRoundRobin.ExactRoundRobin` | crates/consensus/src/leader_selection.rs:34-71 | Round k elects the (k mod n)-th largest address, and centring and scaling change nothing. |
| `LeaderRoundRobin.LapsReturn` | crates/consensus/src/leader_selection.rs:34-116 | After every full lap the state is the initial one. |
| `LeaderRoundRobin.EveryWindowElectsAll` | crates/consensus/src/leader_selection.rs:118-142 | Any n consecutive rounds elect every validator ... |
| `LeaderRoundRobin.WindowElectsOnce` | crates/consensus/src/leader_selection.rs:118-142 | ... and no two of them elect the same one. |
| `LeaderCatchUp.RoundsCompose` | crates/consensus/src/leader_selection.rs:132-141 | j rounds and then k rounds are j + k rounds. |
| `LeaderCatchUp.ChooseTwice` | crates/consensus/src/leader_selection.rs:124-130 | Asking again for the same block changes nothing and gives the same answer. |
| `LeaderCatchUp.ChooseThenLater` | crates/consensus/src/leader_selection.rs:118-142 | A call above the stored block and then a later one end as the later one alone. |
| `LeaderCatchUp.SteppingIsCatchingUp` | crates/consensus/src/leader_selection.rs:118-142 | Any ascending calls end in the state and leader of one call for the last block, from any priorities, if the first is above the stored block or an election has been held. |
| `LeaderStartBlock.StartBlockCallIsARound` | crates/consensus/src/leader_selection.rs:124-130 | From zero priorities a first call at the start block runs one election more, so that state and leader are those of one round later from then on. |
| `LeaderStartBlock.StartBlockCallShowsIff` | crates/consensus/src/leader_selection.rs:118-142 | That shows in every later state and answer if and only if no validator holds all the power. |
| `LeaderStartBlock.SteppingIsCatchingUpIff` | crates/consensus/src/leader_selection.rs:118-142 | Ascending calls end in the state and leader of one call for the last block if and only if the first is above the start block, or an election has been held, or no call goes beyond the start block, or one validator holds all the power. |
| `LeaderStartBlock.FixedPointConcentrates` | crates/consensus/src/leader_selection.rs:34-116 | Whatever the priorities, a centre, scale and select round changes nothing only if its leader holds all the power. |
| `LeaderStartBlock.StartBlockCallDesynchronises` | crates/consensus/src/leader_selection.rs:124-130 | With two or more equal validators the two callers name different leaders for every later block. |
| `LeaderCatchUp.JoinStaysInBand` | crates/consensus/src/leader_selection.rs:149-155 | A newcomer keeps the set inside the band. |
| `LeaderCatchUp.JoinsBehindAll` | crates/consensus/src/leader_selection.rs:149-155 | While nobody owes a full turn, a newcomer starts strictly behind everyone, and nobody else moves. |
| `Pipeline.OrderValidator.ClearForNewBlock` | crates/order-pool/src/validator.rs:84-108 | Panics in every state but regular processing; otherwise the futures in flight are kept and the queue is empty. |
| `Pipeline.OrderValidator.NotifyValidationOnChanges` | crates/order-pool/src/validator.rs:110-134 | Only out of the clean-up state; the queue is kept. |
| `Pipeline.OrderValidator.ValidateOrder` | crates/order-pool/src/validator.rs:136-153 | In flight when processing is regular, at the end of the queue otherwise. |
| `Pipeline.OrderValidator.HandleInform` | crates/order-pool/src/validator.rs:159-180 | The queue is drained into regular processing in order. |
| `Pipeline.OrderValidator.PollOnce` | crates/order-pool/src/validator.rs:189-244 | The new state and the item yielded, in each of the four states. |
| `PipelineRuns.ValidationEpochs` | crates/order-pool/src/validator.rs:84-244 | In every run each result was started and delivered between the same two block changes, and while the validator is being told of a block nothing is in flight. |
| `PipelineRuns.PipelineConserves` | crates/order-pool/src/validator.rs:84-244 | In every run submitted = delivered + in flight + queued, and orders are started in arrival order. |
| `PipelineRuns.BlockChangesPair` | crates/order-pool/src/validator.rs:84-244 | Each block change yields one clear event, with everything started by then delivered, then one complete event, and nothing comes without a call. |
| `PipelineRuns.PollYields` | crates/order-pool/src/validator.rs:189-244 | Which item a poll yields in any state, if and only if: a finished result, the clear event with nothing in flight, the complete event once the validator was told, the end of the stream in regular processing with nothing in flight. |
| `PipelineRuns.FinishedIsDelivered` | crates/order-pool/src/validator.rs:189-244 | In every stage with jobs in flight a finished one is delivered by the next poll for it, and it alone leaves. |
| `PipelineRuns.BlockChangeEnds` | crates/order-pool/src/validator.rs:84-244 | From every stage of a block change some polls deliver all jobs in flight, yield one clear event unless it has come, then one complete event, and resume regular processing with exactly what was queued. |
| `OrderCancel.StrangerStep` | crates/order-pool/src/order_indexer.rs:119-183 | A cancel request not made by the owner is refused and changes nothing but claims nobody acts on. |
| `OrderCancel.StrangersDoNotInterfere` | crates/order-pool/src/order_indexer.rs:119-183 | Deleting every request of a non-owner from any run leaves the pool, all it sends, its validator calls and every answer to an owner as they were. |
| `OrderCancel.RunKeepsOwners` | crates/order-pool/src/order_tracker.rs:192-266 | Every confirmed cancellation of any run is by the owner of the order. |
| `OrderClaims.OwnersCancelIsRecorded` | crates/order-pool/src/order_indexer.rs:119-183 | The owner's signed request leaves a claim on record if and only if there was one already or the order has not been found invalid in this block. |
| `OrderRequests.CancelTrueIff` | crates/order-pool/src/order_indexer.rs:119-183 | A cancel request is answered with true if and only if it is signed by the owner and the cancellation is confirmed already, or the order is indexed, not found invalid, and awaits finalisation or is stored where a cancellation can reach it. |
| `OrderRequests.CancelEffect` | crates/order-pool/src/order_indexer.rs:119-183 | A request that confirms the cancellation: the order leaves the index and is flagged in storage unless it awaits finalisation; exactly the owner's parked and top-of-block orders go back to the validator, each once; no other entry changes; the release is sent first and the cancellation last, each once. |
| `OrderRequests.CancelOtherwise` | crates/order-pool/src/order_tracker.rs:201-266 | Any other request leaves the pool as it is and records at most one claim, of 84000 seconds. |
| `OrderRequests.CancelledLeavesStorage` | crates/order-pool/src/order_indexer.rs:119-183 | Whatever happens in between, an order whose cancellation was confirmed while it did not await finalisation is out of storage after the end of the block. |
| `OrderRequests.SubmissionMeans` | crates/order-pool/src/order_indexer.rs:185-232 | Every submission is refused as cancelled if the owner has a claim, else as a duplicate if the order is indexed or was found invalid in this block, telling all who wait and changing nothing else; else the caller waits, the peer is added to those on record, and one validation of the given origin starts if and only if none was marked. |
| `OrderClaims.ClaimStands` | crates/order-pool/src/order_tracker.rs:192-241 | No step but the end of a block ends the owner's claim. |
| `OrderClaims.ClaimAfterBlock` | crates/order-pool/src/order_tracker.rs:124-138 | The owner's claim stands after the end of a block if and only if its deadline, or the order's own if the order was purged, is more than a block time away. |
| `OrderClaims.CancellationWins` | crates/order-pool/src/order_indexer.rs:197-389 | Once the owner has a claim, no run whose block changes it outlives announces, propagates, stores or indexes the order again, whatever arrives and whatever validations finish, and the claim stands. |
| `OrderClaims.ResultForClaimed` | crates/order-pool/src/order_indexer.rs:317-357 | A current result for a claimed order first releases the reservation, leaves the order out of the index with the cancellation confirmed, and tells every waiting caller it was cancelled. |
| `OrderCancel.ResultClaims` | crates/order-pool/src/order_indexer.rs:287-411 | A current result for a claimed order confirms the cancellation until the order expires; no other result touches one. |
| `OrderResults.ResultHandled` | crates/order-pool/src/order_indexer.rs:287-398 | Whichever way a result is handled: its waiting callers are all answered with the reply that fits and forgotten, the order is announced and propagated only if the result is current and unclaimed, no other order is heard of, no mark or validation of another order is lost, and the peers of the order are forgotten. |
| `OrderAnswers.EveryCallerAnsweredOnce` | crates/order-pool/src/order_indexer.rs:185-398 | Over every run the callers of an order are answered once each, in the order they came; whoever still waits waits for an order marked as validating with a validation in flight or queued, and so do recorded peers; with none outstanding all have been answered. |
| `OrderAnswers.OtherSilent` | crates/order-pool/src/order_indexer.rs:99-183 | Every other event (cancellations, new and finalised blocks, reorgs, pools) says nothing to callers, loses no mark and no validation, and neither stores nor indexes an order. |
| `OrderDisplaced.HandedBackIff` | crates/order-pool/src/limit/pending.rs:78-88 | A removal hands the order back if and only if it is top-of-block or parked, or its price level is there and no order removed before it sat at that level. |
| `OrderDisplaced.AllHandedBack` | crates/order-pool/src/limit/pending.rs:78-88 | With no level shared, exactly the stored orders asked for are handed back. |
| `OrderDisplaced.SharedLevelLosesAnOrder` | crates/order-pool/src/limit/pending.rs:78-88 | Of two booked orders at one level, taking both out of storage hands back only the first. |
| `OrderLost.ResultLosesAnOrder` | crates/order-pool/src/order_indexer.rs:287-429 | Two idle booked orders at one price level displaced by one result: on every way out the second ends up indexed, not stored, not marked and without a validation. |
| `OrderLost.LostOrderReachable` | crates/order-pool/src/order_indexer.rs:287-429 | Three orders of any pool lead there from the start. |
| `OrderLost.LostStaysLost` | crates/order-pool/src/order_indexer.rs:185-429 | In every run, for as long as the index holds it, a lost order is not stored, not awaiting finalisation, not marked and has no validation outstanding. |
| `OrderLost.LostLeavesOnlyByBlock` | crates/order-pool/src/order_tracker.rs:124-182 | Only a fill reported for it, or its expiry, at the end of a block takes a lost order out of the index. |
| `OrderLost.LostSubmissionRefused` | crates/order-pool/src/order_indexer.rs:197-223 | A new submission of a lost order is answered on the spot as a duplicate, or as cancelled if the owner has a claim, and nothing is validated. |
| `OrderDisplaced.DisplacedGoesBack` | crates/order-pool/src/order_indexer.rs:287-429 | On all three ways out, a displaced order that is indexed and stored leaves storage, stays indexed, and gains exactly one validation and the mark if it was handed back, and neither otherwise. |
| `OrderDisplaced.AcceptedStoredIff` | crates/order-pool/src/order_indexer.rs:431-448 | An accepted order not stored before is stored if and only if its pool exists and, for a parked limit order, has a place to park it. |
| `OrderParking.RunParkable` | crates/order-pool/src/limit/standard.rs:239-250 | In every run only pools the node started with can park orders. |
| `OrderParking.LatePoolParksNothing` | crates/order-pool/src/limit/standard.rs:135-157 | A valid but not yet executable limit order of a pool added later is announced, indexed and propagated, and stored nowhere. |
| `OrderDisplaced.ResultEffect` | crates/order-pool/src/order_indexer.rs:287-429 | Storage, marks, index and outstanding validations after a result, on all three ways out. |
| `OrderDisplaced.StaleOutput` | crates/order-pool/src/order_indexer.rs:294-312 | The stale way out, item by item: callers, release, displaced orders, peers; the release comes before every resubmission. |
| `OrderDisplaced.CancelledOutput` | crates/order-pool/src/order_indexer.rs:317-357 | The cancelled way out, item by item, with the release first and the cancellation announced only if the order had been. |
| `OrderDisplaced.AcceptedOutput` | crates/order-pool/src/order_indexer.rs:358-390 | The accepted way out, item by item: announced, callers, displaced orders, propagated. |
| `OrderDisplaced.InvalidOutput` | crates/order-pool/src/order_indexer.rs:391-398 | The invalid way out: callers and peers, and the order is out of storage and remembered as invalid while the index and the pipeline stay as they are. |
| `OrderOwners.ResultTracker` | crates/order-pool/src/order_indexer.rs:287-398 | Index, invalid orders, senders and waiting callers after a result, on all four ways out. |
| `OrderOwners.ResultFiling` | crates/order-pool/src/order_tracker.rs:192-199 | A result that is taken files the order under its owner; no other filing changes. |
| `OrderOwners.RunFiled` | crates/order-pool/src/order_tracker.rs:192-199 | In every run each stored order is filed under its owner, and nothing is filed under another address. |
| `OrderOwners.BlockFiling` | crates/order-pool/src/order_indexer.rs:500-533 | After a block change what is filed is what was, but for orders whose time is over and for everything under a changed account. |
| `OrderOwners.StoredAfterBlock` | crates/order-pool/src/order_indexer.rs:500-533 | At the end of a block of any run an order stays stored if and only if it was stored, was neither filled nor cancelled, has time left, and its owner's account did not change. |
| `OrderEffects.ResultSettles` | crates/order-pool/src/order_tracker.rs:192-241 | A result that is taken or confirms a cancellation settles the claims on its order and no others; what it confirms stands to the order's deadline or, without one, until the next block change. |
| `OrderEffects.PurgedAre` | crates/order-pool/src/order_indexer.rs:482-498 | With no level shared, the end of a block purges exactly the stored orders asked to be cancelled that it does not find filled, and confirms their cancellations for that long. |
| `OrderEffects.ReorgEffect` | crates/order-pool/src/order_indexer.rs:251-261 | A reorg takes exactly the named orders that await finality, announces each as unfilled and starts one local validation of it; nothing else changes. |
| `OrderEffects.FinalityEffect` | crates/order-pool/src/order_indexer.rs:247-249 | Finality of a block lets go of exactly the orders listed under it that still wait, and of that list. |
| `OrderEffects.BlockAwaits` | crates/order-pool/src/order_indexer.rs:264-283 | At the end of a block the fills it names wait for finality as they were stored, listed under that block; a block without fills changes nothing about finality. |
| `OrderEffects.RemovePoolEffect` | crates/order-pool/src/order_indexer.rs:99-104 | Removing a pool drops its orders from storage and announces as expired, each once, those parked or not asked to be cancelled, which alone leave the index, the senders on record and the files of their owners; orders of other pools stay. |
| `OrderEffects.AddPoolEffect` | crates/order-pool/src/order_indexer.rs:466-468 | A pool that is added can take orders and park no more than before; nothing else changes. |
| `OrderEffects.BlockBegins` | crates/order-pool/src/order_indexer.rs:470-480 | In regular processing a block begins to clear under its own notice with the jobs in flight; at any other time, where the source panics, the pool stays as it is. |
| `OrderEffects.PollMeans` | crates/order-pool/src/order_indexer.rs:542-565 | One poll in each stage: the result of a finished job is handled out of flight; a clearing pool with nothing in flight ends its block under its own notice; a pool whose validator was told resumes and reports the new block; else nothing. |
| `OrderLevels.StepSound` | crates/order-pool/src/limit/pending.rs:39-47 | A step keeps the price levels of booked orders apart if and only if it does not book an order at an occupied level. |
| `OrderLevels.NoDisplacedOrderIsLost` | crates/order-pool/src/order_indexer.rs:287-429 | In any run without such a booking, whatever result comes next loses no displaced order: it is marked, indexed and has one more validation. |
| `OrderBlocks.BlockChangeEffect` | crates/order-pool/src/order_indexer.rs:500-533 | The passes over fills, cancellations, expiries and changed accounts come to one condition per order for the index, for storage and for the finalization pool; all that is sent is the fills, the expiries, the validations started again and, last, what the validator is told; each order expires or goes back at most once and only if it should, and with no level shared exactly those that should. |
| `OrderTracking.OrderTracker.CancelTracked` | crates/order-pool/src/order_tracker.rs:243-266 | Succeeds only for the owner of an indexed order that storage can cancel; otherwise a claim is kept, unless the index knows another owner. |
| `OrderTracking.OrderTracker.NewValidOrder` | crates/order-pool/src/order_tracker.rs:192-199 | Claims and peers of the order go; it is indexed by hash and by address. |
| `OrderTracking.OrderTracker.InsertCancelWithDeadline` | crates/order-pool/src/order_tracker.rs:218-241 | The claim is confirmed and the pending ones on the order go. |
| `OrderTracking.OrderTracker.HandlePoolRemoved` | crates/order-pool/src/order_tracker.rs:97-107 | The orders leave the three maps, and addresses without orders go too. |
| `OrderTracking.OrderTracker.FilledOrders` | crates/order-pool/src/order_tracker.rs:170-182 | Filled orders leave the index and storage; those handed back, in order. |
| `OrderTracking.OrderTracker.RemoveExpiredOrders` | crates/order-pool/src/order_tracker.rs:124-168 | Exactly the claims and indexed orders whose time is over go. |
| `OrderTracking.OrderTracker.InvalidVerificationOf` | crates/order-pool/src/order_tracker.rs:118-122 | The peers that sent the order, which is remembered as invalid. |
| `OrderTracking.OrderSubscriptionTracker.NotifyExpiredOrders` | crates/order-pool/src/order_subscribers.rs:56-63 | One expiry for each order, in order. |
| `OrderTracking.OrderSubscriptionTracker.NotifyValidationSubscribers` | crates/order-pool/src/order_subscribers.rs:65-85 | Every waiting caller is sent the result, in order, and forgotten. |
| `OrderIndexing.OrderIndexer.Cancel` | crates/order-pool/src/order_indexer.rs:119-183 | Answer and whole new state of a cancel request. |
| `OrderIndexing.OrderIndexer.Submission` | crates/order-pool/src/order_indexer.rs:185-232 | Whole new state after a submission over RPC or the network. |
| `OrderIndexing.OrderIndexer.HandleValidatedOrder` | crates/order-pool/src/order_indexer.rs:287-398 | Whole new state after a result. |
| `OrderIndexing.OrderIndexer.RevalidateInvalidatedOrders` | crates/order-pool/src/order_indexer.rs:415-429 | All displaced orders are taken out first, then each is marked and submitted. |
| `OrderIndexing.OrderIndexer.Fill` | crates/order-pool/src/order_indexer.rs:264-283 | Filled orders move to the finalization pool and are announced. |
| `OrderIndexing.OrderIndexer.Purge` | crates/order-pool/src/order_indexer.rs:482-498 | Cancelled orders leave storage and their cancellations get the order's own deadline. |
| `OrderIndexing.OrderIndexer.EoaStateChange` | crates/order-pool/src/order_indexer.rs:234-245 | The orders of each changed account leave storage and go back to the validator. |
| `OrderIndexing.OrderIndexer.FinishNewBlockProcessing` | crates/order-pool/src/order_indexer.rs:500-533 | Whole new state after a block change. |
| `OrderIndexing.OrderIndexer.Reorg` | crates/order-pool/src/order_indexer.rs:251-261 | Orders of reorged blocks are announced as unfilled and validated again. |
| `OrderIndexing.OrderIndexer.DropPool` | crates/order-pool/src/order_indexer.rs:99-104 | The orders of the pool leave storage and tracker and are announced as expired. |
| `OrderIndexing.OrderIndexer.PollOnce` | crates/order-pool/src/order_indexer.rs:542-565 | One turn of the polling loop: the new state, whether there is more, and the event reported. |
| `PoolSignOff.SignOffAfterTheWork` | crates/angstrom-net/src/pool_manager.rs:384-405 | In every run each block is signed off after exactly the validations begun before its transition were handled and the validator was told of it, and between polls the pipeline never rests in the clean-up state. |
| `PoolSignOff.SignsInDeliveredOrder` | crates/angstrom-net/src/pool_manager.rs:285-302 | The pool signs the proposals in the order delivered if and only if no reorg is delivered while a block is being changed; and then it owes at most that block. |
| `PoolSignOff.FinishInforms` | crates/order-pool/src/order_indexer.rs:500-533 | The end of the old block leads straight from the clean-up state to telling the validator. |
| `PoolSignOff.MidwayReorgReachable` | crates/angstrom-net/src/pool_manager.rs:285-302 | A block and a reorg delivered right after it are signed the other way round. |
| `PoolProgress.OwedBlockIsSigned` | crates/angstrom-net/src/pool_manager.rs:384-405 | From every state that meets the invariant with a block delivered and not signed, some polls, whatever the validations say, sign exactly that block and leave the pool in regular processing. |
| `PoolProgress.ChainDrivesPool` | crates/angstrom-net/src/pool_manager.rs:285-302 | Each chain event moves the pool by exactly its own event, and signs a reorg at once, a block when the validator has been told of it, and nothing else. |
| `PoolProgress.RunsArePoolRuns` | crates/angstrom-net/src/pool_manager.rs:285-302 | Every run of the manager is a run of the pool, so what is proved of those holds for it. |
| `PoolBarrier.PoolFitsTheBarrier` | crates/angstrom-net/src/pool_manager.rs:285-405 | In step with the barrier, wherever in the queue it joined, whatever the pool signs is the proposal whose turn it is; the barrier accepts it and keeps its invariant. |
| `PoolBarrier.PoolAndBarrierAgree` | crates/angstrom-net/src/pool_manager.rs:285-405 | In every joint run of producer, pool and other modules, with the queue delivered in order and no reorg midway, every sign-off of the pool is in turn, the barrier keeps its agreement, and it has exactly the pool's sign-offs on record. |
| `PoolBarrier.BatchIsSigns` | crates/angstrom-net/src/pool_manager.rs:384-408 | Signing off on all transitions found in one go is a sign-off in turn on each of them. |
| `PoolManagement.PoolManager.OnNewBlock` | crates/angstrom-net/src/pool_manager.rs:287-294 | A new block opens a transition, unsigned; one on top of another trips the assertion. |
| `PoolManagement.PoolManager.OnReorg` | crates/angstrom-net/src/pool_manager.rs:295-299 | A reorg is handled and signed off at once. |
| `PoolManagement.PoolManager.OnPoolEvents` | crates/angstrom-net/src/pool_manager.rs:384-408 | Every transition reported is signed off, in order. |
| `PoolManagement.ProgressionsConcat` | crates/angstrom-net/src/pool_manager.rs:384-408 | Part by part, each transition reported asks for the sign-off of its block, and nothing else does. |
| `PoolManagement.PoolManager.PollPoolEvents` | crates/angstrom-net/src/pool_manager.rs:470-474 | Polling until nothing is left: the pool moves as its machine says, and exactly the newly signed proposals reach the barrier. |
| `Finalization.FinalizationPool.AddFilled` | crates/order-pool/src/finalization_pool.rs:36-52 | All orders are held before the assertion on a block tracked twice can fire. |
| `Finalization.FinalizationPool.ReorgOrders` | crates/order-pool/src/finalization_pool.rs:58-67 | The held orders among the ids leave, in order; the block lists stay. |
| `Finalization.FinalizationPool.FinalizeBlock` | crates/order-pool/src/finalization_pool.rs:69-83 | The block is no longer tracked and its orders still held are returned. |
| `Finalization.PoolConserves` | crates/order-pool/src/finalization_pool.rs:36-83 | In every run insertions = releases + held + replaced, and every held order is listed under a tracked block. |
| `Finalization.ReleasedStaysOut` | crates/order-pool/src/finalization_pool.rs:58-83 | An order that is out is not released again by any run that does not insert it again. |
| `Finalization.ReorgReturns` | crates/order-pool/src/finalization_pool.rs:58-67 | A reorg returns exactly the held orders asked for, each once and as it was held; the others, and the lists of the blocks, stay. |
| `Finalization.FinalizedReturns` | crates/order-pool/src/finalization_pool.rs:69-83 | Finalizing a block returns exactly the held orders listed under it, each once, and forgets that list and no other. |
| `Finalization.FilledAreHeld` | crates/order-pool/src/finalization_pool.rs:36-52 | Filled orders are held, the last of an id replacing the others, beside those held before, and listed under their block only. |
| `Finalization.FinalizingAllEmpties` | crates/order-pool/src/finalization_pool.rs:69-83 | Finalizing all tracked blocks empties both maps. |
| `Finalization.TripsIffTracked` | crates/order-pool/src/finalization_pool.rs:36-52 | After any run, filling a block trips the assertion if and only if the last event that filled or finalized it filled it, or there was none and it was tracked from the start. |
| `LogScan.BuildWindows` | bin/sepolia-bundle-lander/src/env.rs:186-202 | The loop terminates and builds the windows, for any step of at least one. |
| `LogScan.WindowsCover` | bin/sepolia-bundle-lander/src/env.rs:186-202 | Every block from deployment to the end lies in a window no longer than the step. |
| `LogScan.LastLogWins` | bin/sepolia-bundle-lander/src/env.rs:220-256 | A pool is in the result if and only if the last log about it configured it. |
| `LogScan.BoundaryReplayed` | bin/sepolia-bundle-lander/src/env.rs:186-256 | Folding a boundary block twice changes nothing. |
| `LogScan.ChunkedScanIsSingleScan` | bin/sepolia-bundle-lander/src/env.rs:186-256 | For deploy < end and any step the windows yield the pools of one scan over the whole range. |
| `LogScan.NothingToScan` | bin/sepolia-bundle-lander/src/env.rs:186-202 | For deploy >= end no log is read, not even that of the deployment block. |
| `LogScan.FetchPools` | bin/sepolia-bundle-lander/src/env.rs:173-257 | The whole function: the fold of one scan when deploy < end, and nothing otherwise. |

## Left out

- `clear` and `set_block` in the barrier, and whole runs with sign-offs out of order or by unregistered modules; what a single such call does is in `BlockSyncMeaning`.
- RacingSigners.RacingSignersSafe: one pending proposal at a time, and none while a signer of the round before can still pop it; `HarmlessIff` says which signers those are and `HarmfulSwallows` that nothing weaker will do.
- `Processing` proposals: the variant exists and nothing queues it.
- LeaderFairness.FairnessLedger: rounds in which scaling fires are not in the ledger, since scaling rewrites the balances; the band of `RoundStabilises` holds for them.
- Reading the validator set out, and serialisation of the election state.
- OrderDisplaced.DisplacedNeverLost: assumes that no two booked orders share a price level; `HandedBackIff` and `SharedLevelLosesAnOrder` say what happens when they do.
- One hash held both in the book and parked at once, which two accepted results for one order can bring about: the model keeps the later entry.
- Composable orders and the parking of orders on request.
- Gas updates on a block change: the pipeline drops the value of the new-block future, so that branch of the indexer is not reached from it.
- The notification tracker of the subscribers: nothing is ever inserted into it.
- PoolManagement.PoolManager.PollPoolEvents: the bound of thirty turns on the manager's loop, and the halt on commands and network orders while a proposal is pending, are not modelled.
- Peer reputation, propagation caches, session handling and the replies to queries in the pool manager.
- PoolBarrier.PoolAndBarrierAgree: late sign-offs on blocks completed before the pool registered are left to the barrier's own rules.
- Restoring the tracker from a snapshot, order status queries and the order sets handed to consensus.
- Matching, pool arithmetic, account reservations, signatures, hashing and log decoding: keys, verdicts and the validity of a signature are inputs.
- Network, RPC, command-line and test-network code, and token reference counts: they would only add easy members.
