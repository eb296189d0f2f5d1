# Verification of the ocap kernel and its utilities

This project models the parts of the repository whose behaviour depends most on order, interleaving and
bookkeeping, and proves what they keep, over every input, every interleaving or every run. `dafny verify
dfyconfig.toml` checks it.

## What is modelled

**Kernel run loop and router.** `KernelStore`, `KernelAccounting` and `KernelRouting` give the store its
contract: reference counts, promise table, queues, and what resolving, routing, delivering and collecting do to
them, with the references the kernel holds recomputed independently as a multiset. `KernelLoop` is the loop as a
state machine: a step is what runs between two `await`s, and callers may enter at each of them. `RunQueue` and
`Router` are the two classes, with their fields updated in place; each method is proved to do to the object's
state what the state machine's function does to its value, so that `Router.KernelRouter.Perform` is exactly one
step. The theorems about runs are in `LoopConservation` and `LoopLosses` (references), `LoopDeliveries` (where messages
go), `LoopCallers`, `LoopAnswers` and `LoopTelling` (callers), `LoopOutput` (buffered output), `LoopWaking` (wake-ups),
`LoopArrivals` with `PeerArrivals` (peers' arrivals), `CrankAtomicity` and `LoopDecisions` (faults) and `Stranding`;
`KernelRuns` has concrete runs in which something is lost.
`KernelServices` has the registration tables of the kernel's own services and the pins they hold across restarts.

**Capability narrowing.** `Patterns` gives patterns and guards a meaning; `NarrowGuard` compiles deltas into
guards in both renderings; `DeltaAlgebra` has the lattice laws; `Narrowing` the minting library with its
provenance table; `PathUnder` the path pattern.

**Ocap JSON-RPC bridge.** `BridgeTrees` has the two tree walkers over a naming order; `BridgeSession` the two maps
and the counter updated in place, staged and rolled back.

**Guarded fetch.** `GuardedFetch` walks redirects as "HTTP-redirect fetch" in section 4 of the WHATWG Fetch
Standard does, and `SubresourceIntegrity` reads integrity metadata as section 3.3 of W3C Subresource Integrity does.

**Streams.** `StreamReader` has the reader's buffer and the partitioner, `Handshake` two duplex peers over FIFO
channels, `StreamEnds` how the halves of a duplex stream end each other.

**Sheaves and described methods.** `SheafGuards`, `SheafMetadata` and `SheafDispatch` follow a call through the
union guard, the collapse and decomposition of metadata, and the policy. `Described` and `DescribedMethods`
compare the pattern and the schema made of one authored description.

## Where the code falls short of what one would expect of it

Each of these is a property that fails, with the exact condition under which it holds or the input that breaks it.

- A syscall made while a crank is open is buffered for that crank's flush, whoever's crank it is. While an aborted
  crank awaits the end of its vat there will be no flush: what others send or resolve meanwhile is charged, stays in
  memory, and is dropped by the next abort (`KernelRuns.OutputIsLost`, `KernelRuns.CallerIsForsaken`), or the loop goes
  to sleep over it (`KernelRuns.SleepsOverOutput`). The next abort loses nothing if and only if nothing was buffered
  then (`KernelRuns.LateOutputIsLostExactly`); with nothing buffered then, nothing is ever left behind
  (`LoopOutput.NothingLeftBehind`, `LoopWaking.SleepsWithNothingLeft`).
- A send or a resolution refused because a later reference does not exist leaves the references ahead of it charged to
  nobody when nothing rolls it back (`KernelAccounting.RefusedSendLeaks`, `KernelAccounting.RefusedResolutionLeaks`,
  `KernelRuns.RefusedSendIsCharged`, `KernelRuns.RefusedResolutionIsCharged`). This and output
  dropped are the only ways to lose a reference (`LoopLosses.EveryLossHasItsCause`); without either,
  counts are holdings (`LoopLosses.CountsAreHoldings`).
- An abort that ends no vat, whose collection then throws, commits what the collection had done
  (`CrankAtomicity.AbortForgets`, `KernelRuns.AbortCollectsRegardless`).
- A crank that fails leaves the crank buffer empty, also of what it found there
  (`CrankAtomicity.FailedCrankLeavesTheStoreItFound`).
- A kernel service's answer, and any other immediate resolution, reaches its caller at once even if a crank is
  open, and the crank may then roll the resolution back (`CrankAtomicity.AnsweredBeforeCommit`,
  `CrankAtomicity.AnswerForgottenByAbort`, `KernelRuns.AnswerIsForgotten`). It lasts if and only if the crank is not
  undone (`LoopDecisions.AnswerLastsExactly`).
- A message sent to a promise fulfilled with a second promise that has itself settled goes onto the second one's
  queue, which is never drained again (`Stranding.RequeueStrands`, `Stranding.StrandedForGood`,
  `KernelRuns.MessageIsStranded`).
- Releasing a named service's object as if it were anonymous takes its route and pin and leaves its name
  (`KernelServices.ServiceManager.ReleaseAnonymous`); and unregistering a service leaves its object, which no
  operation of the manager ever takes up or deletes (`KernelServices.ServiceManager.Unregister`).
- A longer path prefix narrows a shorter one only if the segments added hold no `..`
  (`PathUnder.LongerPrefixNarrows`).
- A result holding a string shaped like a marker does not come back from its substituted form
  (`BridgeTrees.ResultRoundTrip`).
- Read as an exo reads a rest guard, matching the whole trailing array, a sheaf's collected guard can refuse a call
  one of its sections admits (`SheafGuards.WholeArrayReadingLosesCalls`, `SheafGuards.LosesExactly`); read per
  argument, as dispatch reads it, it cannot (`SheafGuards.CollectedCovers`).
- Property names the locale compares equal let equivalent metadata through the collapse
  (`SheafMetadata.OfferedApartExactly`).
- A policy that throws on being closed turns an answer already given into a failure
  (`SheafDispatch.FirstAnswerWins`, `SheafDispatch.AnswerIsLost`).
- `described.ts` and `discover.ts` say arguments keep their declared order by construction; names that spell array
  indices do not (`DescribedMethods.DeclaredOrderExactly`, `DescribedMethods.IndexLikeNameSwaps`). Repeated names make guard and struct disagree
  (`DescribedMethods.AgreeExactly`).

## Model

| member | source | states |
|---|---|---|
| LoopConservation.EveryRunConserves | packages/ocap-kernel/src/KernelQueue.ts:211-321 | Over every run from a sound store, with any interleaving, abort, termination, refusal and fault, each reference's count equals the number of times the kernel holds it (run queue, crank buffer, promise queues, notifies, resolved values, the item in delivery) plus the number of times it has been lost to a refused operation or a dropped buffer; the one exception, a loop that died of a refused commit with output in memory, is flagged by the state |
| LoopLosses.CountsAreHoldings | packages/ocap-kernel/src/KernelQueue.ts:211-321 | Over every run from a sound store in which nothing is buffered while an aborted crank awaits the end of its vat: in a live loop with no crank open, every count is the number of times the kernel holds its reference if and only if no send and no resolution was refused past its first reference, except in a crank that was aborted |
| LoopLosses.EveryLossHasItsCause | packages/ocap-kernel/src/KernelQueue.ts:211-321 | Over every run from a sound store, a live loop has lost references if and only if such a refusal stands, or an abort has dropped output that held some: each of the two causes loses, and nothing else does |
| LoopConservation.StepConserves | packages/ocap-kernel/src/KernelQueue.ts:597-671 | Any single step, inside or outside a crank, keeps that equality, for the store and for the savepoint |
| KernelAccounting.ResolveOneConserves | packages/ocap-kernel/src/KernelQueue.ts:1167-1221 | A resolution succeeds exactly when the promise is pending, the resolver decides it and every slot exists; it then settles the row, queues a notify per subscriber and every waiting message, and keeps all counts |
| KernelAccounting.ResolvePromisesConserves | packages/ocap-kernel/src/KernelQueue.ts:1167-1221 | A batch of resolutions keeps every count equal to what is held |
| KernelAccounting.RefusedResolutionLeaks | packages/ocap-kernel/src/KernelQueue.ts:1167-1221 | A refused resolution changes counts only, by exactly the slots ahead of the first missing one, and leaves them right exactly when the resolver had no right to resolve or the first slot was the missing one |
| KernelAccounting.RefusedSendLeaks | packages/ocap-kernel/src/KernelQueue.ts:856-870 | A refused send changes counts only, by exactly the references ahead of the first missing one, and leaves them right exactly when the target was the missing one |
| KernelRuns.RefusedSendIsCharged | packages/ocap-kernel/src/KernelQueue.ts:856-870 | A run of two steps from a sound store: a send outside a crank with a missing slot leaves its target charged to nobody |
| KernelRuns.RefusedResolutionIsCharged | packages/ocap-kernel/src/KernelQueue.ts:1167-1221 | A run from a sound store in which a resolution outside a crank leaves its first slot charged and its promise undecided |
| KernelAccounting.SettledStaysSettled | packages/ocap-kernel/src/store/methods/promise.ts:165-190 | A settled promise keeps its value through any later resolutions |
| KernelStore.ChargeAllRaises | packages/ocap-kernel/src/store/methods/refcount.ts:89-130 | Charging a list of references raises each count by its occurrences, and succeeds exactly when all exist |
| KernelStore.ReleaseAllLowers | packages/ocap-kernel/src/store/methods/refcount.ts:146-195 | Releasing references that are owed lowers each count by its occurrences and never runs below zero |
| KernelAccounting.EnqueueSendKeepsSound | packages/ocap-kernel/src/KernelQueue.ts:856-870 | A queued send holds exactly what was charged for it: target, result and slots |
| KernelAccounting.EnqueueNotifyKeepsSound | packages/ocap-kernel/src/KernelQueue.ts:1136-1144 | A queued notify holds exactly the unit charged for its promise |
| KernelAccounting.DrainKeepsSound | packages/ocap-kernel/src/store/methods/promise.ts:217-250 | Draining a promise's queue gives up exactly what its entries held |
| KernelRouting.DeliverItemConserves | packages/ocap-kernel/src/KernelRouter.ts:315-451 | On every routing path (splat, endpoint gone, send, service, requeue, notify) what the item held is released or passed on exactly once, whatever the endpoint does in between |
| LoopDeliveries.DeliveryIsItsSteps | packages/ocap-kernel/src/KernelRouter.ts:315-451 | A whole delivery does to the store what the loop's steps do one by one: its start, the endpoint's operations, and the answer; and it throws exactly where one of them does |
| KernelRouting.RequeueConserves | packages/ocap-kernel/src/KernelRouter.ts:437-448 | Requeueing on a promise hands the references to the new holder before the run-queue item gives them up |
| KernelRouting.NotifyConserves | packages/ocap-kernel/src/KernelRouter.ts:523-580 | A notify's unit is released exactly once, with or without anybody to tell |
| KernelRouting.PendingResultIsRejected | packages/ocap-kernel/src/KernelRouter.ts:292-306 | Rejecting a pending result always succeeds and leaves the promise rejected with the error |
| KernelRouting.RunOpsKeepsSound | packages/ocap-kernel/src/vats/VatSyscall.ts:85-116 | Whatever sequence of store operations an endpoint makes during a delivery keeps the counts, subscribing to a settled promise, revoking an object and giving up its ownership included |
| KernelRouting.FlushConserves | packages/ocap-kernel/src/KernelQueue.ts:704-722 | Flushing moves each buffered item together with its charges |
| KernelRouting.DequeueConserves | packages/ocap-kernel/src/KernelQueue.ts:520-553 | Taking an item leaves its references charged and in flight |
| KernelRouting.CollectConserves | packages/ocap-kernel/src/store/methods/gc.ts:148-230 | Collecting unreferenced promises and objects keeps every count equal to what is held, also up to a candidate at which it throws |
| KernelRouting.UnreferencedHasNoQueue | packages/ocap-kernel/src/store/methods/gc.ts:148-190 | A promise with count zero is settled and has an empty queue, so deleting it strands no message |
| KernelRouting.ResolvingComesTo | packages/ocap-kernel/src/KernelQueue.ts:1167-1221 | Resolved exactly by whoever the promise is owed by, while it is pending and every slot exists; then the run queue (or the buffer) gains a notify for each subscriber and each waiting message, in order, and no other promise changes |
| KernelRouting.SendingComesTo | packages/ocap-kernel/src/KernelQueue.ts:856-870 | Sent exactly when target, result and slots exist: last in the run queue, or in the buffer |
| KernelRouting.SubscribingComesTo | packages/ocap-kernel/src/vats/VatSyscall.ts:107-116 | A subscriber of a pending promise once, a notify of a settled one, refused for none |
| KernelRouting.PartingComesTo | packages/ocap-kernel/src/store/methods/gc.ts:51-63 | A revoked object stays owned; an orphaned one is nobody's, and only its owner was parted from it; a promise is not revoked |
| KernelRouting.HoldingComesTo | packages/ocap-kernel/src/store/methods/refcount.ts:89-187 | What comes to be held is counted once more and what is given up once less; only what exists can be held, and only what is held given up |
| KernelRouting.MakingComesTo | packages/ocap-kernel/src/store/methods/promise.ts:49-60 | A new promise has a name not in use, one reference, no decider and no subscriber; a new object an owner alone |
| KernelRouting.DoneInTurn | packages/ocap-kernel/src/vats/VatSyscall.ts:85-116 | Operations are done one after the other, and none after one that throws |
| KernelRouting.ResolvedInTurn | packages/ocap-kernel/src/KernelQueue.ts:1167-1221 | The promises of a batch are resolved one after the other, and none after one that is refused |
| KernelRouting.DecidingComesTo | packages/ocap-kernel/src/store/methods/promise.ts:146-153 | Naming who decides a pending promise changes that alone |
| LoopDeliveries.OwnerIsCalled | packages/ocap-kernel/src/KernelRouter.ts:213-285 | From any crank about to deliver a send to an object, or to a promise fulfilled with a bare reference to it: if the object is neither revoked nor ownerless and its owner runs, the owner is called with the message for that object, a pending result is the owner's to settle from then on, and no promise changes otherwise |
| LoopDeliveries.NobodyIsCalled | packages/ocap-kernel/src/KernelRouter.ts:213-245 | If the object is revoked, ownerless or absent, or its owner is not running, a pending result is rejected with a kernel error, the delivery is over, and no other promise changes |
| LoopDeliveries.RejectionIsPassedOn | packages/ocap-kernel/src/KernelRouter.ts:246-285 | A send to a promise rejected with a value has its own result rejected with that value |
| LoopDeliveries.DataAnswersNothing | packages/ocap-kernel/src/KernelRouter.ts:246-285 | A send to a promise fulfilled with anything but a bare reference has its result rejected with a kernel error |
| LoopDeliveries.PromiseIsAwaited | packages/ocap-kernel/src/KernelRouter.ts:437-448 | A send to a pending promise, or to one fulfilled with another promise, waits last in that one's queue |
| LoopDeliveries.SubscriberIsCalled | packages/ocap-kernel/src/KernelRouter.ts:523-580 | A notify calls its own endpoint with its own promise, and settles nothing |
| LoopDeliveries.FailureRejectsResult | packages/ocap-kernel/src/KernelRouter.ts:292-306 | A delivery that fails leaves a result still pending rejected with a kernel error, and a settled one as it is |
| LoopDeliveries.AnsweredLeavesResult | packages/ocap-kernel/src/KernelRouter.ts:385-436 | One that goes well settles nothing by ending |
| Stranding.RequeueStrands | packages/ocap-kernel/src/KernelRouter.ts:249-262 | A message sent to a fulfilled promise is put on the promise it resolved to, unchanged otherwise; it is stranded exactly when that promise has already settled |
| Stranding.StrandedForGood | packages/ocap-kernel/src/KernelRouter.ts:437-448 | No run of the loop, from wherever a committed store holds a stranded message, takes it off its queue again, whatever is delivered, collected, aborted or thrown, unless the store is wiped |
| KernelRuns.MessageIsStranded | packages/ocap-kernel/src/KernelRouter.ts:249-262 | A concrete run, from a sound store, whose crank strands a message; and every run that goes on from there leaves it stranded |
| CrankAtomicity.FailedCrankLeavesTheStoreItFound | packages/ocap-kernel/src/KernelQueue.ts:211-321 | A crank that fails with no death, abort or irrevocable result, whatever else happened while it was open, commits the store it found, the dequeued item back in its place, with the crank buffer empty; so exactly that store if and only if no earlier output was left in the buffer |
| CrankAtomicity.NeverRolledBackTwice | packages/ocap-kernel/src/KernelQueue.ts:597-671 | Over every run the delivery savepoint is rolled back at most once a crank |
| CrankAtomicity.SavepointThroughCrank | packages/ocap-kernel/src/store/methods/crank.ts:32-84 | However long a crank stays open and whoever enters meanwhile, its savepoint is the store it opened with, and nobody is forsaken |
| CrankAtomicity.AbortReturnsToSavepoint | packages/ocap-kernel/src/KernelQueue.ts:601-612 | An abort restores the savepoint with an empty crank buffer, keeps the held requests and forbids a second rollback; it loses the references of the output the savepoint held, and forsakes the subscribers of the promises it listed |
| CrankAtomicity.AbortForgets | packages/ocap-kernel/src/KernelQueue.ts:597-671 | An abort that ends no vat commits the store the crank found, without its buffered output, less what is collected from it, even if that collection throws: exactly the store found if and only if its buffer was empty and no candidate ahead of the first absent promise is a live promise with count zero or an unowned object with count zero; for any held requests, which are written afterwards |
| CrankAtomicity.CollectingChanges | packages/ocap-kernel/src/store/methods/gc.ts:148-230 | A collection, thrown out of or not, leaves a sound store alone exactly when no candidate ahead of the first absent promise can be collected |
| KernelRuns.AbortCollectsRegardless | packages/ocap-kernel/src/KernelQueue.ts:597-671 | A run from a sound store in which an aborted crank, its collection throwing, commits a store without an object it found |
| CrankAtomicity.DeathOutlivesFaults | packages/ocap-kernel/src/KernelQueue.ts:597-671 | Once a vat's death is recorded, no later throw in termination, collection, audit or flush undoes anything: the loop dies with that store, or commits it and then writes whatever was held |
| CrankAtomicity.IrrevocableOutlivesFaults | packages/ocap-kernel/src/KernelQueue.ts:597-671 | Nor is a delivery with an irrevocable result ever undone, whatever was held |
| CrankAtomicity.ReportsWhatItCommits | packages/ocap-kernel/src/KernelQueue.ts:281-311 | A crank reports exactly when it asked to, was not aborted and has committed |
| CrankAtomicity.CommitsExactly | packages/ocap-kernel/src/KernelQueue.ts:597-671 | A crank commits exactly if neither its collection, its audit, its flush nor the commit itself throws |
| CrankAtomicity.ReportingEnds | packages/ocap-kernel/src/KernelQueue.ts:294-321 | A report that throws, like a held request that could not be written, ends the loop and undoes nothing; else the loop goes on |
| CrankAtomicity.AuditAnswersNobody | packages/ocap-kernel/src/KernelQueue.ts:653-671 | If collection or the audit throws while rollback is allowed, the store is as found and callers have learnt only of the loop's death |
| CrankAtomicity.AnsweredBeforeCommit | packages/ocap-kernel/src/KernelQueue.ts:745-756 | A resolution in a crank answers its subscriber at once if and only if it is an immediate one |
| CrankAtomicity.AnswerForgottenByAbort | packages/ocap-kernel/src/KernelRouter.ts:460-480 | Such an early answer's crank, aborted, leaves every promise as the crank found it, or not there |
| LoopDecisions.AnswerLastsExactly | packages/ocap-kernel/src/KernelQueue.ts:597-671 | Over any crank, short of a wipe, with an immediate resolution made in it: the caller is told at once, the promise stays decided while nothing undoes the crank, and it is decided (or collected) in the store a step leaves, the closing one included, if and only if the step does not undo the crank: by an abort, a refused commit, a delivery that throws, or a throw in collection, audit or flush of a crank that neither ends a vat nor is irrevocable |
| LoopDecisions.DecisionLastsExactly | packages/ocap-kernel/src/KernelQueue.ts:258-283 | The same of one step, for any promise decided in the open crank |
| LoopDecisions.LeavesItsStore | packages/ocap-kernel/src/KernelQueue.ts:281-293 | The store meant is the one the step leaves when no request is held, and otherwise the one committed before those are written |
| KernelRuns.AnswerIsForgotten | packages/ocap-kernel/src/KernelRouter.ts:460-480 | A run from a sound store and a new queue that ends so: the caller has its answer, the loop lives, and the promise is undecided |
| LoopCallers.EveryCallerOnce | packages/ocap-kernel/src/KernelQueue.ts:420-453 | Over every run, each caller taken in has been told exactly once or waits in exactly one place; when the loop is dead everybody has been told |
| LoopCallers.NothingHeldOutsideACrank | packages/ocap-kernel/src/Kernel.ts:971-996 | Outside a crank a live loop holds no request, so a stop has none to discard; a stopped loop has no control operation left |
| LoopCallers.ControlAnsweredByItsCommit | packages/ocap-kernel/src/KernelQueue.ts:300-321 | A control operation's caller is told once, and told success exactly when its crank commits, even if a held request then kills the loop |
| LoopCallers.StepKeepsCallers | packages/ocap-kernel/src/KernelQueue.ts:211-321 | Every step keeps the ledger of callers: pending and told add up to those taken in |
| LoopCallers.FailingSettlesAll | packages/ocap-kernel/src/KernelQueue.ts:420-453 | The loop's death tells everybody who waits on it: subscribers, holders, waiters and controllers |
| LoopTelling.RequestsAreAnswered | packages/ocap-kernel/src/KernelQueue.ts:770-848 | A message or a write: refused with nothing changed once the loop has died or ended, only held while a crank is open, and otherwise made at once. A write's caller is told it was performed if and only if the store takes all its operations, and else that it failed; a message's is told its object is gone if and only if the target or a slot is absent, and else awaits a new promise that is the result of the send queued |
| LoopTelling.RequestedIsQueued | packages/ocap-kernel/src/KernelQueue.ts:1038-1127 | A vat's restart or termination goes last into the run queue and wakes the loop, is only held while a crank is open, and is refused with nothing changed once the loop has died or ended |
| LoopTelling.WorkIsDone | packages/ocap-kernel/src/vats/VatSyscall.ts:85-116 | Work on the store is done as its operations say within a crank, and at once outside of one; it tells only those who await what it resolves |
| LoopTelling.HeldAreWrittenInTurn | packages/ocap-kernel/src/KernelQueue.ts:1098-1110 | What was held is written in that order, each request coming to just that on the store the ones before it left, unless the store refuses one: that one and the rest stay held |
| LoopTelling.HeldStaysExactly | packages/ocap-kernel/src/KernelQueue.ts:1098-1110 | Everything held is written unless the store refuses one; then exactly that one and those behind it stay held |
| LoopTelling.FlushTells | packages/ocap-kernel/src/KernelQueue.ts:704-756 | A flush moves the output behind the run queue, and tells exactly the subscribers of notified promises what their rows say and of listed ones what is listed, nobody else and nobody twice |
| LoopTelling.BufferedAnswerIsListed | packages/ocap-kernel/src/KernelQueue.ts:728-756 | A resolution that is to wait for the flush tells nobody, and is listed as it was made exactly if somebody awaits the promise |
| LoopTelling.AbortTells | packages/ocap-kernel/src/KernelQueue.ts:613-628 | An abort that ends a vat tells whoever awaits its message's result that the vat has ended, and no abort tells anybody anything else |
| LoopTelling.DeathTells | packages/ocap-kernel/src/KernelQueue.ts:420-453 | The loop's death is what subscribers, holders, waiters and queued controllers are told, and its failure what the caller of the operation it died in is |
| LoopTelling.DiscardedAreTold | packages/ocap-kernel/src/KernelQueue.ts:381-388 | Abandoned subscribers and holders of discarded requests are told of that |
| LoopTelling.WipingTells | packages/ocap-kernel/src/Kernel.ts:744-750 | A control operation that wipes the store leaves an empty one, and tells everybody who waited on what was in it of just that |
| LoopTelling.WaitersAreTold | packages/ocap-kernel/src/KernelQueue.ts:399-408 | A caller who waits for the death of the loop is told of it, at once where it has come; one who gives up is told of just that |
| LoopAnswers.WhoAwaitsWhat | packages/ocap-kernel/src/KernelQueue.ts:728-756 | Over every run each promise has at most one subscriber, and a promise awaited is still to be decided if and only if its answer is neither listed for the next flush nor dropped by an abort |
| LoopAnswers.StepExpects | packages/ocap-kernel/src/KernelQueue.ts:211-321 | Every step keeps that, and keeps it true of the savepoint, outputs buffered in any stage included |
| LoopAnswers.AbortingExpects | packages/ocap-kernel/src/KernelQueue.ts:601-628 | An abort gives the promises its crank decided back undecided, lists no answer, and forsakes exactly those whose answer an earlier crank had left listed |
| LoopAnswers.FlushingAwaits | packages/ocap-kernel/src/KernelQueue.ts:704-722 | A flush answers whoever was listed, so that nobody left awaits a decided promise |
| LoopAnswers.CollectingLeaves | packages/ocap-kernel/src/store/methods/gc.ts:148-230 | Collection never takes an undecided promise, even if it throws |
| LoopOutput.NothingLeftBehind | packages/ocap-kernel/src/KernelQueue.ts:633-670 | Over every run in which nothing is buffered while an aborted crank awaits the end of its vat, a live loop outside a crank has an empty buffer and no listed answer, and nobody has been forsaken |
| LoopOutput.LateOutputStays | packages/ocap-kernel/src/vats/VatSyscall.ts:85-116 | What is buffered or listed during that wait is exactly what is buffered and listed once the crank has committed |
| KernelRuns.NextAbortDrops | packages/ocap-kernel/src/store/methods/crank.ts:32-84 | An abort loses the references of exactly the output, and forsakes exactly the promises, that the loop had left in memory when the crank opened, whatever happens in between |
| KernelRuns.LateOutputIsLostExactly | packages/ocap-kernel/src/KernelQueue.ts:597-671 | Over an aborted crank that awaits its vat's end and the next aborted one, the second abort loses nothing if and only if nothing was buffered during the wait |
| KernelRuns.OutputIsLost | packages/ocap-kernel/src/vats/VatSyscall.ts:85-88 | A run from a sound store, no operation of it refused, after which a live loop counts an object twice that is held once |
| KernelRuns.CallerIsForsaken | packages/ocap-kernel/src/vats/VatSyscall.ts:98-101 | A run after which a caller awaits a promise settled long ago, with nothing left to answer it |
| LoopCallers.WipingKeeps | packages/ocap-kernel/src/Kernel.ts:744-750 | A control operation that wipes the store tells every caller waiting on what was in it |
| LoopWaking.NoLostWakeUp | packages/ocap-kernel/src/KernelQueue.ts:252-259 | Over every run a parked loop with anything on its run queue, arrivals or control requests, or asked to end, is on its way up, and a loop about to open a crank is never already waiting, so that failure is unreachable |
| LoopWaking.SleepsWithNothingLeft | packages/ocap-kernel/src/KernelQueue.ts:252-259 | Nor is output left in the buffer of a sleeping loop, over every run in which nothing is buffered while an aborted crank awaits the end of its vat |
| KernelRuns.SleepsOverOutput | packages/ocap-kernel/src/KernelQueue.ts:676-698 | A run in which something is, after which the loop sleeps over it and nothing wakes it |
| LoopWaking.StepWakes | packages/ocap-kernel/src/KernelQueue.ts:676-698 | Every step that adds to a parked loop's run queue, arrivals or control requests, or asks it to end, wakes it |
| PeerArrivals.RunKeepsInv | packages/ocap-kernel/src/KernelQueue.ts:907-1001 | Over every run of accepts and takes: at most one restart waits per peer, no message of a peer stands behind its restart, and no restart has more than 200 put ahead of it |
| PeerArrivals.TakenInAcceptedOrder | packages/ocap-kernel/src/KernelQueue.ts:907-961 | Taken followed by waiting messages of a peer are exactly those it had accepted, in order, despite the splice |
| PeerArrivals.AcceptsExactly | packages/ocap-kernel/src/KernelQueue.ts:907-961 | A message is passed over exactly as a copy, refused exactly when its remote holds 200 above the mark or its peer's restart has had 200 put ahead, and held otherwise |
| PeerArrivals.ChangesAreHeld | packages/ocap-kernel/src/KernelQueue.ts:979-1001 | A change of incarnation is always held, in the place of the peer's waiting restart or last |
| PeerArrivals.ApplyKeepsShare | packages/ocap-kernel/src/KernelQueue.ts:907-961 | One step of the share theorem: after any event a remote and peer hold at most 200 messages above a given mark, with distinct numbers |
| PeerArrivals.RisingMarkKeepsShare | packages/ocap-kernel/src/KernelQueue.ts:907-961 | One step of it: a rising mark keeps that share within bounds |
| PeerArrivals.TakenRestartLeavesNone | packages/ocap-kernel/src/remotes/kernel/RemoteHandle.ts:1724-1746 | Once its peer's restart is taken, none of a remote's messages is left in the list |
| PeerArrivals.ResetKeepsShare | packages/ocap-kernel/src/remotes/kernel/RemoteHandle.ts:1724-1746 | So the mark may be reset: with every message above it, the share holds from zero |
| LoopArrivals.EveryRunKeepsShare | packages/ocap-kernel/src/remotes/kernel/RemoteHandle.ts:1476-1553 | Over every run of the loop, with the mark raised by committed cranks, left by aborted ones, and reset by the peer's restart while old messages still come in, a remote holds at most 200 messages above its mark, with distinct numbers |
| LoopArrivals.SharesMeans | packages/ocap-kernel/src/KernelQueue.ts:907-961 | In numbers: 200 at most, each of one message |
| LoopArrivals.InitShares | packages/ocap-kernel/src/remotes/kernel/RemoteHandle.ts:403 | A new queue holds so for every remote, whatever mark the store had for it |
| LoopArrivals.TrackedIsRun | packages/ocap-kernel/src/KernelQueue.ts:211-321 | Such a run, its mark left aside, is a run of the loop |
| PeerArrivals.PotentialFalls | packages/ocap-kernel/src/KernelQueue.ts:907-1001 | The potential of a waiting arrival never rises on any accept, and falls on every arrival taken ahead of it |
| LoopArrivals.WaitIsBounded | packages/ocap-kernel/src/KernelQueue.ts:520-565 | Over every run of the loop, however fast work comes in, an arrival is taken or discarded within a number of picks fixed when it is held; cranks that carry out control operations, collect or reap are not picks and are not counted |
| LoopArrivals.StillThere | packages/ocap-kernel/src/KernelQueue.ts:520-565 | Until then every step leaves the arrival in the list, where the bound follows it, with its potential no higher |
| PeerArrivals.PicksAlternate | packages/ocap-kernel/src/KernelQueue.ts:520-553 | With both sources waiting, two consecutive picks come from different sources |
| PeerArrivals.PickTakesWhatThereIs | packages/ocap-kernel/src/KernelQueue.ts:520-553 | Neither source is passed over unless it is empty or the other's turn |
| LoopArrivals.PicksInTurn | packages/ocap-kernel/src/KernelQueue.ts:520-565 | The loop's own choice is that pick, taking the oldest of its source and leaving the other alone |
| LoopArrivals.CrankTakes | packages/ocap-kernel/src/KernelQueue.ts:211-262 | What the loop does when it looks for an item: control operations in order, else it ends if asked to, else it collects or reaps, else arrivals and run queue in turns from their heads, else it sleeps |
| LoopArrivals.ControlsAreTakenIn | packages/ocap-kernel/src/KernelQueue.ts:333-362 | A control operation is taken in, last, while the loop runs and has not been asked to end |
| LoopArrivals.ArrivalsAreTakenIn | packages/ocap-kernel/src/KernelQueue.ts:907-1003 | What arrives goes into the list while the loop has neither died nor ended, wakes it if the list changes, and changes nothing else |
| LoopArrivals.PriorityTakesNothing | packages/ocap-kernel/src/KernelQueue.ts:520-540 | Control, collection and reaping go first, touching neither source nor the turn |
| LoopArrivals.EveryRunKeepsArrivals | packages/ocap-kernel/src/KernelQueue.ts:907-1031 | The arrival-list invariants hold over every run of the whole loop, aborts included |
| RunQueue.KernelQueue.ResolvePromises | packages/ocap-kernel/src/KernelQueue.ts:1167-1221 | Loops over the batch in place, charging slots, notifying subscribers and resending what waited one by one; the object becomes what the resolution function gives, subscribers answered at once when immediate |
| RunQueue.KernelQueue.EnqueueSend | packages/ocap-kernel/src/KernelQueue.ts:856-870 | Charges target, result and slots one by one, stopping at a missing one, and queues or buffers the send |
| RunQueue.KernelQueue.WriteHeldRequests | packages/ocap-kernel/src/KernelQueue.ts:1098-1110 | Writes held requests in order, taking each off only once written, and stops at one that throws |
| RunQueue.KernelQueue.FindWaitingRestart | packages/ocap-kernel/src/KernelQueue.ts:1009-1020 | Finds the peer's waiting restart, or the end of the list |
| RunQueue.KernelQueue.AcceptRemoteInbound | packages/ocap-kernel/src/KernelQueue.ts:907-961 | Takes in, drops as a copy, or refuses a peer's message, splicing it ahead of a waiting restart |
| RunQueue.KernelQueue.DiscardHeldRequests | packages/ocap-kernel/src/KernelQueue.ts:1083-1092 | Tells the callers of held messages and writes, in order, and empties the list |
| RunQueue.KernelQueue.FailRunLoop | packages/ocap-kernel/src/KernelQueue.ts:420-453 | Records the death and tells everybody who waits, place by place |
| RunQueue.KernelQueue.FlushCrankBuffer | packages/ocap-kernel/src/KernelQueue.ts:704-722 | Moves the output item by item, answering notified and resolved callers; a fault loses the rest |
| Router.KernelRouter.Perform | packages/ocap-kernel/src/KernelRouter.ts:167-196 | Any event of the loop, done by queue and router together in place, is exactly the step of the state machine |
| KernelServices.ServiceManager.Register | packages/ocap-kernel/src/KernelServiceManager.ts:80-97 | Refused exactly for a name in use; else both tables gain the service, on the object the store remembers for the name or on a new one pinned once |
| KernelServices.ServiceManager.Unregister | packages/ocap-kernel/src/KernelServiceManager.ts:104-113 | Both tables and the record lose the name and the pin; the object is left with no record of it, and no operation of the manager takes up or deletes such an object (`OrphansStay`, in every method's contract) |
| KernelServices.ServiceManager.RegisterAnonymous | packages/ocap-kernel/src/KernelServiceManager.ts:139-155 | A new object, pinned once and routed to by reference only |
| KernelServices.ServiceManager.ReleaseAnonymous | packages/ocap-kernel/src/KernelServiceManager.ts:202-213 | Nothing for an unregistered reference; the tables and pins stay right exactly when the reference is not that of a named service |
| KernelServices.ServiceManager.Restart | packages/ocap-kernel/src/KernelServiceManager.ts:175-188 | A new incarnation finds every recorded object with its one pin |
| KernelServices.ServiceManager.ReleaseAbandoned | packages/ocap-kernel/src/KernelServiceManager.ts:175-188 | Exactly the anonymous objects this incarnation does not host are unrecorded and unpinned, and those nobody else refers to deleted |
| KernelServices.ServiceManager.Lookup | packages/ocap-kernel/src/KernelServiceManager.ts:258-281 | A message reaches the service registered for its target, pinned and existing, or none |
| NarrowGuard.NarrowInterfaceGuard | packages/kernel-utils/src/narrow-interface-guard.ts:359-399 | A delta compiles exactly when it fits the base (a refusal names a method at fault and what is wrong with it), and the guard then admits exactly what some row of the delta admits over the base, names only the delta's methods, has no defaults, and gives each method the return guard of the base |
| NarrowGuard.NarrowRowIsExact | packages/kernel-utils/src/narrow-interface-guard.ts:206-248 | A row narrowed into required, optional and rest guards admits a call exactly when the base does and every pattern meets the argument present at its position |
| NarrowGuard.SynthesizeRowIsExact | packages/kernel-utils/src/narrow-interface-guard.ts:261-267 | On a passable-by-default method a row admits exactly the calls that present every argument it addresses and meet its patterns |
| NarrowGuard.RenderIsExact | packages/kernel-utils/src/narrow-interface-guard.ts:283-305 | A rendered method admits a call exactly when some row does, in the positional form and in the `M.or(splitArray...)` form alike |
| NarrowGuard.RenderingsAgree | packages/kernel-utils/src/narrow-interface-guard.ts:283-305 | One row means the same in either rendering |
| NarrowGuard.NarrowMethodIsExact | packages/kernel-utils/src/narrow-interface-guard.ts:359-399 | One method of a derived guard admits exactly what its rows mean over the base |
| NarrowGuard.NarrowingNeverWidens | packages/kernel-utils/src/narrow-interface-guard.ts:206-267 | Whatever a delta admits, the base admits |
| NarrowGuard.NarrowMethodFits | packages/kernel-utils/src/narrow-interface-guard.ts:206-238 | A method fails to narrow exactly when it is missing, or a row reaches past a fixed arity |
| NarrowGuard.TrimTrailingHoles | packages/kernel-utils/src/narrow-interface-guard.ts:173-182 | Trims trailing holes and nothing else |
| DeltaAlgebra.ConjoinDeltas | packages/kernel-utils/src/narrow-interface-guard.ts:89-115 | Refused exactly when a method is not in the existing narrowing |
| DeltaAlgebra.ConjoinIsIntersection | packages/kernel-utils/src/narrow-interface-guard.ts:66-115 | A conjoined delta admits exactly what both admit |
| DeltaAlgebra.ConjoinedFits | packages/kernel-utils/src/narrow-interface-guard.ts:89-115 | Conjoining onto a fitting delta fits exactly when the new row does |
| DeltaAlgebra.DisjoinIsUnion | packages/kernel-utils/src/narrow-interface-guard.ts:136-155 | A disjoined delta admits exactly what either admits, absorption of all-hole rows included |
| DeltaAlgebra.DisjoinDeltas | packages/kernel-utils/src/narrow-interface-guard.ts:136-155 | The loop over names computes that disjunction |
| DeltaAlgebra.AbsorbKeepsMeaning | packages/kernel-utils/src/narrow-interface-guard.ts:136-155 | Absorption changes nothing a method admits |
| DeltaAlgebra.DisjoinedFits | packages/kernel-utils/src/narrow-interface-guard.ts:136-155 | A join of fitting deltas fits: it never fails the arity check |
| DeltaAlgebra.AbsorbingDeltaIsTheBase | packages/kernel-utils/src/narrow-interface-guard.ts:319-337 | The absorbing delta of a base admits exactly what the base admits and always fits |
| DeltaAlgebra.BaseAbsorbs | packages/kernel-utils/src/narrow-interface-guard.ts:319-337 | A narrowing joined with its base admits what the base admits |
| DeltaAlgebra.NarrowingDistributes | packages/kernel-utils/src/narrow-interface-guard.ts:89-155 | Narrowing distributes over joining on the methods both operands name |
| DeltaAlgebra.ChainIsIntersection | packages/kernel-utils/src/narrowing.ts:143-166 | A chain of any depth, flattened, admits exactly what the root and every link admit, and its method set only shrinks |
| DeltaAlgebra.JoinAllIsUnion | packages/kernel-utils/src/narrowing.ts:202-240 | The reduction over any number of operands is their union |
| DeltaAlgebra.JoinIsASemilattice | packages/kernel-utils/src/narrowing.ts:202-240 | A join depends only on which operands it has, not on their order, grouping or repetition |
| Narrowing.NarrowingLibrary.Mint | packages/kernel-utils/src/narrowing.ts:86-125 | Mints exactly when the delta fits, and else names the method at fault; records the provenance, inherits the base's return guards, and touches no earlier exo |
| Narrowing.NarrowingLibrary.Narrow | packages/kernel-utils/src/narrowing.ts:143-166 | Succeeds exactly when the delta narrows the base, each refusal with its reason; the new exo admits exactly what the given one and the delta both admit, forwards to the original base in one hop, and has that base's return guards whatever the depth of the chain |
| Narrowing.NarrowingLibrary.Join | packages/kernel-utils/src/narrowing.ts:202-240 | Succeeds exactly when the operands share a base and an unminted one can absorb, each refusal with its reason; the new exo admits exactly what some operand's guard admits, with the original base's return guards |
| PathUnder.PathUnderMatches | packages/kernel-utils/src/narrowing.ts:258-263 | Matches exactly the arrays that begin with the prefix and go on without `..` |
| PathUnder.LongerPrefixNarrows | packages/kernel-utils/src/narrowing.ts:258-263 | A longer prefix narrows exactly when the segments added hold no `..` |
| PathUnder.NoClimbing | packages/kernel-utils/src/narrowing.ts:258-263 | A prefix without `..` admits no path holding one |
| BridgeTrees.NamesAreDistinctMarkers | packages/ocap-jsonrpc-vat/src/bridge.ts:101-114 | No two objects share a name, and every name makes a marker |
| BridgeSession.FirstNames | packages/ocap-jsonrpc-vat/src/bridge.ts:107-113 | The names given are j1, j2 and on, and j10 after j9 |
| BridgeTrees.SubstituteRenames | packages/ocap-jsonrpc-vat/src/json-rpc.ts:158-206 | The walk succeeds exactly on a clean tree, keeps all names, and replaces each remotable by the one name it ends with, names threaded statefully |
| BridgeTrees.MintedNamesOccur | packages/ocap-jsonrpc-vat/src/json-rpc.ts:158-206 | Every name a walk mints occurs in the tree it makes |
| BridgeTrees.ResultRoundTrip | packages/ocap-jsonrpc-vat/src/json-rpc.ts:89-119 | Expanding the substituted form gives the tree back exactly when no string in it looks like a marker |
| BridgeTrees.ArgumentRoundTrip | packages/ocap-jsonrpc-vat/src/json-rpc.ts:158-206 | A JSON tree expands exactly when its markers are known, and substituting the expansion gives the same markers and no new name |
| BridgeSession.Forgetting | packages/ocap-jsonrpc-vat/src/bridge.ts:123-132 | Removing the newest names and objects gives the maps as they were before |
| BridgeSession.RequestsAreAtomic | packages/ocap-jsonrpc-vat/src/bridge.ts:201-231 | A failure names nothing; a success keeps every name and shows each new one in its reply |
| BridgeSession.SuccessMintsWhatItShows | packages/ocap-jsonrpc-vat/src/bridge.ts:142-161 | A name minted by a successful call is in its result |
| BridgeSession.NamesAreKept | packages/ocap-jsonrpc-vat/src/bridge.ts:93-132 | Over any session without a reset, a name keeps its object |
| BridgeSession.SendReachesItsObject | packages/ocap-jsonrpc-vat/src/bridge.ts:142-161 | A send whose target names an object and whose arguments expand: the reply is the substituted answer of that object to that method with the arguments expanded, null for `undefined`, or the application error if it throws, or the internal error if the answer cannot be written |
| BridgeSession.OnlyThatCallMatters | packages/ocap-jsonrpc-vat/src/bridge.ts:142-161 | Hooks that agree on that one call give the same reply and the same table |
| BridgeSession.UnknownReferencesAreRefused | packages/ocap-jsonrpc-vat/src/bridge.ts:142-161 | A target or argument that names nothing here gets the invalid-params error whatever the hooks answer |
| BridgeSession.MalformedSendIsRefused | packages/ocap-jsonrpc-vat/src/bridge.ts:163-199 | So do parameters without a target, method and arguments |
| BridgeSession.RedeemingNamesItsObject | packages/ocap-jsonrpc-vat/src/bridge.ts:136-140 | Redeeming a URL asks for that URL, and the reply names what it yields, by its old name if it has one |
| BridgeSession.OthersAreRefused | packages/ocap-jsonrpc-vat/src/bridge.ts:163-199 | Unknown methods, URLs that are no strings and requests that are none each get their error code |
| BridgeSession.Bridge.AssignName | packages/ocap-jsonrpc-vat/src/bridge.ts:101-114 | The existing name, or the next one, staged; the maps stay inverse to each other over `j1` to `jn` |
| BridgeSession.Bridge.RollbackNames | packages/ocap-jsonrpc-vat/src/bridge.ts:123-132 | Forgets exactly the staged names and rewinds the counter |
| BridgeSession.Bridge.SubstituteRemotables | packages/ocap-jsonrpc-vat/src/json-rpc.ts:158-206 | The in-place walk does to table and tree what the naming walk does, also when it fails halfway |
| BridgeSession.Bridge.ExpandMarkers | packages/ocap-jsonrpc-vat/src/json-rpc.ts:89-119 | The walk through the map is expansion through the naming order |
| BridgeSession.Bridge.HandleSend | packages/ocap-jsonrpc-vat/src/bridge.ts:142-161 | An unknown target or marker is refused before the call is made |
| BridgeSession.Bridge.HandleRequest | packages/ocap-jsonrpc-vat/src/bridge.ts:163-199 | Malformed requests, unknown methods and hook failures each get their error |
| BridgeSession.Bridge.Dispatch | packages/ocap-jsonrpc-vat/src/bridge.ts:201-231 | A failed or unencodable reply leaves both maps and the counter as they were |
| BridgeSession.Bridge.ResetSession | packages/ocap-jsonrpc-vat/src/bridge.ts:93-99 | Empties the table |
| GuardedFetch.Fetch | packages/kernel-utils/src/guarded-fetch.ts:260-422 | The hops form a chain of redirects as the standard has it, at most 21; each request is asked about just before it is sent; every response not returned is discarded or has no body |
| GuardedFetch.RedirectsAsTheStandardSays | packages/kernel-utils/src/guarded-fetch.ts:391-418 | Between two requests of a walk: after 303 to a method other than GET and HEAD, or 301 or 302 to POST, in any case of letters, the next is GET without body and body headers, and otherwise method and body stay; the three credential headers go when scheme, host or port changes, and every other header stays |
| GuardedFetch.EndsForOneReason | packages/kernel-utils/src/guarded-fetch.ts:332-390 | How a walk ends at a response it can read, with the statuses, blanks, schemes and the limit of 20 redirects written out |
| GuardedFetch.UnseenEnds | packages/kernel-utils/src/guarded-fetch.ts:233-258 | And at one it cannot |
| GuardedFetch.FirstRequestIsTheCallers | packages/kernel-utils/src/guarded-fetch.ts:260-331 | The first request is what `init` says, else the wrapped request, else a GET that follows redirects |
| GuardedFetch.IntegrityIsChecked | packages/kernel-utils/src/guarded-fetch.ts:115-152 | A response is let through if and only if no integrity was given, or its body can be read and a value of the strongest algorithm spells its digest |
| GuardedFetch.TakeTurn | packages/kernel-utils/src/guarded-fetch.ts:332-390 | What a response leads to: returned, refused with its reason, or followed |
| GuardedFetch.RequestOnce | packages/kernel-utils/src/guarded-fetch.ts:233-258 | A request made exactly as approved, its response checked for one followed already |
| GuardedFetch.CheckIntegrity | packages/kernel-utils/src/guarded-fetch.ts:115-152 | The verdict on a body, and that a rejected one is discarded |
| GuardedFetch.CredentialsStayBehind | packages/kernel-utils/src/guarded-fetch.ts:407-409 | After any hop to another scheme, host or port no later request carries `authorization`, `cookie` or `proxy-authorization` |
| GuardedFetch.HeadersOnlyShrink | packages/kernel-utils/src/guarded-fetch.ts:396-416 | Every header of every request is the caller's |
| GuardedFetch.StreamsAreSentOnce | packages/kernel-utils/src/guarded-fetch.ts:410-417 | A body that cannot be replayed is sent in the first request alone |
| GuardedFetch.MethodOnlyBecomesGet | packages/kernel-utils/src/guarded-fetch.ts:396-406 | The method is the caller's with its body, or GET without body or body headers |
| GuardedFetch.ApprovedJustBefore | packages/kernel-utils/src/guarded-fetch.ts:326-422 | The events alternate: asked about a URL, then requested |
| SubresourceIntegrity.ParseIntegrityMetadata | packages/kernel-utils/src/subresource-integrity.ts:51-88 | Nothing exactly when no word is understood; else the strongest algorithm named and every digest written for it, in order |
| SubresourceIntegrity.ReadsWhatIsWritten | packages/kernel-utils/src/subresource-integrity.ts:51-88 | A word is understood exactly if it is sha256, sha384 or sha512, a hyphen and a digest, with or without an option after `?`, in that order of strength |
| SubresourceIntegrity.WordsAreSeparated | packages/kernel-utils/src/subresource-integrity.ts:51-60 | The words are what stands between single ASCII whitespace characters |
| SubresourceIntegrity.SpellingsAgree | packages/kernel-utils/src/subresource-integrity.ts:34-38 | Two spellings, base64 or base64url, padded or not, normalize alike if and only if they spell the same bytes |
| SubresourceIntegrity.MatchesExactly | packages/kernel-utils/src/subresource-integrity.ts:97-111 | A body whose digest has been computed matches exactly if one of the values written spells that digest; a value that is not base64 matches nothing |
| StreamReader.Reader.Put | packages/streams/src/BaseStream.ts:53-64 | Goes to the oldest pending read, or waits; ignored after the end |
| StreamReader.Reader.Get | packages/streams/src/BaseStream.ts:66-86 | The k-th read is answered by the k-th put before the end, then by the end |
| StreamReader.Reader.End | packages/streams/src/BaseStream.ts:193-205 | Settles every pending read, changes no earlier answer, and calls the hook once |
| StreamReader.Reader.ReceiveInput | packages/streams/src/BaseStream.ts:161-191 | A value, a done signal, an error signal or an invalid value, each with its effect |
| StreamReader.ErrorSurfaces | packages/streams/src/BaseStream.ts:15-86 | An error rejects every pending read, or is the answer to exactly one read after the buffered values; later reads are finished |
| StreamReader.Split | packages/streams/src/split.ts:131-173 | Each split receives exactly the parent values whose first predicate not to pass them over takes them, in order, until its own consumer ends it; a value none takes, or at which that predicate throws, ends with that error all the splits no consumer has ended |
| StreamReader.EndedSplitHasPrefix | packages/streams/src/split.ts:94-97 | A split its consumer ends has received the beginning of its share, and the others are what they would be |
| StreamReader.RefusalMeans | packages/streams/src/split.ts:140-168 | A value is refused exactly if no predicate takes it after those before it have passed, with the error of one that throws, or as matching none |
| StreamReader.EachValueOnce | packages/streams/src/split.ts:131-173 | A matched value lands after those before it in its own split and in no other |
| StreamEnds.DuplexEnds.EndWriter | packages/streams/src/BaseStream.ts:295-311 | Ending the writer dispatches one final signal, ends the reader and runs the stream's hook once, even if the signal is refused; ending it again does nothing |
| StreamEnds.DuplexEnds.EndReader | packages/streams/src/BaseDuplexStream.ts:145-163 | Ending the reader ends the writer with a done signal, and the two call each other no further |
| StreamEnds.DuplexEnds.Write | packages/streams/src/BaseStream.ts:327-343 | A refused value ends the stream with the refusal, told to the other side; a written one changes nothing else; after the end nothing is dispatched |
| StreamEnds.DuplexEnds.End | packages/streams/src/BaseDuplexStream.ts:344-371 | Closing ends both halves, with the error if there is one, and settles a synchronization still awaited |
| Handshake.SynchronizesSafely | packages/streams/src/BaseDuplexStream.ts:211-306 | Any interleaving, first SYN possibly lost: neither peer fails, each sends one SYN, one ACK, then data, and each consumer sees exactly a prefix of what the other wrote |
| Handshake.AlwaysProgress | packages/streams/src/BaseDuplexStream.ts:239-280 | Until both complete, some step is enabled that brings the pair further |
| Handshake.EightStepsComplete | packages/streams/src/BaseDuplexStream.ts:211-306 | No step of any kind takes a peer back, so no run takes more than eight steps forward, and any that takes eight, in whatever order and with anything in between, has completed both |
| Handshake.SeenIsWritten | packages/streams/src/BaseDuplexStream.ts:166-188 | With nothing left to read, a synchronized peer has seen all that was written |
| Handshake.DuplexStream.BeginSynchronization | packages/streams/src/BaseDuplexStream.ts:211-237 | Sends the SYN in place as the pure step does |
| Handshake.DuplexStream.ContinueSynchronization | packages/streams/src/BaseDuplexStream.ts:239-280 | The loop answers what has arrived, in step with the pure peer |
| Handshake.DuplexStream.Next | packages/streams/src/BaseDuplexStream.ts:166-188 | Reads a value, answering a SYN met on the way |
| SheafGuards.CoversIsPositional | packages/kernel-utils/src/guard-algebra.ts:54-65 | A call is covered exactly when there are enough arguments and each has a guard at its position and matches it |
| SheafGuards.GuardCoversPoint | packages/sheaves/src/match.ts:26-55 | The checks by slices decide coverage |
| SheafGuards.CollectedCovers | packages/sheaves/src/guard.ts:39-111 | Any call some section's guard covers, the collected guard covers |
| SheafGuards.CollectedResultIsUnion | packages/sheaves/src/guard.ts:100-109 | A result passes the collected return guard exactly if it passes some section's |
| SheafGuards.NoEmptyUnion | packages/sheaves/src/guard.ts:84-91 | No fixed position of the collected guard has an empty union |
| SheafGuards.CollectSheafGuard | packages/sheaves/src/guard.ts:39-111 | The collected guard names exactly the methods some section names, each with the union of their guards |
| SheafGuards.WholeArrayReadingLosesCalls | packages/sheaves/src/guard.ts:84-97 | Read as an exo reads it, a rest guard matching the whole array, the collected guard can refuse a call a section admits |
| SheafGuards.LosesExactly | packages/sheaves/src/guard.ts:84-111 | A call a section admits is refused exactly when an argument taken by its rest guard stands at a position fixed elsewhere where no section's guard takes it, or what is past every fixed position is taken by no section's rest guard though some section has one |
| SheafGuards.AlignedRestsLoseNone | packages/sheaves/src/guard.ts:84-97 | It refuses none if every rest guard begins past all sections' fixed positions and allows no more arguments |
| SheafMetadata.EncodingTellsApart | packages/sheaves/src/sheafify.ts:37-57 | Two entries encode alike exactly for one name and values that are identical, objects of one JSON text, or both functions |
| SheafMetadata.SameKeyMeansAlike | packages/sheaves/src/sheafify.ts:70-79 | One key means alike metadata |
| SheafMetadata.AlikeMeansSameKey | packages/sheaves/src/sheafify.ts:70-79 | Alike metadata have one key whatever their property order, if no two of their names compare equal |
| SheafMetadata.CollapseEquivalent | packages/sheaves/src/sheafify.ts:88-101 | The loop keeps the first candidate of every key |
| SheafMetadata.FirstsDiffer | packages/sheaves/src/sheafify.ts:88-101 | Representatives have pairwise different keys |
| SheafMetadata.EachIsRepresented | packages/sheaves/src/sheafify.ts:88-101 | Every candidate has a representative with its key |
| SheafMetadata.DecomposeMetadata | packages/sheaves/src/sheafify.ts:110-145 | The loops compute the shared properties and what remains of each candidate |
| SheafMetadata.DecompositionIsLossless | packages/sheaves/src/sheafify.ts:110-145 | The constraints are exactly the properties all candidates share by identity, and each candidate is the disjoint sum of them and its stripped part |
| SheafMetadata.StrippingKeepsApart | packages/sheaves/src/sheafify.ts:132-142 | Two stripped candidates are alike exactly when the candidates were |
| SheafMetadata.OfferedApartExactly | packages/sheaves/src/sheafify.ts:70-145 | A policy is always offered pairwise different candidates exactly when the locale's comparison tells all names apart |
| SheafMetadata.TiedNamesOfferedTwice | packages/sheaves/src/sheafify.ts:76-78 | Two names that compare equal let one metadata be offered twice, stripped of everything |
| SheafDispatch.DrivePolicy | packages/sheaves/src/sheafify.ts:169-191 | How driving a policy ends, with the exact history of candidates invoked and errors shown; an unrecognized candidate counts as an error |
| SheafDispatch.FirstAnswerWins | packages/sheaves/src/sheafify.ts:169-191 | At most one invocation answers, the last; the caller gets its answer exactly when closing the policy does not throw |
| SheafDispatch.AnswerIsLost | packages/sheaves/src/sheafify.ts:169-191 | A policy that yields one candidate and throws on being closed: its section answers, and the caller is told that no candidate was viable |
| SheafDispatch.EveryFailureShown | packages/sheaves/src/sheafify.ts:169-191 | The k-th error is that of the candidate yielded on seeing the errors before it |
| SheafDispatch.GetMatchingProviders | packages/sheaves/src/match.ts:66-76 | Exactly the providers that cover the call, in order |
| SheafDispatch.Evaluate | packages/sheaves/src/metadata.ts:73-85 | Each candidate's metadata is the record its provider's specification produces, or empty if there is none or it produces nothing; the first specification that throws or produces no record fails the call |
| SheafDispatch.SoleCandidateAnswers | packages/sheaves/src/sheafify.ts:218-268 | No candidate, no call; one, or several alike, is called once, and its answer or error is the caller's |
| SheafDispatch.PolicyChooses | packages/sheaves/src/sheafify.ts:240-268 | With several apart, the policy, shown the stripped candidates and their constraints, yields the first section invoked, or ends the call itself |
| SheafDispatch.Dispatch | packages/sheaves/src/sheafify.ts:211-268 | Only providers covering the call are invoked; none if any candidate's metadata fails |
| SheafDispatch.AnswerIsTheLastCalls | packages/sheaves/src/sheafify.ts:218-268 | A caller's answer is the last invoked section's, and none is invoked after one has answered |
| Described.OneDescriptionOneMeaning | packages/kernel-utils/src/described.ts:66-182 | For every shape and JSON value, the pattern matches exactly when the struct made of the schema validates |
| Described.PatternMeansShape | packages/kernel-utils/src/described.ts:66-182 | And those are the values that have the shape, read off the shape alone |
| Described.ObjectPatternMeans | packages/kernel-utils/src/described.ts:145-182 | A closed object's pattern, property by property |
| Described.ObjectStructMeans | packages/kernel-utils/src/json-schema-to-struct.ts:75-90 | A closed object's struct, property by property, `undefined` at an absent one included |
| Described.DescribeObject | packages/kernel-utils/src/described.ts:145-182 | The loop over properties builds both projections |
| Described.ValidateLoosely | packages/kernel-utils/src/json-schema-to-struct.ts:25-53 | The loose validator with its early returns accepts exactly what the schema allows |
| DescribedMethods.DescribeMethod | packages/kernel-utils/src/described.ts:221-258 | Refused exactly when a required argument follows an optional one; else guard and schema of the arguments |
| DescribedMethods.GuardMeansShapes | packages/kernel-utils/src/described.ts:221-258 | A positional call meets the guard exactly when each argument has its shape and every one not optional is given |
| DescribedMethods.CallsAgree | packages/kernel-utils/src/json-schema-to-struct.ts:121-142 | A positional call meets the guard exactly when the record naming its arguments validates; a longer call is refused |
| DescribedMethods.AgreeExactly | packages/kernel-utils/src/described.ts:221-258 | For well-formed shapes and at least one argument, guard and struct agree on all calls exactly when the names are distinct |
| DescribedMethods.NoArguments | packages/kernel-utils/src/json-schema-to-struct.ts:126-133 | Without arguments the guard admits the empty call only, the struct any object |
| DescribedMethods.DeclaredOrderExactly | packages/kernel-agents/src/capabilities/discover.ts:34-52 | The schema lists arguments in declared order exactly when index-like names come first, ascending |
| DescribedMethods.IndexLikeNameSwaps | packages/kernel-agents/src/capabilities/discover.ts:48-60 | With an index-like name declared last, a record that validates makes a call with its arguments swapped, which the guard refuses |
| DescribedMethods.RecordsAgree | packages/kernel-agents/src/capabilities/discover.ts:48-60 | A discovered capability's call from a record meets the guard exactly when the record validates and `undefined` fills optional slots or nothing is omitted |

## Left out

- The vat, remote and subcluster managers, the transport, and the picking of garbage-collection actions: a delivery
  is any sequence of the store operations a vat's syscalls make, between its start and its end.
- Garbage-collection and reap scheduling as sources of wake-ups: a crank may be offered such work as `Priority`, but
  what queues it is not modelled, so the wake-up theorem covers the run queue, arrivals and control operations.
- C-list entries and pins: `held` is the multiset of what they hold together. The reachable and recognizable halves
  of an object's count are one count, and `retire` actions are not modelled. Nor is a revoked identifier that has yet
  to be allocated, whose object the store would bear revoked.
- What makes a lost delivery abort (`#deliverUnlessLost`): the crank result says whether it does.
- The call of a kernel service's method: in the run loop a service is an agent that resolves outside any delivery.
- Text of errors, logging, and the payloads of `vatPowers` calls.
- Whether an explicit `undefined` fills an optional slot of `M.splitArray`, which the repository does not settle: the
  theorems hold of either answer, as the parameter `u`.
- `M.await` guards, remotable patterns and every matcher not built here: they are `Other`, an arbitrary test.
- Exo construction, CapTP and `E()` forwarding: a minted exo is its guard and its base.
- Bridge: concurrent dispatch, a session reset within a dispatch, circular values, and records with `__proto__` or
  `toJSON` keys. Equal values stand for one object.
- Guarded fetch: proxying of a redirected response, `resolveFetchInput`, guards that mutate the URL they are handed,
  and real digests (the digest of a body is the environment's). A body that cannot be read at all is left
  undiscarded by the code, and is the one exception in what `GuardedFetch.Fetch` says of discarding.
- Streams: `drain` and `pipe`, an end hook that throws, calls made while a final signal is being dispatched, and
  resynchronizing with a restarted peer while old data is in flight. The handshake is of streams that have not ended.
- LoopConservation.EveryRunConserves: says nothing of the counts of a loop that has died of a refused commit while
  output was in memory, because that output was charged in the transaction the database gave up.
- LoopArrivals.WaitIsBounded: counts picks; control operations, collection and reaping go first however long they last.
- Sheaves: return guards beyond their union, `asyncifyMethodGuards` (it keeps every position), and metadata values
  that JSON cannot write. A policy is a function of the errors it has been shown.
- SheafDispatch.DrivePolicy: `patience` bounds the attempts, so a policy that never stops yielding ends
  `Unfinished` instead of running for ever.
- Described values: property names inherited from `Object.prototype`, numbers that are not finite, interface schemas,
  return values, and the inside of superstruct, whose object struct is taken to refuse arrays.
- User interface, extension and command-line scripts, plugins, wallet tools, relay and build configuration.
