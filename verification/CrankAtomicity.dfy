/**
 * What survives a crank that throws, aborts or ends its vat (packages/ocap-kernel/src/KernelQueue.ts:211-321,
 * 597-671).
 */
module CrankAtomicity {
  import opened Prelude
  import opened KernelStore
  import opened KernelAccounting
  import opened KernelRouting
  import opened KernelLoop
  import opened LoopFrames
  import LoopCallers
  import LoopConservation
  import LoopOutput

  // ------------------------------------------------------------------ one savepoint for the whole crank

  /** What was saved has not changed, nor which item the open crank took, if the crank is still open. */
  predicate SameSavepoint(q: Q, r: Q) {
    r.phase.InCrank? ==>
      && q.phase.InCrank? && r.saved == q.saved && r.savedLost == q.savedLost && r.savedListed == q.savedListed
      && r.phase.item == q.phase.item
  }

  /** Before the crank ends, nobody is forsaken either, save by a wipe. */
  predicate NobodyForsaken(q: Q, r: Q) {
    r.phase.InCrank? && !r.phase.stage.Terminating? && !r.phase.item.ControlItem? ==>
      q.phase.InCrank? && !q.phase.stage.Terminating? && !q.phase.item.ControlItem? && r.forsaken == q.forsaken
  }

  /** Until a crank closes, its savepoint is the one it opened with, whoever enters meanwhile. */
  lemma StepKeepsSavepoint(q: Q, e: Event)
    requires q.phase.InCrank?
    ensures SameSavepoint(q, Step(q, e)) && NobodyForsaken(q, Step(q, e))
  {
    hide DeliverStep, ServedStep, Finish, Terminated, Wipe, Outside, Operated, Beyond, Delivering, SameSavepoint, NobodyForsaken;
    StayingSaves(q);
    match e
    case EvDeliver(running) => if InStage(q, true) { DeliveringFrame(q, running); DeliveringSaves(q, DeliverStep(q, running)); }
    case EvServed(failed) => if InStage(q, false) { ServingFrame(q, failed); DeliveringSaves(q, ServedStep(q, failed)); }
    case EvWipe => WipingSaves(q);
    case EvFinish(end, env) => if MayFinish(q, end) { FinishingSaves(q, end, env); }
    case EvTerminated(env) => if q.phase.stage.Terminating? { TerminatingFrame(q, env); ClosingSaves(q, Terminated(q, env)); }
    case EvStart => case EvBegin(_, _, _) => case EvAfterCommit(_) => case EvWake =>
    case _ => OutsideSaves(q, e);
  }

  lemma StayingSaves(q: Q)
    ensures SameSavepoint(q, q) && NobodyForsaken(q, q)
  {
  }

  lemma ClosingSaves(q: Q, r: Q)
    requires !r.phase.InCrank?
    ensures SameSavepoint(q, r) && NobodyForsaken(q, r)
  {
  }

  lemma FinishingSaves(q: Q, end: DeliverEnd, env: Env)
    requires q.phase.InCrank?
    ensures SameSavepoint(q, Finish(q, end, env)) && NobodyForsaken(q, Finish(q, end, env))
  {
    hide CrankFailed, Close, AbortStep, LostByReturning, PromisesOf;
    CrankFailingFrame(q, env);
    if end.Returned? {
      var result := ResultOf(q.phase.item, end.result);
      AbortingFrame(q, result, env);
      var aborted := AbortStep(q, result, env);
      CrankFailingFrame(aborted.q, env);
      ClosingFrame(aborted.q, result, env);
    }
  }

  lemma WipingSaves(q: Q)
    requires q.phase.InCrank?
    ensures q.phase.item.ControlItem? ==> SameSavepoint(q, Wipe(q)) && NobodyForsaken(q, Wipe(q))
  {
    hide Wipe;
    WipingFrame(q);
  }

  lemma DeliveringSaves(q: Q, r: Q)
    requires q.phase.InCrank? && Delivering(q, r) && !q.phase.stage.Terminating?
    ensures SameSavepoint(q, r) && NobodyForsaken(q, r)
  {
  }

  lemma OutsideSaves(q: Q, e: Event)
    requires q.phase.InCrank?
    ensures SameSavepoint(q, Outside(q, e)) && NobodyForsaken(q, Outside(q, e)) && Outside(q, e).phase == q.phase
  {
    hide Outside;
    if Quiet(e) { QuietFrame(q, e); } else { ReachingStoreFrame(q, e); }
  }

  // ------------------------------------------------------------------ a whole crank

  /** What every run keeps, of callers and of references. */
  ghost predicate Whole(q: Q) {
    LoopConservation.Steady(q) && LoopCallers.CallersKept(q)
  }

  lemma {:induction false} RunKeeps(q: Q, events: seq<Event>)
    requires Whole(q)
    ensures Whole(Run(q, events))
  {
    hide LoopConservation.Steady, LoopCallers.CallersKept;
    LoopConservation.RunConserves(q, events);
    LoopCallers.RunKeepsCallers(q, events);
  }

  /** The crank stays open through all of these. */
  predicate OpenThroughout(q: Q, events: seq<Event>)
    decreases |events|
  {
    q.phase.InCrank? && (events != [] ==> OpenThroughout(Step(q, events[0]), events[1..]))
  }

  /** And however long the crank stays open. */
  lemma {:induction false} SavepointThroughCrank(q: Q, events: seq<Event>)
    requires Whole(q) && OpenThroughout(q, events)
    ensures var r := Run(q, events); Whole(r) && r.phase.InCrank? && SameSavepoint(q, r) && NobodyForsaken(q, r)
    decreases |events|
  {
    hide LoopConservation.Steady, LoopCallers.CallersKept, Step;
    if events != [] {
      StepKeepsSavepoint(q, events[0]);
      LoopConservation.StepConserves(q, events[0]);
      LoopCallers.StepKeepsCallers(q, events[0]);
      SavepointThroughCrank(Step(q, events[0]), events[1..]);
    }
  }

  lemma ParkingOpensNone(q: Q, endFault: bool, heldFault: Option<nat>)
    ensures !Park(q, endFault, heldFault).phase.InCrank?
  {
    hide FailRunLoop, WriteHeld, LostByReturning;
    var parked := q.(wakeSet := true, phase := Parked);
    WritingHeldFrame(parked, heldFault);
    DyingFrame(RollBack(q));
    DyingFrame(Uncommitted(parked));
    DyingFrame(WriteHeld(parked, heldFault).q);
  }

  lemma OpeningSaves(q: Q, priority: Priority, endFault: bool, heldFault: Option<nat>)
    requires q.phase.Top?
    ensures var r := Begin(q, priority, endFault, heldFault);
            r.phase.InCrank? ==> r.saved == q.db && r.savedLost == q.lost && r.savedListed == q.resolvedInCrank && r.forsaken == q.forsaken
                                 && !r.phase.stage.Terminating?
  {
    hide Park, GetNext;
    var open := Savepoint(q);
    TakingFrame(open, priority);
    ParkingOpensNone(GetNext(open, priority).q, endFault, heldFault);
  }

  /** A crank's result that neither undoes nor outlives it. */
  predicate Plain(result: CrankResult) {
    !result.abort && !result.terminate && !result.irrevocable
  }

  /** The crank's delivery threw, or something did before the crank could commit. */
  predicate Fails(q: Q, end: DeliverEnd, env: Env)
    requires q.phase.InCrank?
  {
    end.DeliverThrew? || !LoopCallers.Commits(q, ResultOf(q.phase.item, end.result), env)
  }

  /** The store an open crank found, without the output that was waiting in memory. */
  function Found(q: Q): Store {
    q.saved.(crankBuffer := [])
  }

  /** A crank that dies while it can still be undone leaves the store its savepoint holds. */
  lemma DyingRestores(q: Q, env: Env)
    requires q.rollbackAllowed
    ensures CrankFailed(q, env).db == Found(q) && CrankFailed(q, env).phase.Dead?
  {
    hide FailRunLoop, LostByReturning;
    var undone := RollBack(q);
    DyingFrame(undone);
    DyingFrame(Uncommitted(undone));
  }

  lemma PlainFailureRestores(q: Q, end: DeliverEnd, env: Env)
    requires Whole(q) && MayFinish(q, end) && (end.Returned? ==> Plain(ResultOf(q.phase.item, end.result))) && Fails(q, end, env)
    ensures Finish(q, end, env).phase.Dead? && Finish(q, end, env).db == Found(q)
  {
    hide Sound, LoopConservation.Balances, LoopConservation.SavedBalances, LoopCallers.CallersKept, CrankFailed, Closing, FailRunLoop;
    DyingRestores(q, env);
    if end.Returned? {
      assert !q.phase.stage.Terminating?;
      FailedCloseRestores(q, ResultOf(q.phase.item, end.result), env);
    }
  }

  lemma FailedCloseRestores(q: Q, result: CrankResult, env: Env)
    requires q.rollbackAllowed && Plain(result) && !LoopCallers.Commits(q, result, env)
    ensures Close(q, result, env).phase.Dead? && Close(q, result, env).db == Found(q)
  {
    hide CrankFailed, FailRunLoop, Closing, LostByReturning;
    ClosingStoreFrame(q, result, env);
    LoopOutput.ClosingOutputs(q, result, env);
    var closed := Closing(q, result, env);
    if closed.threw { DyingRestores(closed.q, env); } else { DyingFrame(Uncommitted(closed.q)); }
  }

  /**
   * Crank atomicity. Take any crank, from the moment the loop looks for an item, with anything happening
   * while it is open. If it fails, having recorded no death, aborted nothing and called nothing irrevocable,
   * then what it commits is exactly the store it found, the item it took back in its place, less the output an
   * earlier crank had left in memory.
   */
  lemma FailedCrankLeavesTheStoreItFound(q: Q, priority: Priority, events: seq<Event>, end: DeliverEnd, env: Env)
    requires Whole(q) && q.phase.Top?
    requires OpenThroughout(Step(q, EvBegin(priority, false, None)), events)
    requires var open := Run(Step(q, EvBegin(priority, false, None)), events);
             && MayFinish(open, end) && (end.Returned? ==> Plain(ResultOf(open.phase.item, end.result))) && Fails(open, end, env)
    ensures var open := Run(Step(q, EvBegin(priority, false, None)), events);
            var r := Step(open, EvFinish(end, env));
            r.phase.Dead? && r.db == q.db.(crankBuffer := []) && (r.db == q.db <==> q.db.crankBuffer == [])
  {
    hide Whole, Begin, Finish, Fails;
    OpenedCrank(q, priority, events);
    PlainFailureRestores(Run(Step(q, EvBegin(priority, false, None)), events), end, env);
  }

  /** What a crank can be returned to is what was there when the loop looked for its item. */
  lemma OpenedCrank(q: Q, priority: Priority, events: seq<Event>)
    requires Whole(q) && q.phase.Top? && OpenThroughout(Step(q, EvBegin(priority, false, None)), events)
    ensures var open := Run(Step(q, EvBegin(priority, false, None)), events);
            && Whole(open) && open.phase.InCrank? && open.saved == q.db && open.savedLost == q.lost && open.savedListed == q.resolvedInCrank
            && (!open.phase.stage.Terminating? && !open.phase.item.ControlItem? ==> open.forsaken == q.forsaken)
  {
    hide Whole, Begin;
    var begun := Step(q, EvBegin(priority, false, None));
    RunKeeps(q, [EvBegin(priority, false, None)]);
    OneStep(q, EvBegin(priority, false, None));
    OpeningSaves(q, priority, false, None);
    SavepointThroughCrank(begun, events);
  }

  lemma OneStep(q: Q, e: Event)
    ensures Run(q, [e]) == Step(q, e)
  {
    hide Step;
    assert [e][0] == e && [e][1..] == [];
    assert Run(Step(q, e), []) == Step(q, e);
  }

  /** The delivery savepoint is rolled back at most once a crank, over every run and whatever throws. */
  lemma NeverRolledBackTwice(db: Store, events: seq<Event>)
    requires Sound(db, multiset{})
    ensures var q := Run(Init(db), events);
            q.rollbacks <= 1 && (q.phase.InCrank? && q.rollbackAllowed ==> q.rollbacks == 0)
  {
    LoopConservation.RunConserves(Init(db), events);
  }

  // ------------------------------------------------------------------ aborting

  /** An abort gives the store back as the crank found it, less the output it found, whose references are lost. */
  lemma AbortReturnsToSavepoint(q: Q, result: CrankResult, env: Env)
    requires q.phase.InCrank? && result.abort
    ensures var r := AbortStep(q, result, env).q;
            && r.db == Found(q) && r.lost == q.savedLost + RefsOfItems(q.saved.crankBuffer)
            && !r.rollbackAllowed && r.held == q.held && r.saved == q.saved
            && (!env.rollbackFault ==> r.resolvedInCrank == [] && r.forsaken == q.forsaken + PromisesOf(q.savedListed))
  {
    hide AbortStep, PromisesOf, RefsOfItems;
    AbortingFrame(q, result, env);
  }

  /** A promise nobody refers to, or an object nobody owns or refers to. */
  predicate Collectable(s: Store, k: KRef) {
    if k.KPromise? then Live(s, k.id) && Count(s, k) == 0
    else k in s.counts && s.counts[k] == 0 && k.id < |s.objects| && s.objects[k.id].owner.Nobody?
  }

  /** No candidate is collectable ahead of the first promise that does not exist, at which a collection throws. */
  predicate NothingCollectable(s: Store, candidates: seq<KRef>)
    decreases |candidates|
  {
    candidates == []
    || (candidates[0].KPromise? && !Live(s, candidates[0].id))
    || (!Collectable(s, candidates[0]) && NothingCollectable(s, candidates[1..]))
  }

  lemma {:induction false} CollectingShrinks(s: Store, candidates: seq<KRef>)
    ensures Collect(s, candidates).store.counts.Keys <= s.counts.Keys
    decreases |candidates|
  {
    hide CollectOne;
    if candidates != [] {
      CollectingOneShrinks(s, candidates[0]);
      var first := CollectOne(s, candidates[0]);
      if first.Done? { CollectingShrinks(first.store, candidates[1..]); }
    }
  }

  lemma CollectingOneShrinks(s: Store, k: KRef)
    ensures CollectOne(s, k).store.counts.Keys <= s.counts.Keys
    ensures Collectable(s, k) && CollectOne(s, k).Done? ==> k !in CollectOne(s, k).store.counts
    ensures !Collectable(s, k) ==> CollectOne(s, k).store == s
  {
    if k.KPromise? && Live(s, k.id) && s.promises[k.id].state.Settled? {
      ReleaseAllKeepsRows(s, s.promises[k.id].state.value.slots);
    }
  }

  /** A collection, thrown out of or not, leaves a store alone exactly when it finds nothing to collect. */
  lemma {:induction false} CollectingChanges(s: Store, candidates: seq<KRef>, f: multiset<KRef>)
    requires Sound(s, f)
    ensures Collect(s, candidates).store == s <==> NothingCollectable(s, candidates)
    decreases |candidates|
  {
    hide Sound, CollectOne, Collectable;
    if candidates != [] {
      var k := candidates[0];
      CollectOneConserves(s, k, f);
      CollectingOneShrinks(s, k);
      CollectableExists(s, k, f);
      var first := CollectOne(s, k);
      if first.Done? {
        CollectingShrinks(first.store, candidates[1..]);
        if !Collectable(s, k) { CollectingChanges(s, candidates[1..], f); }
      }
    }
  }

  lemma CollectableExists(s: Store, k: KRef, f: multiset<KRef>)
    requires Sound(s, f)
    ensures Collectable(s, k) ==> k in s.counts && !(k.KPromise? && !Live(s, k.id))
  {
  }

  /**
   * Nothing done since the crank opened survives its abort, whoever did it: what is committed is the store
   * the crank found, less the output in memory, less what is then collected from it. If the collection throws,
   * it is still committed. So exactly the store found is committed if and only if no output was waiting in
   * memory and no candidate was collectable, ahead of one that does not exist. What was held is written after.
   */
  lemma AbortForgets(q: Q, result: CrankResult, env: Env)
    requires Whole(q) && MayFinish(q, Returned(result))
    requires ResultOf(q.phase.item, result).abort && !result.terminate && !env.rollbackFault && !env.endFault
    ensures var c := Closing(AbortStep(q, result, env).q, result, env);
            && c.q.db == Collect(Found(q), env.candidates).store
            && (c.q.db == q.saved <==> q.saved.crankBuffer == [] && NothingCollectable(q.saved, env.candidates))
            && Finish(q, Returned(result), env) == if c.threw then FailRunLoop(c.q) else Commit(c.q, result, env)
  {
    hide Whole, CrankFailed, Commit, AbortStep, FlushAndAudit, CollectStep, LostByReturning, PromisesOf, Found, FailRunLoop;
    var aborted := AbortStep(q, result, env).q;
    AbortingFrame(q, result, env);
    AbortReturnsToSavepoint(q, result, env);
    var bound := aborted.(rollbackAllowed := aborted.rollbackAllowed && !result.irrevocable);
    CollectingStores(bound, env);
    AbortedFlush(CollectStep(bound, env).q, result, env);
    FoundIsSound(q);
    CollectingFound(q.saved, Found(q), env.candidates, q.savedLost + RefsOfItems(q.saved.crankBuffer));
    BoundFailure(Closing(aborted, result, env).q, env);
  }

  lemma FoundIsSound(q: Q)
    requires Whole(q) && q.phase.InCrank?
    ensures Sound(Found(q), q.savedLost + RefsOfItems(q.saved.crankBuffer)) && Found(q) == q.saved.(crankBuffer := [])
  {
    hide LoopCallers.CallersKept, Sound, RefsOfItems;
    LoopConservation.DroppingLoses(q.saved, q.savedLost);
  }

  lemma CollectingFound(saved: Store, found: Store, candidates: seq<KRef>, f: multiset<KRef>)
    requires found == saved.(crankBuffer := []) && Sound(found, f)
    ensures Collect(found, candidates).store == saved <==> saved.crankBuffer == [] && NothingCollectable(saved, candidates)
  {
    hide Sound, NothingCollectable;
    CollectingChanges(found, candidates, f);
    LoopOutput.CollectingKeepsBuffer(found, candidates);
  }

  /** A crank that may not be undone, and whose commit is not refused, dies with the store it has come to. */
  lemma BoundFailure(q: Q, env: Env)
    requires !env.endFault
    ensures !q.rollbackAllowed ==> CrankFailed(q, env) == FailRunLoop(q)
  {
  }

  lemma AbortedFlush(q: Q, result: CrankResult, env: Env)
    requires result.abort
    ensures FlushAndAudit(q, result, env).q == q
  {
  }

  lemma CollectingStores(q: Q, env: Env)
    ensures var c := CollectStep(q, env).q;
            && c.db == Collect(q.db, env.candidates).store && c.held == q.held && c.rollbackAllowed == q.rollbackAllowed
            && c.rollbacks == q.rollbacks && c.saved == q.saved && c.told == q.told
  {
  }

  // ------------------------------------------------------------------ what must outlive a throw

  /** The row stands, or has been collected whole. */
  predicate RowStands(before: PromiseRow, after: PromiseRow) {
    after == before || after == PromiseRow(Deleted, [])
  }

  /** Nothing the earlier store records has been undone: promises are as they were or collected, and queued items still queued. */
  predicate Stands(s: Store, t: Store) {
    && |t.promises| == |s.promises| && (forall id | 0 <= id < |s.promises| :: RowStands(s.promises[id], t.promises[id]))
    && t.objects == s.objects && t.held == s.held && s.runQueue <= t.runQueue
  }

  lemma StandsThrough(a: Store, b: Store, c: Store)
    requires Stands(a, b) && Stands(b, c)
    ensures Stands(a, c)
  {
    forall id | 0 <= id < |a.promises| ensures RowStands(a.promises[id], c.promises[id]) {
      assert RowStands(a.promises[id], b.promises[id]) && RowStands(b.promises[id], c.promises[id]);
    }
  }

  lemma {:induction false} CollectStands(s: Store, candidates: seq<KRef>)
    ensures Stands(s, Collect(s, candidates).store)
    decreases |candidates|
  {
    if candidates != [] {
      CollectOneStands(s, candidates[0]);
      var first := CollectOne(s, candidates[0]);
      if first.Done? {
        CollectStands(first.store, candidates[1..]);
        StandsThrough(s, first.store, Collect(s, candidates).store);
      }
    }
  }

  lemma CollectOneStands(s: Store, k: KRef)
    ensures Stands(s, CollectOne(s, k).store)
  {
    if k.KPromise? && Live(s, k.id) && s.promises[k.id].state.Settled? {
      ReleaseAllKeepsRows(s, s.promises[k.id].state.value.slots);
    }
  }

  lemma FlushedStands(s: Store, fault: Option<nat>)
    ensures Stands(s, Flushed(s, fault))
  {
  }

  lemma FlushingStands(q: Q, result: CrankResult, env: Env)
    ensures Stands(q.db, FlushAndAudit(q, result, env).q.db)
  {
    hide Flushed, FlushAndAudit, Stands, LostByFlush;
    AuditingFrame(q, result, env);
    FlushedStands(q.db, env.flushFault);
    SameStands(q.db);
  }

  lemma SameStands(s: Store)
    ensures Stands(s, s)
  {
  }

  /** Everything up to the commit adds to what the store records, and takes nothing back. */
  lemma ClosingStands(q: Q, result: CrankResult, env: Env)
    ensures Stands(q.db, Closing(q, result, env).q.db)
  {
    hide Stands, FlushAndAudit, CollectStep;
    var bound := q.(rollbackAllowed := q.rollbackAllowed && !result.irrevocable);
    CollectingStores(bound, env);
    CollectStands(bound.db, env.candidates);
    var collected := CollectStep(bound, env);
    FlushingStands(collected.q, result, env);
    StandsThrough(q.db, collected.q.db, FlushAndAudit(collected.q, result, env).q.db);
  }

  /** Past the point where it may be rolled back, a crank commits the store it has come to, whatever throws. */
  lemma BoundCloseStands(q: Q, result: CrankResult, env: Env)
    requires (q.rollbackAllowed ==> result.irrevocable) && !env.endFault
    ensures var c := Closing(q, result, env);
            && Stands(q.db, c.q.db) && c.q.rollbacks == q.rollbacks
            && Close(q, result, env) == if c.threw then FailRunLoop(c.q) else Commit(c.q, result, env)
  {
    hide Stands, Closing, CrankFailed, Commit, FailRunLoop;
    ClosingStands(q, result, env);
    ClosingStoreFrame(q, result, env);
    BoundFailure(Closing(q, result, env).q, env);
  }

  /** The store a crank commits once its vat's death is recorded, and whether it throws first. */
  function AfterDeath(q: Q, env: Env): Effect
    requires q.phase.InCrank? && q.phase.stage.Terminating?
  {
    var recorded := q.(rollbackAllowed := false);
    if env.terminateFault then Effect(recorded, true) else Closing(recorded, q.phase.stage.outcome, env)
  }

  /**
   * Once a vat's death is recorded, wholly or partway, no later throw undoes it: not in terminating it, nor in
   * collecting, auditing or flushing. The loop dies with that store, or commits it and then writes what was held.
   */
  lemma DeathOutlivesFaults(q: Q, env: Env)
    requires q.phase.InCrank? && q.phase.stage.Terminating? && !env.endFault
    ensures var c := AfterDeath(q, env);
            && Stands(q.db, c.q.db) && c.q.rollbacks == q.rollbacks
            && Terminated(q, env) == if c.threw then FailRunLoop(c.q) else Commit(c.q, q.phase.stage.outcome, env)
  {
    hide CrankFailed, Close, Closing, Commit, FailRunLoop, Stands;
    var recorded := q.(rollbackAllowed := false);
    SameStands(q.db);
    BoundFailure(recorded, env);
    BoundCloseStands(recorded, q.phase.stage.outcome, env);
  }

  /** Nor does one undo a delivery whose result is irrevocable. */
  lemma IrrevocableOutlivesFaults(q: Q, result: CrankResult, env: Env)
    requires MayFinish(q, Returned(result)) && !env.endFault
    requires var r := ResultOf(q.phase.item, result); r.irrevocable && !r.abort && !r.terminate
    ensures var c := Closing(q, result, env);
            && Stands(q.db, c.q.db) && c.q.rollbacks == q.rollbacks
            && Finish(q, Returned(result), env) == if c.threw then FailRunLoop(c.q) else Commit(c.q, result, env)
  {
    hide Close, Closing, FailRunLoop, Commit, Stands;
    BoundCloseStands(q, result, env);
  }

  /** Something throws while the crank closes on this store. */
  predicate ClosingThrows(s: Store, result: CrankResult, env: Env) {
    || Collect(s, env.candidates).Threw? || env.collectFault || env.auditFault
    || (!result.abort && env.flushFault.Some? && env.flushFault.value < |s.crankBuffer|)
  }

  /** A crank commits exactly if nothing throws while it closes: no collection, no audit, no flush and no commit. */
  lemma CommitsExactly(q: Q, result: CrankResult, env: Env)
    ensures LoopCallers.Commits(q, result, env) <==> !ClosingThrows(q.db, result, env) && !env.endFault
  {
    hide Collect, AnswerNotified, SettleEach;
    LoopOutput.CollectingKeepsBuffer(q.db, env.candidates);
  }

  /** A loop goes on once its crank has reported, unless the report throws or a held request could not be written: then it dies. */
  lemma ReportingEnds(q: Q, throws: bool)
    requires q.phase.AfterCommit?
    ensures var r := Step(q, EvAfterCommit(throws));
            r.db == q.db && if throws || q.phase.heldFailed then r.phase.Dead? else r.phase.Top? && r.held == q.held
  {
    hide ToldOfDeath, Outside, FailRunLoop, DeliverStep, ServedStep, Finish, Terminated, Begin, Wipe;
    FailingFrame(q);
    FailingFrame(AnswerControl(q));
  }

  /** A crank has something to report exactly when it asked for it, was not aborted, and has committed. */
  lemma ReportsWhatItCommits(q: Q, result: CrankResult, env: Env)
    requires MayFinish(q, Returned(result)) && !q.phase.item.ControlItem? && !result.terminate
    ensures var r := Step(q, EvFinish(Returned(result), env));
            && !r.phase.InCrank?
            && (result.abort || !result.afterCommit ==> r.phase.Top? || r.phase.Dead?)
            && (!result.abort && result.afterCommit ==>
                  (r.phase.AfterCommit? || r.phase.Dead?) && (r.phase.AfterCommit? <==> !Closing(q, result, env).threw && !env.endFault))
  {
    hide CrankFailed, Closing, FailRunLoop, WriteHeld, AnswerControl, AbortStep, LostByReturning, PromisesOf;
    AbortingFrame(q, result, env);
    var aborted := AbortStep(q, result, env).q;
    CrankFailingFrame(aborted, env);
    CrankFailingFrame(Closing(aborted, result, env).q, env);
    DyingFrame(Uncommitted(Closing(aborted, result, env).q));
    var written := WriteHeld(Closing(aborted, result, env).q.(phase := Top), env.heldFault).q;
    AnsweringControlFrame(written);
    FailingFrame(AnswerControl(written));
  }

  // ------------------------------------------------------------------ who has been told, and of what

  /** What the death of the loop tells depends only on who waits. */
  lemma FailingTellsTheWaiting(q: Q, r: Q)
    requires LoopCallers.SamePlaces(q, r)
    ensures FailRunLoop(r).told == FailRunLoop(q).told
  {
    hide TellAll, SubscribersOf, HoldersOf, ControllersOf;
  }

  /**
   * If the collection or the audit throws while the crank can still be undone, nobody has been answered out
   * of what is undone: callers learn of the loop's death and of nothing else, and the store is as the crank
   * found it.
   */
  lemma AuditAnswersNobody(q: Q, result: CrankResult, env: Env)
    requires q.rollbackAllowed && Plain(result) && (CollectStep(q, env).threw || env.auditFault)
    ensures var r := Close(q, result, env); r.told == FailRunLoop(q).told && r.db == Found(q) && r.phase.Dead?
  {
    hide FailRunLoop, CollectStep, TellAll, LostByReturning;
    assert q.(rollbackAllowed := q.rollbackAllowed && !result.irrevocable) == q;
    var collected := CollectStep(q, env).q;
    CollectingPlaces(q, env);
    DyingRestores(collected, env);
    var undone := RollBack(collected);
    FailingTellsTheWaiting(q, if env.endFault then Uncommitted(undone) else undone);
  }

  lemma CollectingPlaces(q: Q, env: Env)
    ensures var c := CollectStep(q, env).q;
            LoopCallers.SamePlaces(q, c) && c.saved == q.saved && c.rollbackAllowed == q.rollbackAllowed
  {
  }

  predicate Subscribed(q: Q, kpid: nat) {
    FindSubscription(q.subscriptions, kpid) < |q.subscriptions|
  }

  function AnswerOf(r: Resolution): Answer {
    if r.rejected then RejectedWith(r.value) else Resolved(r.value)
  }

  /** Settling tells the promise's first subscriber and nobody else. */
  lemma SettlingTells(q: Q, r: Resolution)
    ensures Settle(q, r).told
            == q.told + if Subscribed(q, r.kpid) then [Told(q.subscriptions[FindSubscription(q.subscriptions, r.kpid)].caller, AnswerOf(r))] else []
  {
    hide FindSubscription;
  }

  /**
   * A resolution made while a crank is open answers the promise's subscriber then and there if and only if it
   * is an immediate one: an endpoint's own resolution waits for the flush.
   */
  lemma AnsweredBeforeCommit(q: Q, who: Agent, r: Resolution, immediate: bool, f: multiset<KRef>)
    requires Sound(q.db, f)
    ensures ResolveStep(q, who, r, immediate).q.told
            == q.told + if immediate && Resolves(q.db, who, r) && Subscribed(q, r.kpid)
                        then [Told(q.subscriptions[FindSubscription(q.subscriptions, r.kpid)].caller, AnswerOf(r))] else []
  {
    hide Sound, ResolveOne, FindSubscription, ChargingEffect, Settle, Resolves, UnpaidByResolution;
    ResolveOneConserves(q.db, who, r, immediate, f);
    ChargingFrame(q, ResolveOne(q.db, who, r, immediate), UnpaidByResolution(q.db, who, r));
    SettlingTells(ChargingEffect(q, ResolveOne(q.db, who, r, immediate), UnpaidByResolution(q.db, who, r)).q, r);
  }

  /**
   * So a kernel service that answers while somebody else's crank is open is heard and then forgotten, should
   * that crank abort: its caller has been told, and every promise is as the crank found it, or not there.
   */
  lemma AnswerForgottenByAbort(q: Q, r: Resolution, result: CrankResult, env: Env)
    requires Whole(q) && q.phase.InCrank? && result.abort
    requires Resolves(q.db, TheKernel, r) && Subscribed(q, r.kpid)
    ensures var told := ResolveStep(q, TheKernel, r, true).q;
            && Told(q.subscriptions[FindSubscription(q.subscriptions, r.kpid)].caller, AnswerOf(r)) in told.told
            && AbortStep(told, result, env).q.db.promises == q.saved.promises
  {
    hide Whole, Resolves, ResolveStep, AbortStep, FindSubscription, Sound, InFlight;
    WholeIsSound(q);
    AnsweredBeforeCommit(q, TheKernel, r, true, q.lost + InFlight(q));
    ResolvingOneFrame(q, TheKernel, r, true);
    AbortReturnsToSavepoint(ResolveStep(q, TheKernel, r, true).q, result, env);
  }

  lemma WholeIsSound(q: Q)
    requires Whole(q) && q.phase.InCrank?
    ensures Sound(q.db, q.lost + InFlight(q))
  {
    hide Sound, LoopCallers.CallersKept;
  }
}
