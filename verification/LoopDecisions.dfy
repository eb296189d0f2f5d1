/**
 * How long a decision lasts. A promise decided while a crank is open, its caller answered then and there perhaps, is
 * decided in the store the crank leaves if and only if the crank is not undone.
 */
module LoopDecisions {
  import opened Prelude
  import opened KernelStore
  import opened KernelAccounting
  import opened KernelRouting
  import opened KernelLoop
  import opened LoopFrames
  import LoopConservation
  import LoopAnswers
  import LoopOutput
  import CrankAtomicity

  /** The promise has been settled, and perhaps collected since. */
  predicate Decided(s: Store, id: nat) {
    id < |s.promises| && !s.promises[id].state.Unresolved?
  }

  // ------------------------------------------------------------------ what undoes a crank

  /** Collecting, auditing or flushing throws. */
  predicate ThrowsAtClose(q: Q, env: Env) {
    || Collect(q.db, env.candidates).Threw? || env.collectFault || env.auditFault
    || (env.flushFault.Some? && env.flushFault.value < |q.db.crankBuffer|)
  }

  /**
   * The delivery's end undoes what its crank has done: an abort does, and so does a commit the database refuses, or
   * a throw at the close of a crank that neither ends a vat nor is irrevocable.
   */
  predicate UndoneBy(q: Q, result: CrankResult, env: Env) {
    result.abort || (!result.terminate && (env.endFault || (!result.irrevocable && ThrowsAtClose(q, env))))
  }

  predicate Undoes(q: Q, e: Event) {
    match e
    case EvFinish(end, env) => MayFinish(q, end) && (end.DeliverThrew? || UndoneBy(q, ResultOf(q.phase.item, end.result), env))
    case EvTerminated(env) => q.phase.InCrank? && q.phase.stage.Terminating? && env.endFault
    case _ => false
  }

  predicate NoneUndoes(q: Q, events: seq<Event>)
    decreases |events|
  {
    events == [] || (!Undoes(q, events[0]) && NoneUndoes(Step(q, events[0]), events[1..]))
  }

  // ------------------------------------------------------------------ the store a crank leaves

  /** The store a crank closes with: committed, or left by the loop that dies of what throws. */
  function LeftByClose(q: Q, result: CrankResult, env: Env): Store {
    var c := Closing(q, result, env);
    if c.threw then CrankFailed(c.q, env).db else if env.endFault then Uncommitted(c.q).db else c.q.db
  }

  /** The store a step leaves, before a crank that has committed writes what it held. */
  function StoreAfter(q: Q, e: Event): Store {
    match e
    case EvFinish(end, env) =>
      if !MayFinish(q, end) then q.db
      else if end.DeliverThrew? then CrankFailed(q, env).db
      else
        var result := ResultOf(q.phase.item, end.result);
        var aborted := AbortStep(q, result, env);
        if aborted.threw then CrankFailed(aborted.q, env).db
        else if result.terminate then aborted.q.db
        else LeftByClose(aborted.q, result, env)
    case EvTerminated(env) =>
      if !(q.phase.InCrank? && q.phase.stage.Terminating?) then q.db
      else if env.terminateFault then CrankFailed(q.(rollbackAllowed := false), env).db
      else LeftByClose(q.(rollbackAllowed := false), q.phase.stage.outcome, env)
    case _ => Step(q, e).db
  }

  lemma ClosingLeaves(q: Q, result: CrankResult, env: Env)
    requires q.held == []
    ensures Close(q, result, env).db == LeftByClose(q, result, env)
  {
    hide Closing, CrankFailed, FailRunLoop, AnswerControl, LostByReturning;
    ClosingStoreFrame(q, result, env);
    var closed := Closing(q, result, env).q;
    FailingFrame(Uncommitted(closed));
    var top := closed.(phase := Top);
    assert WriteHeld(top, env.heldFault) == Effect(top, false);
    AnsweringControlFrame(top);
    FailingFrame(AnswerControl(top));
  }

  /** With nothing held, that is the store. */
  lemma LeavesItsStore(q: Q, e: Event)
    requires q.held == []
    ensures Step(q, e).db == StoreAfter(q, e)
  {
    hide CrankFailed, Close, AbortStep, LeftByClose, Outside, Begin, DeliverStep, ServedStep, Reported, Wipe;
    match e
    case EvFinish(end, env) =>
      if MayFinish(q, end) && end.Returned? {
        var result := ResultOf(q.phase.item, end.result);
        AbortingFrame(q, result, env);
        ClosingLeaves(AbortStep(q, result, env).q, result, env);
      }
    case EvTerminated(env) =>
      if q.phase.InCrank? && q.phase.stage.Terminating? { ClosingLeaves(q.(rollbackAllowed := false), q.phase.stage.outcome, env); }
    case _ =>
  }

  // ------------------------------------------------------------------ nothing but a return to the savepoint undecides

  lemma LeavingDecided(s: Store, t: Store, decided: set<nat>, id: nat)
    requires LoopAnswers.Leaves(s, t, decided) && Decided(s, id)
    ensures Decided(t, id)
  {
    assert !LoopAnswers.Undecided(s, id) && !LoopAnswers.Undecided(t, id);
  }

  lemma {:induction false} ResolvingDecided(q: Q, who: Agent, rs: seq<Resolution>, immediate: bool, id: nat)
    requires Decided(q.db, id)
    ensures Decided(ResolveSteps(q, who, rs, immediate).q.db, id)
    decreases |rs|
  {
    hide Decided, ResolveStep, ResolveOne, LoopAnswers.Leaves;
    if rs != [] {
      ResolvingOneFrame(q, who, rs[0], immediate);
      LoopAnswers.ResolvingLeaves(q.db, who, rs[0], immediate);
      LeavingDecided(q.db, ResolveOne(q.db, who, rs[0], immediate).store, {rs[0].kpid}, id);
      ResolvingDecided(ResolveStep(q, who, rs[0], immediate).q, who, rs[1..], immediate, id);
    }
  }

  lemma OpDecided(q: Q, op: Op, id: nat)
    requires Decided(q.db, id)
    ensures Decided(OpStep(q, op).q.db, id)
  {
    hide ResolveSteps, EnqueueSend, Unpaid, LoopAnswers.Leaves;
    match op
    case OpResolve(who, rs, immediate) => ResolvingDecided(q, who, rs, AtOnce(q, immediate), id);
    case OpSend(target, m, immediate) => LoopAnswers.SendLeaves(q.db, target, m, AtOnce(q, immediate));
    case _ =>
  }

  lemma {:induction false} OpsDecided(q: Q, ops: seq<Op>, id: nat)
    requires Decided(q.db, id)
    ensures Decided(OpSteps(q, ops).q.db, id)
    decreases |ops|
  {
    hide Decided, OpStep;
    if ops != [] {
      OpDecided(q, ops[0], id);
      OpsDecided(OpStep(q, ops[0]).q, ops[1..], id);
    }
  }

  lemma ReleasingDecided(s: Store, refs: seq<KRef>, id: nat)
    requires Decided(s, id)
    ensures Decided(ReleaseAll(s, refs).store, id)
  {
    ReleaseAllKeepsRows(s, refs);
  }

  lemma RejectingDecided(q: Q, result: Option<nat>, error: CapData, refs: seq<KRef>, id: nat)
    requires Decided(q.db, id)
    ensures Decided(RejectAndRelease(q, result, error, refs).q.db, id)
  {
    hide Decided, ResolveSteps, ReleaseAll;
    if result.Some? && Live(q.db, result.value) {
      ResolvingDecided(q, Decider(q.db, result.value), [Resolution(result.value, true, error)], true, id);
    }
    ReleasingDecided(RejectResultStep(q, result, error).q.db, refs, id);
  }

  lemma SendingDecided(q: Q, target: KRef, m: KernelStore.Message, running: set<EndpointId>, id: nat)
    requires Decided(q.db, id)
    ensures Decided(SendStep(q, target, m, running).0.q.db, id)
  {
    hide Decided, RejectAndRelease, HandOver, DeliverRequeue, RouteOf, LoopAnswers.Leaves;
    match RouteOf(q.db, target)
    case UnknownPromise =>
    case Splat(error) => RejectingDecided(q, m.result, error, SendRefs(target, m), id);
    case Requeue(kpid) =>
      LoopAnswers.RequeueLeaves(q.db, target, m, kpid);
      LeavingDecided(q.db, DeliverRequeue(q.db, target, m, kpid).store, {}, id);
    case ToAgent(who, _) =>
      RejectingDecided(q, m.result, KERNEL_ERROR, ResultRef(m) + [target] + m.methargs.slots, id);
      LoopAnswers.HandingLeaves(q.db, who, m);
      LeavingDecided(q.db, HandOver(q.db, who, m).store, {}, id);
  }

  lemma DeliveringDecided(q: Q, running: set<EndpointId>, id: nat)
    requires q.phase.InCrank? && Decided(q.db, id)
    ensures Decided(DeliverStep(q, running).db, id)
  {
    hide SendStep, Decided, Decrement;
    match q.phase.item
    case RunItem(Send(target, m)) => SendingDecided(q, target, m, running, id);
    case RunItem(Notify(_, kpid)) => DecrementDecided(q.db, KPromise(kpid), id);
    case _ =>
  }

  lemma DecrementDecided(s: Store, k: KRef, id: nat)
    requires Decided(s, id)
    ensures Decided(Decrement(s, k).store, id)
  {
  }

  lemma ServingDecided(q: Q, failed: bool, id: nat)
    requires q.phase.InCrank? && q.phase.stage.Serving? && Decided(q.db, id)
    ensures Decided(ServedStep(q, failed).db, id)
  {
    hide Decided, ResolveSteps, ReleaseAll;
    var stage := q.phase.stage;
    var told := if failed then RejectIfPendingStep(q, stage.who, stage.result, KERNEL_ERROR) else Effect(q, false);
    if stage.result.Some? {
      ResolvingDecided(q, stage.who, [Resolution(stage.result.value, true, KERNEL_ERROR)], true, id);
    }
    ReleasingDecided(told.q.db, stage.refs, id);
  }

  lemma OutsideDecided(q: Q, e: Event, id: nat)
    requires q.phase.InCrank? && Decided(q.db, id)
    ensures Decided(Outside(q, e).db, id)
  {
    hide Decided, WriteRequest, OpSteps, Kept;
    match e
    case EvOps(ops) => OpsDecided(q, ops, id);
    case EvMessage(_, _, _) => case EvWrite(_, _) => case EvRequest(_) =>
    case _ => QuietFrame(q, e); QuietStore(q, Outside(q, e));
  }

  lemma QuietStore(q: Q, r: Q)
    requires Kept(q, r)
    ensures r.db == q.db
  {
  }

  lemma StandingDecided(s: Store, t: Store, id: nat)
    requires CrankAtomicity.Stands(s, t) && Decided(s, id)
    ensures Decided(t, id)
  {
    assert CrankAtomicity.RowStands(s.promises[id], t.promises[id]);
  }

  // ------------------------------------------------------------------ closing, and going back

  lemma ClosingThrows(q: Q, result: CrankResult, env: Env)
    requires !result.abort
    ensures Closing(q, result, env).threw <==> ThrowsAtClose(q, env)
  {
    hide CollectStep, FlushAndAudit, Collect, LostByFlush, Flushed;
    var bound := q.(rollbackAllowed := q.rollbackAllowed && !result.irrevocable);
    CollectingFrame(bound, env);
    LoopOutput.CollectingKeepsBuffer(q.db, env.candidates);
    AuditingFrame(CollectStep(bound, env).q, result, env);
  }

  /** A store returned to the savepoint has the promises that one has. */
  lemma ReturnedStores(q: Q, env: Env)
    ensures q.rollbackAllowed || env.endFault ==> CrankFailed(q, env).db.promises == q.saved.promises
    ensures !q.rollbackAllowed && !env.endFault ==> CrankFailed(q, env).db == q.db
    ensures Uncommitted(q).db.promises == q.saved.promises
  {
    hide FailRunLoop, LostByReturning;
    var undone := if q.rollbackAllowed then RollBack(q) else q;
    FailingFrame(if env.endFault then Uncommitted(undone) else undone);
  }

  lemma SamePromises(s: Store, t: Store, id: nat)
    requires s.promises == t.promises
    ensures Decided(s, id) <==> Decided(t, id)
  {
  }

  /** A crank that is not aborted, closed: what it has decided stands if and only if it is not undone. */
  lemma ClosingLasts(q: Q, result: CrankResult, env: Env, id: nat)
    requires q.rollbackAllowed && !result.abort && !result.terminate && Decided(q.db, id) && !Decided(q.saved, id)
    ensures Decided(LeftByClose(q, result, env), id) <==> !UndoneBy(q, result, env)
  {
    hide Closing, CrankFailed, Decided, ThrowsAtClose, CrankAtomicity.Stands, Uncommitted;
    ClosingThrows(q, result, env);
    CrankAtomicity.ClosingStands(q, result, env);
    ClosingStoreFrame(q, result, env);
    var closed := Closing(q, result, env).q;
    StandingDecided(q.db, closed.db, id);
    ReturnedStores(closed, env);
    if closed.rollbackAllowed || env.endFault { SamePromises(CrankFailed(closed, env).db, q.saved, id); }
    SamePromises(Uncommitted(closed).db, q.saved, id);
  }

  /** Once it can no longer be undone, only a refused commit takes it back. */
  lemma BoundClosingLasts(q: Q, result: CrankResult, env: Env, id: nat)
    requires !q.rollbackAllowed && Decided(q.db, id) && !Decided(q.saved, id)
    ensures Decided(LeftByClose(q, result, env), id) <==> !env.endFault
  {
    hide Closing, CrankFailed, Decided, CrankAtomicity.Stands, Uncommitted;
    CrankAtomicity.ClosingStands(q, result, env);
    ClosingStoreFrame(q, result, env);
    var closed := Closing(q, result, env).q;
    StandingDecided(q.db, closed.db, id);
    ReturnedStores(closed, env);
    if env.endFault {
      SamePromises(if Closing(q, result, env).threw then CrankFailed(closed, env).db else Uncommitted(closed).db, q.saved, id);
    }
  }

  /** Collecting decides nothing, nor does it make a promise. */
  lemma CollectingDecides(s: Store, candidates: seq<KRef>, id: nat, f: multiset<KRef>)
    requires Sound(s, f) && !Decided(s, id)
    ensures !Decided(Collect(s, candidates).store, id)
  {
    hide Sound, Collect;
    LoopAnswers.CollectingLeaves(s, candidates, f);
    CrankAtomicity.CollectStands(s, candidates);
    if id < |s.promises| { assert LoopAnswers.Undecided(s, id); }
  }

  /** An aborted crank, closed: nothing it had decided is. */
  lemma AbortedClosingForgets(q: Q, result: CrankResult, env: Env, id: nat, f: multiset<KRef>)
    requires result.abort && !q.rollbackAllowed && Sound(q.db, f) && !Decided(q.db, id) && !Decided(q.saved, id)
    ensures !Decided(LeftByClose(q, result, env), id)
  {
    hide Closing, CrankFailed, Decided, Sound, Uncommitted;
    ClosingStoreFrame(q, result, env);
    var closed := Closing(q, result, env).q;
    AbortedCloses(q, result, env);
    CollectingDecides(q.db, env.candidates, id, f);
    ReturnedStores(closed, env);
    SamePromises(CrankFailed(closed, env).db, if env.endFault then q.saved else closed.db, id);
    SamePromises(Uncommitted(closed).db, q.saved, id);
  }

  lemma AbortedCloses(q: Q, result: CrankResult, env: Env)
    requires result.abort
    ensures Closing(q, result, env).q.db == Collect(q.db, env.candidates).store
  {
    hide Collect;
    var bound := q.(rollbackAllowed := q.rollbackAllowed && !result.irrevocable);
    CrankAtomicity.CollectingStores(bound, env);
    CrankAtomicity.AbortedFlush(CollectStep(bound, env).q, result, env);
  }

  lemma FinishingLasts(q: Q, end: DeliverEnd, env: Env, id: nat)
    requires LoopConservation.Conserved(q) && MayFinish(q, end) && Decided(q.db, id) && !Decided(q.saved, id)
    ensures Decided(StoreAfter(q, EvFinish(end, env)), id) <==> !Undoes(q, EvFinish(end, env))
  {
    hide Sound, CrankFailed, AbortStep, Decided, LeftByClose, LoopConservation.SavedBalances, ThrowsAtClose, LostByReturning, PromisesOf;
    ReturnedStores(q, env);
    SamePromises(CrankFailed(q, env).db, q.saved, id);
    if end.Returned? {
      var result := ResultOf(q.phase.item, end.result);
      AbortingFrame(q, result, env);
      if result.abort {
        AbortingForgets(q, result, env, id);
      } else if !result.terminate {
        ClosingLasts(q, result, env, id);
      }
    }
  }

  lemma AbortingForgets(q: Q, result: CrankResult, env: Env, id: nat)
    requires LoopConservation.Conserved(q) && MayFinish(q, Returned(result)) && result.abort && !Decided(q.saved, id)
    ensures var aborted := AbortStep(q, result, env);
            && (aborted.threw ==> !Decided(CrankFailed(aborted.q, env).db, id))
            && !Decided(aborted.q.db, id) && !Decided(LeftByClose(aborted.q, result, env), id)
  {
    hide Sound, CrankFailed, AbortStep, Decided, LeftByClose, LoopConservation.SavedBalances, LostByReturning, PromisesOf;
    AbortingFrame(q, result, env);
    LoopConservation.AbortingConserves(q, result, env);
    var aborted := AbortStep(q, result, env).q;
    ReturnedStores(aborted, env);
    SamePromises(aborted.db, q.saved, id);
    SamePromises(CrankFailed(aborted, env).db, q.saved, id);
    AbortedClosingForgets(aborted, result, env, id, aborted.lost + multiset{});
  }

  lemma TerminatingLasts(q: Q, env: Env, id: nat)
    requires q.phase.InCrank? && q.phase.stage.Terminating? && Decided(q.db, id) && !Decided(q.saved, id)
    ensures Decided(StoreAfter(q, EvTerminated(env)), id) <==> !env.endFault
  {
    hide CrankFailed, Decided, LeftByClose;
    var recorded := q.(rollbackAllowed := false);
    ReturnedStores(recorded, env);
    SamePromises(CrankFailed(recorded, env).db, if env.endFault then q.saved else q.db, id);
    BoundClosingLasts(recorded, q.phase.stage.outcome, env, id);
  }

  /** A decision made in the open crank lasts through a step if and only if the step does not undo the crank. */
  lemma DecisionLastsExactly(q: Q, e: Event, id: nat)
    requires LoopConservation.Conserved(q) && q.phase.InCrank? && !e.EvWipe? && Decided(q.db, id) && !Decided(q.saved, id)
    ensures Decided(StoreAfter(q, e), id) <==> !Undoes(q, e)
  {
    hide LoopConservation.Conserved, Decided, DeliverStep, ServedStep, Outside, CrankFailed, LeftByClose, AbortStep, UndoneBy;
    match e
    case EvDeliver(running) => if InStage(q, true) { DeliveringDecided(q, running, id); }
    case EvServed(failed) => if InStage(q, false) { ServingDecided(q, failed, id); }
    case EvFinish(end, env) => if MayFinish(q, end) { FinishingLasts(q, end, env, id); }
    case EvTerminated(env) => if q.phase.stage.Terminating? { TerminatingLasts(q, env, id); }
    case EvStart => case EvBegin(_, _, _) => case EvAfterCommit(_) => case EvWake =>
    case _ => OutsideDecided(q, e, id);
  }

  // ------------------------------------------------------------------ over a whole crank

  lemma StaysOpen(q: Q, e: Event)
    requires q.phase.InCrank? && Step(q, e).phase.InCrank?
    ensures Step(q, e).db == StoreAfter(q, e) && Step(q, e).saved == q.saved
  {
    hide Finish, Terminated, Outside, Begin, DeliverStep, ServedStep, Reported, Wipe;
    CrankAtomicity.StepKeepsSavepoint(q, e);
    match e
    case EvFinish(end, env) => if MayFinish(q, end) { FinishStaysOpen(q, end, env); }
    case EvTerminated(env) => if q.phase.stage.Terminating? { TerminatingFrame(q, env); }
    case _ =>
  }

  lemma FinishStaysOpen(q: Q, end: DeliverEnd, env: Env)
    requires MayFinish(q, end) && Finish(q, end, env).phase.InCrank?
    ensures Finish(q, end, env).db == StoreAfter(q, EvFinish(end, env))
  {
    hide CrankFailed, AbortStep, LeftByClose, Close;
    CrankFailingFrame(q, env);
    if end.Returned? {
      var result := ResultOf(q.phase.item, end.result);
      CrankFailingFrame(AbortStep(q, result, env).q, env);
      ClosingFrame(AbortStep(q, result, env).q, result, env);
    }
  }

  /** Through steps that keep the crank open and do not undo it. */
  lemma {:induction false} DecisionLasts(q: Q, events: seq<Event>, id: nat)
    requires LoopConservation.Steady(q) && CrankAtomicity.OpenThroughout(q, events) && NoneUndoes(q, events) && NoWipe(events)
    requires Decided(q.db, id) && !Decided(q.saved, id)
    ensures var r := Run(q, events);
            LoopConservation.Steady(r) && r.phase.InCrank? && r.saved == q.saved && Decided(r.db, id)
    decreases |events|
  {
    hide LoopConservation.Conserved, LoopConservation.ProperHeld, LoopConservation.ControlHoldsNothing, Step, Decided, Undoes, StoreAfter;
    if events != [] {
      LoopConservation.StepConserves(q, events[0]);
      DecisionLastsExactly(q, events[0], id);
      StaysOpen(q, events[0]);
      assert forall i | 0 <= i < |events[1..]| :: events[1..][i] == events[i + 1];
      DecisionLasts(Step(q, events[0]), events[1..], id);
    }
  }

  /** What the crank found decided is decided, undone or not. */
  predicate FoundStands(q: Q, id: nat) {
    Decided(q.saved, id) ==> Decided(q.db, id)
  }

  lemma StepFoundStands(q: Q, e: Event, id: nat)
    requires q.phase.InCrank? && Step(q, e).phase.InCrank? && !e.EvWipe? && FoundStands(q, id)
    ensures FoundStands(Step(q, e), id)
  {
    hide DeliverStep, ServedStep, Finish, Terminated, Outside, Decided;
    StaysOpen(q, e);
    if Decided(q.saved, id) {
      match e
      case EvDeliver(running) => if InStage(q, true) { DeliveringDecided(q, running, id); }
      case EvServed(failed) => if InStage(q, false) { ServingDecided(q, failed, id); }
      case EvFinish(end, env) => if MayFinish(q, end) { FinishingFound(q, end, env, id); }
      case EvTerminated(env) => if q.phase.stage.Terminating? { TerminatingFrame(q, env); }
      case EvStart => case EvBegin(_, _, _) => case EvAfterCommit(_) => case EvWake =>
      case _ => OutsideDecided(q, e, id);
    }
  }

  lemma FinishingFound(q: Q, end: DeliverEnd, env: Env, id: nat)
    requires MayFinish(q, end) && Finish(q, end, env).phase.InCrank? && Decided(q.saved, id) && Decided(q.db, id)
    ensures Decided(Finish(q, end, env).db, id)
  {
    hide CrankFailed, AbortStep, Close, LostByReturning, PromisesOf;
    CrankFailingFrame(q, env);
    if end.Returned? {
      var result := ResultOf(q.phase.item, end.result);
      AbortingFrame(q, result, env);
      CrankFailingFrame(AbortStep(q, result, env).q, env);
      ClosingFrame(AbortStep(q, result, env).q, result, env);
    }
  }

  lemma {:induction false} RunFoundStands(q: Q, events: seq<Event>, id: nat)
    requires CrankAtomicity.OpenThroughout(q, events) && NoWipe(events) && FoundStands(q, id)
    ensures FoundStands(Run(q, events), id) && Run(q, events).phase.InCrank?
    decreases |events|
  {
    hide Step, FoundStands;
    if events != [] {
      StepFoundStands(q, events[0], id);
      assert forall i | 0 <= i < |events[1..]| :: events[1..][i] == events[i + 1];
      RunFoundStands(Step(q, events[0]), events[1..], id);
    }
  }

  lemma OpeningFound(q: Q, priority: Priority, id: nat)
    requires q.phase.Top?
    ensures var r := Step(q, EvBegin(priority, false, None)); r.phase.InCrank? ==> FoundStands(r, id)
  {
    hide Park, GetNext;
    CrankAtomicity.OpeningSaves(q, priority, false, None);
    var open := Savepoint(q);
    LoopConservation.TakenStore(open, priority);
    CrankAtomicity.ParkingOpensNone(GetNext(open, priority).q, false, None);
  }

  /** A step that only makes an immediate resolution. */
  function Answering(who: Agent, r: Resolution): Event {
    EvOps([OpResolve(who, [r], true)])
  }

  lemma AnsweringStep(q: Q, who: Agent, r: Resolution)
    ensures Step(q, Answering(who, r)) == ResolveStep(q, who, r, true).q
  {
    hide ResolveStep;
    var op := OpResolve(who, [r], true);
    assert [r][1..] == [] && [op][1..] == [];
    var done := ResolveStep(q, who, r, true);
    assert ResolveSteps(done.q, who, [], true) == Effect(done.q, false);
    assert ResolveSteps(q, who, [r], true) == done;
    assert OpSteps(done.q, []) == Effect(done.q, false);
    assert OpSteps(q, [op]) == done;
  }

  lemma AnswerDecides(q: Q, who: Agent, r: Resolution, f: multiset<KRef>)
    requires Sound(q.db, f) && Resolves(q.db, who, r)
    ensures Decided(ResolveStep(q, who, r, true).q.db, r.kpid) && !Decided(q.db, r.kpid)
  {
    hide Sound, ResolveOne;
    ResolveOneConserves(q.db, who, r, true, f);
    LoopAnswers.ResolvingDecides(q.db, who, r, true, f);
    LoopAnswers.ResolvingLeaves(q.db, who, r, true);
    ResolvingOneFrame(q, who, r, true);
  }

  /**
   * How long an answer lasts. Take any crank, anything short of a wipe happening while it is open, and an immediate
   * resolution made in it: whoever awaits the promise is told at once. The promise stays decided through whatever else happens
   * until a step undoes the crank, and is decided in the store a step leaves, the one that closes the crank
   * included, if and only if that step does not undo it.
   */
  lemma AnswerLastsExactly(q: Q, priority: Priority, before: seq<Event>, who: Agent, r: Resolution, after: seq<Event>, e: Event)
    requires CrankAtomicity.Whole(q) && q.phase.Top?
    requires CrankAtomicity.OpenThroughout(Step(q, EvBegin(priority, false, None)), before) && NoWipe(before)
    requires Resolves(Run(Step(q, EvBegin(priority, false, None)), before).db, who, r)
    requires var told := Step(Run(Step(q, EvBegin(priority, false, None)), before), Answering(who, r));
             CrankAtomicity.OpenThroughout(told, after) && NoneUndoes(told, after)
    requires NoWipe(after) && !e.EvWipe?
    ensures var mid := Run(Step(q, EvBegin(priority, false, None)), before);
            var told := Step(mid, Answering(who, r));
            && (CrankAtomicity.Subscribed(mid, r.kpid) ==>
                  Told(mid.subscriptions[FindSubscription(mid.subscriptions, r.kpid)].caller, CrankAtomicity.AnswerOf(r)) in told.told)
            && Decided(Run(told, after).db, r.kpid)
            && (Decided(StoreAfter(Run(told, after), e), r.kpid) <==> !Undoes(Run(told, after), e))
  {
    hide CrankAtomicity.Whole, Begin, Run, Decided, Resolves, StoreAfter, Undoes, OpSteps, CrankAtomicity.Subscribed, FindSubscription;
    CrankAtomicity.OpenedCrank(q, priority, before);
    OpeningFound(q, priority, r.kpid);
    var mid := Run(Step(q, EvBegin(priority, false, None)), before);
    RunFoundStands(Step(q, EvBegin(priority, false, None)), before, r.kpid);
    AnswerInCrank(mid, who, r);
    var told := Step(mid, Answering(who, r));
    DecisionLasts(told, after, r.kpid);
    SteadyConserves(Run(told, after));
    DecisionLastsExactly(Run(told, after), e, r.kpid);
  }

  lemma SteadyConserves(q: Q)
    requires LoopConservation.Steady(q)
    ensures LoopConservation.Conserved(q)
  {
  }

  /** The resolution decides the promise, tells its subscriber, and leaves the crank and its savepoint as they were. */
  lemma AnswerInCrank(q: Q, who: Agent, r: Resolution)
    requires CrankAtomicity.Whole(q) && q.phase.InCrank? && FoundStands(q, r.kpid) && Resolves(q.db, who, r)
    ensures var told := Step(q, Answering(who, r));
            && LoopConservation.Steady(told) && told.phase == q.phase && told.saved == q.saved
            && Decided(told.db, r.kpid) && !Decided(told.saved, r.kpid)
            && (CrankAtomicity.Subscribed(q, r.kpid) ==>
                  Told(q.subscriptions[FindSubscription(q.subscriptions, r.kpid)].caller, CrankAtomicity.AnswerOf(r)) in told.told)
  {
    hide Sound, Resolves, ResolveStep, FindSubscription, InFlight, Step, Decided;
    CrankAtomicity.WholeIsSound(q);
    var f := q.lost + InFlight(q);
    AnsweringStep(q, who, r);
    AnswerDecides(q, who, r, f);
    CrankAtomicity.AnsweredBeforeCommit(q, who, r, true, f);
    ResolvingOneFrame(q, who, r, true);
    WholeIsSteady(q);
    LoopConservation.StepConserves(q, Answering(who, r));
  }

  lemma WholeIsSteady(q: Q)
    requires CrankAtomicity.Whole(q)
    ensures LoopConservation.Steady(q)
  {
  }
}
