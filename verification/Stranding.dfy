/**
 * Messages sent to a promise that was fulfilled with another promise (packages/ocap-kernel/src/KernelRouter.ts:249-262,
 * 437-448).
 *
 * Such a message is put on the other promise's queue whatever that promise's state. If the other promise has
 * settled already, its queue has been drained for the last time, and the message never moves again.
 */
module Stranding {
  import opened Prelude
  import opened KernelStore
  import opened KernelAccounting
  import opened KernelRouting
  import opened KernelLoop
  import opened LoopFrames
  import LoopConservation

  /** These messages, and maybe more, wait on a promise that has settled. */
  predicate StrandedOn(s: Store, id: nat, queue: seq<KernelStore.Message>) {
    id < |s.promises| && s.promises[id].state.Settled? && queue != [] && queue <= s.promises[id].queue
  }

  /**
   * A requeued message waits last on the promise it is routed to, whose state does not change: so it is
   * stranded exactly when that promise has settled, which a target that is itself pending rules out.
   */
  lemma RequeueStrands(s: Store, target: KRef, m: KernelStore.Message, kpid: nat, inFlight: multiset<KRef>)
    requires Sound(s, inFlight + RefsOfItem(Send(target, m))) && RouteOf(s, target) == Requeue(kpid)
    requires DeliverRequeue(s, target, m, kpid).Done?
    ensures kpid < |s.promises|
    ensures var t := DeliverRequeue(s, target, m, kpid).store;
            && t.promises == s.promises[kpid := s.promises[kpid].(queue := s.promises[kpid].queue + [m])]
            && (StrandedOn(t, kpid, s.promises[kpid].queue + [m]) <==> s.promises[kpid].state.Settled?)
            && (s.promises[kpid].state.Settled? ==> target.KPromise? && Live(s, target.id) && s.promises[target.id].state.Settled?)
  {
    hide Sound;
    ChargeAllRaises(s, SendRefs(KPromise(kpid), m));
    EnqueuePromiseMessageConserves(s, kpid, m, inFlight + RefsOfItem(Send(target, m)));
    var queued := EnqueuePromiseMessage(s, kpid, m).store;
    ReleaseAllKeepsRows(queued, SendRefs(target, m));
  }

  // ------------------------------------------------------------------ it never moves again

  lemma {:induction false} NotifyingKeepsRows(s: Store, subscribers: seq<EndpointId>, kpid: nat, immediate: bool)
    ensures EnqueueNotifies(s, subscribers, kpid, immediate).store.promises == s.promises
    decreases |subscribers|
  {
    if subscribers != [] && EnqueueNotify(s, subscribers[0], kpid, immediate).Done? {
      NotifyingKeepsRows(EnqueueNotify(s, subscribers[0], kpid, immediate).store, subscribers[1..], kpid, immediate);
    }
  }

  lemma SendingKeepsRows(s: Store, target: KRef, m: KernelStore.Message, immediate: bool)
    ensures EnqueueSend(s, target, m, immediate).store.promises == s.promises
  {
    ChargeAllRaises(s, SendRefs(target, m));
  }

  lemma {:induction false} ResendingKeepsRows(s: Store, target: KRef, messages: seq<KernelStore.Message>, immediate: bool)
    ensures EnqueueSends(s, target, messages, immediate).store.promises == s.promises
    decreases |messages|
  {
    hide EnqueueSend;
    if messages != [] {
      SendingKeepsRows(s, target, messages[0], immediate);
      var first := EnqueueSend(s, target, messages[0], immediate);
      if first.Done? { ResendingKeepsRows(first.store, target, messages[1..], immediate); }
    }
  }

  lemma SettlingTouchesOne(s: Store, id: nat, rejected: bool, value: CapData)
    requires id < |s.promises|
    ensures var t := SettlePromise(s, id, rejected, value).store;
            |t.promises| == |s.promises| && forall i | 0 <= i < |s.promises| && i != id :: t.promises[i] == s.promises[i]
  {
    ReleaseQueueKeepsRows(SetRow(s, id, s.promises[id].(queue := [])), KPromise(id), s.promises[id].queue);
  }

  /** A resolution touches a pending promise's row alone, even one refused partway. */
  lemma ResolvingOneLeaves(s: Store, who: Agent, r: Resolution, immediate: bool, id: nat, queue: seq<KernelStore.Message>)
    requires StrandedOn(s, id, queue)
    ensures StrandedOn(ResolveOne(s, who, r, immediate).store, id, queue)
  {
    if MayResolve(s, who, r.kpid) {
      hide ChargeAll, EnqueueNotifies, SettlePromise, EnqueueSends;
      ChargeAllRaises(s, r.value.slots);
      var charged := ChargeAll(s, r.value.slots).store;
      var row := s.promises[r.kpid];
      NotifyingKeepsRows(charged, row.state.subscribers, r.kpid, immediate);
      var notified := EnqueueNotifies(charged, row.state.subscribers, r.kpid, immediate).store;
      SettlingTouchesOne(notified, r.kpid, r.rejected, r.value);
      ResendingKeepsRows(SettlePromise(notified, r.kpid, r.rejected, r.value).store, KPromise(r.kpid), row.queue, immediate);
    }
  }

  lemma {:induction false} ResolvingLeaves(q: Q, who: Agent, rs: seq<Resolution>, immediate: bool, id: nat, queue: seq<KernelStore.Message>)
    requires StrandedOn(q.db, id, queue)
    ensures StrandedOn(ResolveSteps(q, who, rs, immediate).q.db, id, queue)
    decreases |rs|
  {
    hide StrandedOn, ResolveStep, ResolveOne;
    if rs != [] {
      ResolvingOneFrame(q, who, rs[0], immediate);
      ResolvingOneLeaves(q.db, who, rs[0], immediate, id, queue);
      ResolvingLeaves(ResolveStep(q, who, rs[0], immediate).q, who, rs[1..], immediate, id, queue);
    }
  }

  lemma OpLeaves(q: Q, op: Op, id: nat, queue: seq<KernelStore.Message>)
    requires StrandedOn(q.db, id, queue)
    ensures StrandedOn(OpStep(q, op).q.db, id, queue)
  {
    hide ResolveSteps, EnqueueSend, Unpaid;
    match op
    case OpResolve(who, rs, immediate) => ResolvingLeaves(q, who, rs, AtOnce(q, immediate), id, queue);
    case OpSend(target, m, immediate) => SendingKeepsRows(q.db, target, m, AtOnce(q, immediate));
    case _ =>
  }

  lemma {:induction false} OpsLeave(q: Q, ops: seq<Op>, id: nat, queue: seq<KernelStore.Message>)
    requires StrandedOn(q.db, id, queue)
    ensures StrandedOn(OpSteps(q, ops).q.db, id, queue)
    decreases |ops|
  {
    hide StrandedOn, OpStep;
    if ops != [] {
      OpLeaves(q, ops[0], id, queue);
      OpsLeave(OpStep(q, ops[0]).q, ops[1..], id, queue);
    }
  }

  lemma MessageLeaves(q: Q, caller: Caller, target: KRef, methargs: CapData, id: nat, queue: seq<KernelStore.Message>)
    requires StrandedOn(q.db, id, queue)
    ensures StrandedOn(WriteMessage(q, caller, target, methargs).q.db, id, queue)
  {
    hide EnqueueSend, SomeMissing;
    SendingKeepsRows(InitPromise(q.db), target, KernelStore.Message(methargs, Some(|q.db.promises|)), true);
  }

  lemma WritingLeaves(q: Q, h: HeldRequest, id: nat, queue: seq<KernelStore.Message>)
    requires StrandedOn(q.db, id, queue)
    ensures StrandedOn(WriteRequest(q, h).q.db, id, queue)
  {
    hide OpSteps, WriteMessage;
    match h
    case HeldMessage(caller, target, methargs) => MessageLeaves(q, caller, target, methargs, id, queue);
    case HeldWrite(_, ops) => OpsLeave(q, ops, id, queue);
    case HeldItem(item) =>
  }

  lemma {:induction false} WritingHeldLeaves(q: Q, fault: Option<nat>, id: nat, queue: seq<KernelStore.Message>)
    requires StrandedOn(q.db, id, queue)
    ensures StrandedOn(WriteHeld(q, fault).q.db, id, queue)
    decreases |q.held|
  {
    hide StrandedOn, WriteRequest;
    if q.held != [] && fault != Some(0) {
      WritingLeaves(q, q.held[0], id, queue);
      var first := WriteRequest(q, q.held[0]);
      if !first.threw {
        WritingHeldLeaves(first.q.(held := q.held[1..]), if fault.Some? && fault.value > 0 then Some(fault.value - 1) else None, id, queue);
      }
    }
  }

  lemma OutsideLeaves(q: Q, e: Event, id: nat, queue: seq<KernelStore.Message>)
    requires StrandedOn(q.db, id, queue)
    ensures StrandedOn(Outside(q, e).db, id, queue)
  {
    hide StrandedOn, WriteRequest, OpSteps, Kept;
    match e
    case EvMessage(caller, target, methargs) => WritingLeaves(Issue(q, caller), HeldMessage(caller, target, methargs), id, queue);
    case EvWrite(caller, ops) => WritingLeaves(Issue(q, caller), HeldWrite(caller, ops), id, queue);
    case EvRequest(item) => WritingLeaves(q, HeldItem(item), id, queue);
    case EvOps(ops) => OpsLeave(q, ops, id, queue);
    case _ => QuietFrame(q, e); KeptStore(q, Outside(q, e));
  }

  lemma KeptStore(q: Q, r: Q)
    requires Kept(q, r)
    ensures r.db == q.db && r.saved == q.saved && r.phase == q.phase
  {
  }

  // ------------------------------------------------------------------ deliveries

  lemma ReleasingLeaves(s: Store, refs: seq<KRef>, id: nat, queue: seq<KernelStore.Message>)
    requires StrandedOn(s, id, queue)
    ensures StrandedOn(ReleaseAll(s, refs).store, id, queue)
  {
    ReleaseAllKeepsRows(s, refs);
  }

  lemma RejectingLeaves(q: Q, result: Option<nat>, error: CapData, refs: seq<KRef>, id: nat, queue: seq<KernelStore.Message>)
    requires StrandedOn(q.db, id, queue)
    ensures StrandedOn(RejectAndRelease(q, result, error, refs).q.db, id, queue)
  {
    hide StrandedOn, ResolveSteps, ReleaseAll;
    if result.Some? && Live(q.db, result.value) {
      ResolvingLeaves(q, Decider(q.db, result.value), [Resolution(result.value, true, error)], true, id, queue);
    }
    ReleasingLeaves(RejectResultStep(q, result, error).q.db, refs, id, queue);
  }

  lemma HandingLeaves(s: Store, who: Agent, m: KernelStore.Message, id: nat, queue: seq<KernelStore.Message>)
    requires StrandedOn(s, id, queue)
    ensures StrandedOn(HandOver(s, who, m).store, id, queue)
  {
    if m.result.Some? { ReleasingLeaves(SetDecider(s, m.result.value, who), ResultRef(m), id, queue); }
  }

  lemma RequeueingLeaves(s: Store, target: KRef, m: KernelStore.Message, kpid: nat, id: nat, queue: seq<KernelStore.Message>)
    requires StrandedOn(s, id, queue)
    ensures StrandedOn(DeliverRequeue(s, target, m, kpid).store, id, queue)
  {
    hide ChargeAll, ReleaseAll;
    ChargeAllRaises(s, SendRefs(KPromise(kpid), m));
    ReleasingLeaves(EnqueuePromiseMessage(s, kpid, m).store, SendRefs(target, m), id, queue);
  }

  lemma SendingLeaves(q: Q, target: KRef, m: KernelStore.Message, running: set<EndpointId>, id: nat, queue: seq<KernelStore.Message>)
    requires StrandedOn(q.db, id, queue)
    ensures StrandedOn(SendStep(q, target, m, running).0.q.db, id, queue)
  {
    hide StrandedOn, RejectAndRelease, HandOver, DeliverRequeue, RouteOf;
    match RouteOf(q.db, target)
    case UnknownPromise =>
    case Splat(error) => RejectingLeaves(q, m.result, error, SendRefs(target, m), id, queue);
    case Requeue(kpid) => RequeueingLeaves(q.db, target, m, kpid, id, queue);
    case ToAgent(who, _) =>
      RejectingLeaves(q, m.result, KERNEL_ERROR, ResultRef(m) + [target] + m.methargs.slots, id, queue);
      HandingLeaves(q.db, who, m, id, queue);
  }

  lemma DeliveringLeaves(q: Q, running: set<EndpointId>, id: nat, queue: seq<KernelStore.Message>)
    requires q.phase.InCrank? && StrandedOn(q.db, id, queue)
    ensures StrandedOn(DeliverStep(q, running).db, id, queue)
  {
    hide SendStep, StrandedOn, Decrement;
    match q.phase.item
    case RunItem(Send(target, m)) => SendingLeaves(q, target, m, running, id, queue);
    case RunItem(Notify(_, kpid)) => DecrementLeaves(q.db, KPromise(kpid), id, queue);
    case _ =>
  }

  lemma DecrementLeaves(s: Store, k: KRef, id: nat, queue: seq<KernelStore.Message>)
    requires StrandedOn(s, id, queue)
    ensures StrandedOn(Decrement(s, k).store, id, queue)
  {
  }

  lemma ServingLeaves(q: Q, failed: bool, id: nat, queue: seq<KernelStore.Message>)
    requires q.phase.InCrank? && q.phase.stage.Serving? && StrandedOn(q.db, id, queue)
    ensures StrandedOn(ServedStep(q, failed).db, id, queue)
  {
    hide StrandedOn, ResolveSteps, ReleaseAll;
    var stage := q.phase.stage;
    var told := if failed then RejectIfPendingStep(q, stage.who, stage.result, KERNEL_ERROR) else Effect(q, false);
    if stage.result.Some? {
      ResolvingLeaves(q, stage.who, [Resolution(stage.result.value, true, KERNEL_ERROR)], true, id, queue);
    }
    ReleasingLeaves(told.q.db, stage.refs, id, queue);
  }

  // ------------------------------------------------------------------ closing a crank

  lemma {:induction false} CollectingLeaves(s: Store, candidates: seq<KRef>, id: nat, queue: seq<KernelStore.Message>, f: multiset<KRef>)
    requires Sound(s, f) && StrandedOn(s, id, queue)
    ensures StrandedOn(Collect(s, candidates).store, id, queue)
    decreases |candidates|
  {
    hide Sound, StrandedOn, CollectOne;
    if candidates != [] {
      CollectingOneLeaves(s, candidates[0], id, queue, f);
      CollectOneConserves(s, candidates[0], f);
      CollectingLeaves(CollectOne(s, candidates[0]).store, candidates[1..], id, queue, f);
    }
  }

  /** The promise is not even collected: the messages that wait on it refer to it. */
  lemma CollectingOneLeaves(s: Store, k: KRef, id: nat, queue: seq<KernelStore.Message>, f: multiset<KRef>)
    requires Sound(s, f) && StrandedOn(s, id, queue)
    ensures StrandedOn(CollectOne(s, k).store, id, queue)
  {
    hide Sound;
    if Count(s, KPromise(id)) == 0 { UnreferencedHasNoQueue(s, id, f); }
    if k.KPromise? && Live(s, k.id) && s.promises[k.id].state.Settled? { ReleaseAllKeepsRows(s, s.promises[k.id].state.value.slots); }
  }

  /** The message is stranded in the store as it stands, and in the one an open crank would be rolled back to. */
  predicate Stuck(q: Q, id: nat, queue: seq<KernelStore.Message>) {
    StrandedOn(q.db, id, queue) && (q.phase.InCrank? ==> StrandedOn(q.saved, id, queue))
  }

  lemma BackAtSavepoint(q: Q, id: nat, queue: seq<KernelStore.Message>)
    requires StrandedOn(q.saved, id, queue)
    ensures StrandedOn(RollBack(q).db, id, queue) && StrandedOn(Uncommitted(q).db, id, queue)
    ensures RollBack(q).saved == q.saved
  {
  }

  lemma DyingLeaves(q: Q, id: nat, queue: seq<KernelStore.Message>)
    requires StrandedOn(q.db, id, queue)
    ensures Stuck(FailRunLoop(q), id, queue)
  {
    hide FailRunLoop;
    FailingFrame(q);
  }

  lemma CrankFailingLeaves(q: Q, env: Env, id: nat, queue: seq<KernelStore.Message>)
    requires StrandedOn(q.db, id, queue) && StrandedOn(q.saved, id, queue)
    ensures Stuck(CrankFailed(q, env), id, queue)
  {
    hide FailRunLoop, StrandedOn, RollBack, Uncommitted, Stuck;
    var undone := if q.rollbackAllowed then RollBack(q) else q;
    BackAtSavepoint(q, id, queue);
    BackAtSavepoint(undone, id, queue);
    DyingLeaves(if env.endFault then Uncommitted(undone) else undone, id, queue);
  }

  lemma ResumingLeaves(q: Q, heldFailed: bool, id: nat, queue: seq<KernelStore.Message>)
    requires StrandedOn(q.db, id, queue)
    ensures Stuck(Resume(q, heldFailed), id, queue)
  {
    hide FailRunLoop, AnswerControl;
    AnsweringControlFrame(q);
    DyingLeaves(AnswerControl(q), id, queue);
  }

  lemma CommittingLeaves(q: Q, result: CrankResult, env: Env, id: nat, queue: seq<KernelStore.Message>)
    requires StrandedOn(q.db, id, queue)
    ensures Stuck(Commit(q, result, env), id, queue)
  {
    hide WriteHeld, Resume, StrandedOn;
    WritingHeldLeaves(q.(phase := Top), env.heldFault, id, queue);
    ResumingLeaves(WriteHeld(q.(phase := Top), env.heldFault).q, WriteHeld(q.(phase := Top), env.heldFault).threw, id, queue);
  }

  lemma ClosingStoreLeaves(q: Q, result: CrankResult, env: Env, id: nat, queue: seq<KernelStore.Message>)
    requires Sound(q.db, q.lost + multiset{}) && StrandedOn(q.db, id, queue)
    ensures StrandedOn(Closing(q, result, env).q.db, id, queue)
  {
    hide Sound, CollectStep, FlushAndAudit, Collect, LostByFlush;
    var bound := q.(rollbackAllowed := q.rollbackAllowed && !result.irrevocable);
    CollectingFrame(bound, env);
    CollectingLeaves(q.db, env.candidates, id, queue, q.lost + multiset{});
    AuditingFrame(CollectStep(bound, env).q, result, env);
  }

  lemma ClosingLeaves(q: Q, result: CrankResult, env: Env, id: nat, queue: seq<KernelStore.Message>)
    requires Sound(q.db, q.lost + multiset{}) && StrandedOn(q.db, id, queue) && StrandedOn(q.saved, id, queue)
    ensures Stuck(Close(q, result, env), id, queue)
  {
    hide Sound, Closing, CrankFailed, Commit, FailRunLoop, StrandedOn, Stuck, Uncommitted;
    ClosingStoreLeaves(q, result, env, id, queue);
    ClosingStoreFrame(q, result, env);
    var closed := Closing(q, result, env).q;
    CrankFailingLeaves(closed, env, id, queue);
    BackAtSavepoint(closed, id, queue);
    DyingLeaves(Uncommitted(closed), id, queue);
    CommittingLeaves(closed, result, env, id, queue);
  }

  lemma AbortingLeaves(q: Q, result: CrankResult, env: Env, id: nat, queue: seq<KernelStore.Message>)
    requires q.phase.InCrank? && StrandedOn(q.db, id, queue) && StrandedOn(q.saved, id, queue)
    ensures StrandedOn(AbortStep(q, result, env).q.db, id, queue) && AbortStep(q, result, env).q.saved == q.saved
  {
    hide AbortStep, LostByReturning, PromisesOf;
    AbortingFrame(q, result, env);
  }

  lemma FinishingLeaves(q: Q, end: DeliverEnd, env: Env, id: nat, queue: seq<KernelStore.Message>)
    requires LoopConservation.Conserved(q) && MayFinish(q, end) && Stuck(q, id, queue)
    ensures Stuck(Finish(q, end, env), id, queue)
  {
    hide Sound, CrankFailed, AbortStep, Close, StrandedOn;
    if end.DeliverThrew? {
      CrankFailingLeaves(q, env, id, queue);
    } else {
      var result := ResultOf(q.phase.item, end.result);
      AbortingLeaves(q, result, env, id, queue);
      LoopConservation.AbortingConserves(q, result, env);
      var aborted := AbortStep(q, result, env).q;
      CrankFailingLeaves(aborted, env, id, queue);
      ClosingLeaves(aborted, result, env, id, queue);
    }
  }

  lemma TerminatingLeaves(q: Q, env: Env, id: nat, queue: seq<KernelStore.Message>)
    requires LoopConservation.Conserved(q) && q.phase.InCrank? && q.phase.stage.Terminating? && Stuck(q, id, queue)
    ensures Stuck(Terminated(q, env), id, queue)
  {
    hide Sound, CrankFailed, Close, StrandedOn;
    var recorded := q.(rollbackAllowed := false);
    CrankFailingLeaves(recorded, env, id, queue);
    ClosingLeaves(recorded, q.phase.stage.outcome, env, id, queue);
  }

  // ------------------------------------------------------------------ every run

  lemma BeginningLeaves(q: Q, priority: Priority, endFault: bool, heldFault: Option<nat>, id: nat, queue: seq<KernelStore.Message>)
    requires q.phase.Top? && StrandedOn(q.db, id, queue)
    ensures Stuck(Begin(q, priority, endFault, heldFault), id, queue)
  {
    hide GetNext, Park;
    var open := Savepoint(q);
    LoopConservation.TakenStore(open, priority);
    TakingFrame(open, priority);
    ParkingLeaves(GetNext(open, priority).q, endFault, heldFault, id, queue);
  }

  lemma ParkingLeaves(q: Q, endFault: bool, heldFault: Option<nat>, id: nat, queue: seq<KernelStore.Message>)
    requires StrandedOn(q.db, id, queue) && StrandedOn(q.saved, id, queue)
    ensures q.phase.Top? ==> Stuck(Park(q, endFault, heldFault), id, queue)
  {
    hide FailRunLoop, WriteHeld, StrandedOn, RollBack, Uncommitted;
    var parked := q.(wakeSet := true, phase := Parked);
    BackAtSavepoint(q, id, queue);
    BackAtSavepoint(parked, id, queue);
    WritingHeldLeaves(parked, heldFault, id, queue);
    WritingHeldFrame(parked, heldFault);
    DyingLeaves(RollBack(q), id, queue);
    DyingLeaves(Uncommitted(parked), id, queue);
    DyingLeaves(WriteHeld(parked, heldFault).q, id, queue);
  }

  lemma ReportingLeaves(q: Q, throws: bool, id: nat, queue: seq<KernelStore.Message>)
    requires q.phase.AfterCommit? && StrandedOn(q.db, id, queue)
    ensures Stuck(Reported(q, throws), id, queue)
  {
    hide FailRunLoop, Resume, StrandedOn;
    DyingLeaves(q, id, queue);
    ResumingLeaves(q, q.phase.heldFailed, id, queue);
  }

  lemma OutsideStaysStuck(q: Q, e: Event, id: nat, queue: seq<KernelStore.Message>)
    requires Stuck(q, id, queue)
    ensures Stuck(Outside(q, e), id, queue)
  {
    hide Outside, StrandedOn;
    OutsideLeaves(q, e, id, queue);
    if Quiet(e) { QuietFrame(q, e); KeptStore(q, Outside(q, e)); } else { ReachingStoreFrame(q, e); }
  }

  lemma StepLeaves(q: Q, e: Event, id: nat, queue: seq<KernelStore.Message>)
    requires LoopConservation.Steady(q) && Stuck(q, id, queue) && !e.EvWipe?
    ensures Stuck(Step(q, e), id, queue)
  {
    hide LoopConservation.Conserved, Begin, DeliverStep, ServedStep, Finish, Terminated, Outside, Reported, StrandedOn;
    match e
    case EvStart => case EvWake =>
    case EvBegin(priority, endFault, heldFault) => if q.phase.Top? { BeginningLeaves(q, priority, endFault, heldFault, id, queue); }
    case EvDeliver(running) => if InStage(q, true) { DeliveringFrame(q, running); DeliveringLeaves(q, running, id, queue); }
    case EvServed(failed) => if InStage(q, false) { ServingFrame(q, failed); ServingLeaves(q, failed, id, queue); }
    case EvFinish(end, env) => if MayFinish(q, end) { FinishingLeaves(q, end, env, id, queue); }
    case EvTerminated(env) => if q.phase.InCrank? && q.phase.stage.Terminating? { TerminatingLeaves(q, env, id, queue); }
    case EvAfterCommit(throws) => if q.phase.AfterCommit? { ReportingLeaves(q, throws, id, queue); }
    case _ => OutsideStaysStuck(q, e, id, queue);
  }

  lemma {:induction false} RunLeaves(q: Q, events: seq<Event>, id: nat, queue: seq<KernelStore.Message>)
    requires LoopConservation.Steady(q) && Stuck(q, id, queue) && NoWipe(events)
    ensures Stuck(Run(q, events), id, queue)
    decreases |events|
  {
    hide LoopConservation.Steady, Stuck, Step;
    if events != [] {
      StepLeaves(q, events[0], id, queue);
      LoopConservation.StepConserves(q, events[0]);
      assert forall i | 0 <= i < |events[1..]| :: events[1..][i] == events[i + 1];
      RunLeaves(Step(q, events[0]), events[1..], id, queue);
    }
  }

  /**
   * No run of the loop takes a stranded message off its queue again, whatever it delivers, aborts, collects or
   * dies of and whoever enters, short of the store being wiped. The message is stranded in a committed store.
   */
  lemma StrandedForGood(db: Store, before: seq<Event>, after: seq<Event>, id: nat, queue: seq<KernelStore.Message>)
    requires Sound(db, multiset{}) && !Run(Init(db), before).phase.InCrank?
    requires StrandedOn(Run(Init(db), before).db, id, queue) && NoWipe(after)
    ensures StrandedOn(Run(Run(Init(db), before), after).db, id, queue)
  {
    hide Run, Sound, Init, LoopConservation.Steady, StrandedOn;
    LoopConservation.InitIsSteady(db);
    LoopConservation.RunConserves(Init(db), before);
    RunLeaves(Run(Init(db), before), after, id, queue);
  }
}
