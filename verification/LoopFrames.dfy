/**
 * What each piece of the run loop leaves alone, in one place for the proofs about it.
 */
module LoopFrames {
  import opened Prelude
  import opened KernelStore
  import opened KernelAccounting
  import opened KernelRouting
  import opened KernelLoop
  import PeerArrivals

  /** Only subscribers have been answered. */
  predicate Answered(q: Q, r: Q) {
    r == q.(subscriptions := r.subscriptions, told := r.told)
  }

  /** Only the store and its subscribers have been reached, and a run queue that grew has woken the loop. */
  predicate Operated(q: Q, r: Q) {
    && r == q.(db := r.db, wakeSet := r.wakeSet, lost := r.lost, subscriptions := r.subscriptions, told := r.told,
               resolvedInCrank := r.resolvedInCrank)
    && (r.wakeSet ==> q.wakeSet && |r.db.runQueue| <= |q.db.runQueue|)
  }

  lemma AnsweringFrame(q: Q, kpid: nat, answer: Answer)
    ensures Answered(q, AnswerSubscriber(q, kpid, answer))
  {
    hide FindSubscription;
  }

  lemma SettlingFrame(q: Q, r: Resolution)
    ensures Answered(q, Settle(q, r))
  {
    hide AnswerSubscriber, Answered;
    AnsweringFrame(q, r.kpid, if r.rejected then RejectedWith(r.value) else Resolved(r.value));
  }

  lemma {:induction false} SettlingEachFrame(q: Q, rs: seq<Resolution>)
    ensures Answered(q, SettleEach(q, rs))
    decreases |rs|
  {
    hide Settle;
    if rs != [] {
      SettlingFrame(q, rs[0]);
      SettlingEachFrame(Settle(q, rs[0]), rs[1..]);
    }
  }

  lemma AnsweringOneFrame(q: Q, item: Item)
    ensures Answered(q, AnswerOne(q, item))
  {
    hide Settle;
    if item.Notify? && item.kpid < |q.db.promises| && q.db.promises[item.kpid].state.Settled? {
      SettlingFrame(q, Resolution(item.kpid, q.db.promises[item.kpid].state.rejected, q.db.promises[item.kpid].state.value));
    }
  }

  lemma {:induction false} NotifyingFrame(q: Q, items: seq<Item>)
    ensures Answered(q, AnswerNotified(q, items))
    decreases |items|
  {
    hide AnswerOne;
    if items != [] {
      AnsweringOneFrame(q, items[0]);
      NotifyingFrame(AnswerOne(q, items[0]), items[1..]);
    }
  }

  // ------------------------------------------------------------------ operations

  lemma StoringFrame(q: Q, o: Outcome)
    ensures var e := StoreEffect(q, o); Operated(q, e.q) && e.q.db == o.store && (e.threw <==> o.Threw?)
    ensures var r := StoreEffect(q, o).q;
            r.told == q.told && r.subscriptions == q.subscriptions && r.resolvedInCrank == q.resolvedInCrank && r.lost == q.lost
  {
  }

  lemma ChargingFrame(q: Q, o: Outcome, unpaid: multiset<KRef>)
    ensures var e := ChargingEffect(q, o, unpaid); Operated(q, e.q) && e.q.db == o.store && (e.threw <==> o.Threw?)
    ensures var r := ChargingEffect(q, o, unpaid).q;
            && r.told == q.told && r.subscriptions == q.subscriptions && r.resolvedInCrank == q.resolvedInCrank
            && r.lost == (if o.Threw? then q.lost + unpaid else q.lost)
  {
  }

  lemma OperatedAfter(q: Q, r: Q, t: Q)
    requires Operated(q, r) && Operated(r, t)
    ensures Operated(q, t)
  {
  }

  lemma ResolvingOneFrame(q: Q, who: Agent, r: Resolution, immediate: bool)
    ensures Operated(q, ResolveStep(q, who, r, immediate).q)
    ensures ResolveStep(q, who, r, immediate).q.db == ResolveOne(q.db, who, r, immediate).store
    ensures ResolveStep(q, who, r, immediate).threw <==> ResolveOne(q.db, who, r, immediate).Threw?
  {
    hide ResolveOne, ChargingEffect, Settle, FindSubscription, UnpaidByResolution;
    var stored := ChargingEffect(q, ResolveOne(q.db, who, r, immediate), UnpaidByResolution(q.db, who, r));
    ChargingFrame(q, ResolveOne(q.db, who, r, immediate), UnpaidByResolution(q.db, who, r));
    SettlingFrame(stored.q, r);
  }

  lemma {:induction false} ResolvingFrame(q: Q, who: Agent, rs: seq<Resolution>, immediate: bool)
    ensures Operated(q, ResolveSteps(q, who, rs, immediate).q)
    decreases |rs|
  {
    hide ResolveStep, Operated;
    if rs == [] {
      OperatedSelf(q);
    } else {
      var first := ResolveStep(q, who, rs[0], immediate);
      ResolvingOneFrame(q, who, rs[0], immediate);
      ResolvingFrame(first.q, who, rs[1..], immediate);
      OperatedAfter(q, first.q, ResolveSteps(first.q, who, rs[1..], immediate).q);
    }
  }

  lemma OperatedSelf(q: Q)
    ensures Operated(q, q)
  {
  }

  lemma OperatingFrame(q: Q, op: Op)
    ensures Operated(q, OpStep(q, op).q)
  {
    hide ResolveSteps, EnqueueSend, ApplyOp, StoreEffect, ChargingEffect, Operated, Subscribe, Unpaid;
    match op
    case OpResolve(who, rs, immediate) => ResolvingFrame(q, who, rs, AtOnce(q, immediate));
    case OpSend(target, m, immediate) =>
      ChargingFrame(q, EnqueueSend(q.db, target, m, AtOnce(q, immediate)), Unpaid(q.db, SendRefs(target, m)));
    case OpSubscribe(endpoint, kpid, immediate) => StoringFrame(q, Subscribe(q.db, endpoint, kpid, AtOnce(q, immediate)));
    case _ => StoringFrame(q, ApplyOp(q.db, op));
  }

  lemma {:induction false} OpsFrame(q: Q, ops: seq<Op>)
    ensures Operated(q, OpSteps(q, ops).q)
    decreases |ops|
  {
    hide OpStep, Operated;
    if ops == [] {
      OperatedSelf(q);
    } else {
      var first := OpStep(q, ops[0]);
      OperatingFrame(q, ops[0]);
      OpsFrame(first.q, ops[1..]);
      OperatedAfter(q, first.q, OpSteps(first.q, ops[1..]).q);
    }
  }

  lemma TellingFrame(q: Q, caller: Caller, answer: Answer)
    ensures Answered(q, Tell(q, caller, answer))
  {
  }

  lemma WritingMessageFrame(q: Q, caller: Caller, target: KRef, methargs: CapData)
    ensures Operated(q, WriteMessage(q, caller, target, methargs).q)
  {
    hide EnqueueSend, InitPromise, StoreEffect, Tell, SomeMissing;
    TellingFrame(q, caller, ObjectDeleted);
    var o := EnqueueSend(InitPromise(q.db), target, KernelStore.Message(methargs, Some(|q.db.promises|)), true);
    StoringFrame(q, o);
  }

  lemma WritingFrame(q: Q, h: HeldRequest)
    ensures Operated(q, WriteRequest(q, h).q)
  {
    hide WriteMessage, OpSteps, Tell;
    match h
    case HeldMessage(caller, target, methargs) => WritingMessageFrame(q, caller, target, methargs);
    case HeldWrite(caller, ops) =>
      OpsFrame(q, ops);
      var done := OpSteps(q, ops);
      TellingFrame(done.q, caller, if done.threw then WriteFailed else Performed);
    case HeldItem(_) =>
  }

  lemma {:induction false} WritingHeldFrame(q: Q, fault: Option<nat>)
    ensures Operated(q.(held := WriteHeld(q, fault).q.held), WriteHeld(q, fault).q)
    decreases |q.held|
  {
    hide WriteRequest;
    if q.held != [] && fault != Some(0) {
      WritingFrame(q, q.held[0]);
      var first := WriteRequest(q, q.held[0]);
      if !first.threw {
        WritingHeldFrame(first.q.(held := q.held[1..]), if fault.Some? && fault.value > 0 then Some(fault.value - 1) else None);
      }
    }
  }

  lemma FailingFrame(q: Q)
    ensures var r := FailRunLoop(q);
            r == q.(subscriptions := [], resolvedInCrank := [], held := [], waiters := [], controls := [], controlInFlight := None,
                    told := r.told, ending := if q.ending.EndAsked? then EndAnswered else q.ending, phase := Dead)
  {
    hide ToldOfDeath;
  }

  lemma TakingArrivalFrame(q: Q)
    ensures var taken := TakeArrival(q);
            && taken.q == q.(arrivals := taken.q.arrivals, tookArrivalLast := taken.q.tookArrivalLast)
            && (taken.item.Some? ==> taken.item.value.ArrivalItem?)
  {
  }

  lemma TakingFrame(q: Q, priority: Priority)
    ensures var taken := GetNext(q, priority);
            && (q.controls == [] ==>
                  && taken.q == q.(db := taken.q.db, arrivals := taken.q.arrivals, tookArrivalLast := taken.q.tookArrivalLast)
                  && (taken.item.Some? ==> !taken.item.value.ControlItem?))
            && (q.controls != [] ==> && taken.q == q.(controls := q.controls[1..], controlInFlight := Some(q.controls[0]))
                                     && taken.item == Some(ControlItem(q.controls[0])))
  {
    hide Dequeue, TakeArrival;
    TakingArrivalFrame(q.(tookArrivalLast := false));
  }

  // ------------------------------------------------------------------ delivering and closing

  lemma RejectingFrame(q: Q, result: Option<nat>, error: CapData, refs: seq<KRef>)
    ensures Operated(q, RejectAndRelease(q, result, error, refs).q)
  {
    hide ResolveSteps, ReleaseAll, StoreEffect, Operated;
    var rejected := RejectResultStep(q, result, error);
    OperatedSelf(q);
    if result.Some? && Live(q.db, result.value) {
      ResolvingFrame(q, Decider(q.db, result.value), [Resolution(result.value, true, error)], true);
    }
    StoringFrame(rejected.q, ReleaseAll(rejected.q.db, refs));
    OperatedAfter(q, rejected.q, StoreEffect(rejected.q, ReleaseAll(rejected.q.db, refs)).q);
  }

  lemma SendingFrame(q: Q, target: KRef, m: KernelStore.Message, running: set<EndpointId>)
    ensures var (e, stage) := SendStep(q, target, m, running);
            Operated(q, e.q) && !stage.Waiting? && !stage.Terminating?
  {
    hide RejectAndRelease, StoreEffect, HandOver, DeliverRequeue, RouteOf, Operated;
    OperatedSelf(q);
    match RouteOf(q.db, target)
    case UnknownPromise =>
    case Splat(error) => RejectingFrame(q, m.result, error, SendRefs(target, m));
    case Requeue(kpid) => StoringFrame(q, DeliverRequeue(q.db, target, m, kpid));
    case ToAgent(who, _) =>
      RejectingFrame(q, m.result, KERNEL_ERROR, ResultRef(m) + [target] + m.methargs.slots);
      StoringFrame(q, HandOver(q.db, who, m));
  }

  /** A routing step reaches the store, its subscribers, and the stage of the delivery. */
  predicate Delivering(q: Q, r: Q)
    requires q.phase.InCrank?
  {
    && Operated(q.(phase := r.phase), r) && r.phase.InCrank? && r.phase.item == q.phase.item
    && !r.phase.stage.Waiting? && !r.phase.stage.Terminating?
  }

  lemma ReachingFrame(q: Q, done: Effect, stage: Stage)
    requires q.phase.InCrank? && Operated(q, done.q) && !stage.Waiting? && !stage.Terminating?
    ensures Delivering(q, Reached(q, done, stage))
  {
  }

  lemma StartingFrame(q: Q, item: LoopItem, running: set<EndpointId>)
    ensures var (e, stage) := StartEffect(q, item, running); Operated(q, e.q) && !stage.Waiting? && !stage.Terminating?
  {
    hide SendStep, StoreEffect, Decrement, Operated;
    OperatedSelf(q);
    match item
    case RunItem(Send(target, m)) => SendingFrame(q, target, m, running);
    case RunItem(Notify(_, kpid)) => StoringFrame(q, Decrement(q.db, KPromise(kpid)));
    case _ =>
  }

  lemma DeliveringFrame(q: Q, running: set<EndpointId>)
    requires q.phase.InCrank?
    ensures Delivering(q, DeliverStep(q, running))
  {
    hide StartEffect, Reached, Operated, Delivering;
    StartingFrame(q, q.phase.item, running);
    var (done, stage) := StartEffect(q, q.phase.item, running);
    ReachingFrame(q, done, stage);
  }

  lemma ServedFrame(q: Q, refs: seq<KRef>, who: Agent, result: Option<nat>, failed: bool)
    ensures Operated(q, ServedEffect(q, refs, who, result, failed).q)
  {
    hide ResolveSteps, ReleaseAll, StoreEffect, Operated;
    OperatedSelf(q);
    if result.Some? { ResolvingFrame(q, who, [Resolution(result.value, true, KERNEL_ERROR)], true); }
    var told := if failed then RejectIfPendingStep(q, who, result, KERNEL_ERROR) else Effect(q, false);
    StoringFrame(told.q, ReleaseAll(told.q.db, refs));
    OperatedAfter(q, told.q, StoreEffect(told.q, ReleaseAll(told.q.db, refs)).q);
  }

  lemma ServingFrame(q: Q, failed: bool)
    requires q.phase.InCrank? && q.phase.stage.Serving?
    ensures Delivering(q, ServedStep(q, failed)) && !ServedStep(q, failed).phase.stage.Serving?
  {
    hide ServedEffect, Operated;
    var stage := q.phase.stage;
    ServedFrame(q, stage.refs, stage.who, stage.result, failed);
    ReachingFrame(q, ServedEffect(q, stage.refs, stage.who, stage.result, failed), Delivered);
  }

  lemma CollectingFrame(q: Q, env: Env)
    ensures var c := CollectStep(q, env);
            && c.q == q.(db := Collect(q.db, env.candidates).store, wakeSet := c.q.wakeSet)
            && (c.q.wakeSet ==> q.wakeSet)
            && (c.threw <==> Collect(q.db, env.candidates).Threw? || env.collectFault)
  {
    hide Collect;
  }

  /** What flushing makes of the store. */
  function Flushed(s: Store, fault: Option<nat>): Store {
    if fault.Some? && fault.value < |s.crankBuffer| then s.(runQueue := s.runQueue + s.crankBuffer[..fault.value], crankBuffer := [])
    else Flush(s)
  }

  /** What a flush that fails partway loses: everything it has not moved. */
  function LostByFlush(s: Store, fault: Option<nat>): multiset<KRef> {
    if fault.Some? && fault.value < |s.crankBuffer| then RefsOfItems(s.crankBuffer[fault.value..]) else multiset{}
  }

  lemma FlushingFrame(q: Q, env: Env)
    ensures var e := FlushStep(q, env);
            && e.q == q.(db := Flushed(q.db, env.flushFault), wakeSet := e.q.wakeSet, lost := q.lost + LostByFlush(q.db, env.flushFault),
                         subscriptions := e.q.subscriptions, told := e.q.told, resolvedInCrank := e.q.resolvedInCrank)
            && (e.threw <==> env.flushFault.Some? && env.flushFault.value < |q.db.crankBuffer|) && (e.q.wakeSet ==> q.wakeSet)
  {
    hide AnswerNotified, SettleEach, RefsOfItems;
    var items := q.db.crankBuffer;
    if env.flushFault.Some? && env.flushFault.value < |items| {
      var moved := items[..env.flushFault.value];
      NotifyingFrame(WithStore(q, q.db.(runQueue := q.db.runQueue + moved, crankBuffer := [])), moved);
    } else {
      NotifyingFrame(WithStore(q, Flush(q.db)), items);
      var answered := AnswerNotified(WithStore(q, Flush(q.db)), items);
      SettlingEachFrame(answered, answered.resolvedInCrank);
    }
  }

  /** The store once a crank's output has been flushed, unless an abort or an audit kept it back. */
  function Closed(q: Q, result: CrankResult, env: Env): Store {
    if Flushes(q, result, env) then Flushed(q.db, env.flushFault) else q.db
  }

  predicate Flushes(q: Q, result: CrankResult, env: Env) {
    !result.abort && !(q.rollbackAllowed && env.auditFault)
  }

  lemma AuditingFrame(q: Q, result: CrankResult, env: Env)
    ensures var e := FlushAndAudit(q, result, env);
            && e.q == q.(db := Closed(q, result, env), wakeSet := e.q.wakeSet, subscriptions := e.q.subscriptions, told := e.q.told,
                         lost := if Flushes(q, result, env) then q.lost + LostByFlush(q.db, env.flushFault) else q.lost,
                         resolvedInCrank := e.q.resolvedInCrank)
            && (e.q.wakeSet ==> q.wakeSet)
            && (e.threw <==> env.auditFault || (!result.abort && env.flushFault.Some? && env.flushFault.value < |q.db.crankBuffer|))
            && (!Flushes(q, result, env) ==> e.q == q)
  {
    hide FlushStep, LostByFlush, Flushed;
    FlushingFrame(q, env);
  }

  lemma AbortingFrame(q: Q, result: CrankResult, env: Env)
    requires q.phase.InCrank?
    ensures var e := AbortStep(q, result, env);
            && e.q == q.(db := if result.abort then q.saved.(crankBuffer := []) else q.db,
                         lost := if result.abort then LostByReturning(q) else q.lost,
                         forsaken := if result.abort && !env.rollbackFault then q.forsaken + PromisesOf(q.savedListed) else q.forsaken,
                         rollbacks := if result.abort then q.rollbacks + 1 else q.rollbacks,
                         rollbackAllowed := q.rollbackAllowed && !result.abort,
                         subscriptions := e.q.subscriptions, told := e.q.told, resolvedInCrank := e.q.resolvedInCrank)
            && (e.threw <==> result.abort && env.rollbackFault)
            && (result.abort && !e.threw ==> e.q.resolvedInCrank == []) && (!result.abort ==> e.q == q)
  {
    hide AnswerSubscriber, LostByReturning, PromisesOf;
    if result.abort {
      var cleared := RollBack(q).(rollbackAllowed := false, resolvedInCrank := [], forsaken := q.forsaken + PromisesOf(q.savedListed));
      match q.phase.item {
        case RunItem(Send(_, m)) => if m.result.Some? { AnsweringFrame(cleared, m.result.value, VatEnded); }
        case _ =>
      }
    }
  }

  lemma CrankFailingFrame(q: Q, env: Env)
    ensures var r := CrankFailed(q, env);
            && r.phase.Dead? && r.held == [] && r.arrivals == q.arrivals && r.tookArrivalLast == q.tookArrivalLast && r.issued == q.issued
            && r.saved == q.saved && r.wakeSet == q.wakeSet
            && r.rollbacks == (if q.rollbackAllowed then q.rollbacks + 1 else q.rollbacks)
  {
    hide FailRunLoop, LostByReturning;
    var undone := if q.rollbackAllowed then RollBack(q) else q;
    FailingFrame(if env.endFault then Uncommitted(undone) else undone);
  }

  /** What closing a crank never touches, and that it leaves the loop awake. */
  predicate Beyond(q: Q, r: Q) {
    && r.arrivals == q.arrivals && r.tookArrivalLast == q.tookArrivalLast && r.issued == q.issued && r.saved == q.saved
    && (r.wakeSet ==> q.wakeSet) && !r.phase.Parked? && (r.phase.InCrank? ==> q.phase.InCrank? && r.phase.item == q.phase.item)
  }

  lemma DyingFrame(q: Q)
    ensures Beyond(q, FailRunLoop(q)) && FailRunLoop(q).phase.Dead? && FailRunLoop(q).db == q.db && FailRunLoop(q).rollbacks == q.rollbacks
  {
    hide FailRunLoop;
    FailingFrame(q);
  }

  lemma AnsweringControlFrame(q: Q)
    ensures var r := AnswerControl(q); r == q.(controlInFlight := None, told := r.told)
  {
  }

  lemma ResumingFrame(q: Q, heldFailed: bool)
    ensures var r := Resume(q, heldFailed); Beyond(q, r) && !r.phase.InCrank? && r.db == q.db && r.rollbacks == q.rollbacks
  {
    hide FailRunLoop, AnswerControl;
    AnsweringControlFrame(q);
    DyingFrame(AnswerControl(q));
  }

  lemma ReportingFrame(q: Q, throws: bool)
    requires q.phase.AfterCommit?
    ensures Beyond(q, Reported(q, throws))
  {
    hide FailRunLoop, Resume;
    DyingFrame(q);
    ResumingFrame(q, q.phase.heldFailed);
  }

  lemma CommittingFrame(q: Q, result: CrankResult, env: Env)
    ensures Beyond(q, Commit(q, result, env)) && !Commit(q, result, env).phase.InCrank?
  {
    hide WriteHeld, Resume;
    WritingHeldFrame(q.(phase := Top), env.heldFault);
    var written := WriteHeld(q.(phase := Top), env.heldFault);
    ResumingFrame(written.q, written.threw);
  }

  /** Before its commit a crank changes its store and who has been told, and nothing about where it stands. */
  predicate ClosedFrom(q: Q, r: Q) {
    && r.arrivals == q.arrivals && r.tookArrivalLast == q.tookArrivalLast && r.issued == q.issued && r.saved == q.saved
    && (r.wakeSet ==> q.wakeSet) && r.phase == q.phase
    && r.held == q.held && r.rollbacks == q.rollbacks && r.savedLost == q.savedLost && r.savedListed == q.savedListed
    && r.forsaken == q.forsaken && r.torn == q.torn && (r.rollbackAllowed ==> q.rollbackAllowed)
  }

  lemma ClosingStoreFrame(q: Q, result: CrankResult, env: Env)
    ensures ClosedFrom(q, Closing(q, result, env).q)
    ensures Closing(q, result, env).q.rollbackAllowed == (q.rollbackAllowed && !result.irrevocable)
  {
    hide FlushAndAudit, CollectStep, Closed, Collect, LostByFlush;
    var bound := q.(rollbackAllowed := q.rollbackAllowed && !result.irrevocable);
    CollectingFrame(bound, env);
    AuditingFrame(CollectStep(bound, env).q, result, env);
  }

  lemma ClosingFrame(q: Q, result: CrankResult, env: Env)
    ensures Beyond(q, Close(q, result, env)) && !Close(q, result, env).phase.InCrank?
  {
    hide CrankFailed, Commit, Closing, FailRunLoop, LostByReturning;
    ClosingStoreFrame(q, result, env);
    var closed := Closing(q, result, env);
    CrankFailingFrame(closed.q, env);
    DyingFrame(Uncommitted(closed.q));
    CommittingFrame(closed.q, result, env);
  }

  lemma FinishingFrame(q: Q, end: DeliverEnd, env: Env)
    requires q.phase.InCrank?
    ensures Beyond(q, Finish(q, end, env))
  {
    hide CrankFailed, Close, AbortStep, LostByReturning, PromisesOf;
    CrankFailingFrame(q, env);
    if end.Returned? {
      var result := ResultOf(q.phase.item, end.result);
      AbortingFrame(q, result, env);
      var aborted := AbortStep(q, result, env);
      CrankFailingFrame(aborted.q, env);
      ClosingFrame(aborted.q, result, env);
    }
  }

  lemma TerminatingFrame(q: Q, env: Env)
    requires q.phase.InCrank? && q.phase.stage.Terminating?
    ensures Beyond(q, Terminated(q, env)) && !Terminated(q, env).phase.InCrank?
  {
    hide CrankFailed, Close;
    var recorded := q.(rollbackAllowed := false);
    CrankFailingFrame(recorded, env);
    ClosingFrame(recorded, q.phase.stage.outcome, env);
  }

  // ------------------------------------------------------------------ callers outside the loop

  lemma RequestingFrame(q: Q, h: HeldRequest)
    ensures Operated(q.(held := Request(q, h).held), Request(q, h))
    ensures q.phase.InCrank? ==> Request(q, h).db == q.db && Request(q, h).lost == q.lost
    ensures !q.phase.InCrank? ==> Request(q, h).held == q.held
  {
    hide WriteRequest, Tell;
    WritingFrame(q, h);
    if !h.HeldItem? { TellingFrame(WriteRequest(q, h).q, h.caller, WriteFailed); }
  }

  /** An event that reaches no store. */
  predicate Quiet(e: Event) {
    !e.EvMessage? && !e.EvWrite? && !e.EvRequest? && !e.EvOps?
  }

  /** Only who waits, for what, has changed. */
  predicate Kept(q: Q, r: Q) {
    && (r.held == q.held || r.held == []) && (r.wakeSet ==> q.wakeSet)
    && r == q.(subscriptions := r.subscriptions, resolvedInCrank := r.resolvedInCrank, waiters := r.waiters,
               held := r.held, controls := r.controls, ending := r.ending, wakeSet := r.wakeSet,
               arrivals := r.arrivals, issued := r.issued, told := r.told)
  }

  lemma CallingFrames(q: Q, caller: Caller, operation: nat)
    ensures Kept(q, q) && Kept(q, QueueControl(q, caller, operation)) && Kept(q, AskToEnd(q))
  {
  }

  lemma WaitingFrames(q: Q, caller: Caller)
    ensures Kept(q, Register(q, caller)) && Kept(q, Withdraw(q, caller))
  {
    hide RemoveFirst;
  }

  lemma DiscardingFrames(q: Q, answer: Answer)
    ensures Kept(q, DiscardHeld(q, answer)) && Kept(q, AbandonSubscriptions(q, answer)) && Kept(q, q.(arrivals := []))
  {
    hide TellAll, HoldersOf, SubscribersOf;
  }

  /** No control operation of the run wipes the store. */
  predicate NoWipe(events: seq<Event>) {
    forall i | 0 <= i < |events| :: !events[i].EvWipe?
  }

  lemma WipingFrame(q: Q)
    ensures Wipe(q) == q.(db := EMPTY_STORE, lost := multiset{}, forsaken := {}, arrivals := [], subscriptions := [], resolvedInCrank := [],
                          held := [], told := Wipe(q).told)
  {
    hide TellAll, HoldersOf, SubscribersOf;
  }

  lemma QuietFrame(q: Q, e: Event)
    requires Quiet(e)
    ensures Kept(q, Outside(q, e))
  {
    hide Kept, AcceptArrival, DiscardHeld, AbandonSubscriptions, QueueControl, AskToEnd, Register, Withdraw;
    CallingFrames(q, 0, 0);
    DiscardingFrames(q, Discarded);
    match e
    case EvArrival(event) => ArrivedKept(q, event);
    case EvControl(caller, operation) => CallingFrames(q, caller, operation);
    case EvRegister(caller) => WaitingFrames(q, caller);
    case EvUnregister(caller) => WaitingFrames(q, caller);
    case _ =>
  }

  lemma ArrivedKept(q: Q, event: PeerArrivals.Accepting)
    ensures Kept(q, AcceptArrival(q, event))
  {
    hide AcceptArrival;
    ArrivingFrame(q, event);
  }

  lemma ArrivingFrame(q: Q, event: PeerArrivals.Accepting)
    ensures var r := AcceptArrival(q, event);
            && r == q.(arrivals := r.arrivals, wakeSet := r.wakeSet) && (r.wakeSet ==> q.wakeSet)
            && (r.arrivals == q.arrivals || r.arrivals == PeerArrivals.Apply(q.arrivals, event))
            && (r.wakeSet ==> r.arrivals == q.arrivals)
  {
    hide PeerArrivals.Apply, PeerArrivals.Accept;
  }

  /** Requests and operations reach the store, its subscribers, the callers taken in and the held requests. */
  lemma ReachingStoreFrame(q: Q, e: Event)
    requires !Quiet(e)
    ensures var r := Outside(q, e); Operated(q.(issued := r.issued, held := r.held), r)
  {
    hide Request, OpSteps, Operated;
    OperatedSelf(q);
    match e
    case EvMessage(caller, target, methargs) => IssuedRequestFrame(q, caller, HeldMessage(caller, target, methargs));
    case EvWrite(caller, ops) => IssuedRequestFrame(q, caller, HeldWrite(caller, ops));
    case EvRequest(item) => RequestingFrame(q, HeldItem(item)); SameRequest(q, HeldItem(item));
    case EvOps(ops) => OpsFrame(q, ops); SameFields(q, OpSteps(q, ops).q);
  }

  lemma SameRequest(q: Q, h: HeldRequest)
    requires Operated(q.(held := Request(q, h).held), Request(q, h))
    ensures Operated(q.(issued := Request(q, h).issued, held := Request(q, h).held), Request(q, h))
  {
    hide Request;
  }

  lemma SameFields(q: Q, r: Q)
    requires Operated(q, r)
    ensures Operated(q.(issued := r.issued, held := r.held), r)
  {
  }

  lemma IssuedRequestFrame(q: Q, caller: Caller, h: HeldRequest)
    ensures var r := Request(Issue(q, caller), h); Operated(q.(issued := r.issued, held := r.held), r)
  {
    hide Request;
    RequestingFrame(Issue(q, caller), h);
  }
}
