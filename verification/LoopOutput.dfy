/**
 * What becomes of buffered output. A vat's sends, resolutions and subscriptions wait in memory for the flush of
 * whatever crank is open. An aborted crank is not flushed, so what is buffered while it awaits the end of its
 * vat stays in the buffer when it commits, charged for. A later crank that is not aborted flushes it; one that
 * is aborted drops it, and the references it holds are lost, and the callers listed for it forsaken.
 */
module LoopOutput {
  import opened Prelude
  import opened KernelStore
  import opened KernelAccounting
  import opened KernelRouting
  import opened KernelLoop
  import opened LoopFrames

  // ------------------------------------------------------------------ what operations do to the buffer

  predicate IsOutput(item: Item) {
    item.Send? || item.Notify?
  }

  /** Output has been buffered behind what was there, and none at all by an operation that queues at once. */
  predicate Buffered(s: Store, t: Store, immediate: bool) {
    && |s.crankBuffer| <= |t.crankBuffer| && t.crankBuffer[..|s.crankBuffer|] == s.crankBuffer
    && (immediate ==> t.crankBuffer == s.crankBuffer)
    && forall i | |s.crankBuffer| <= i < |t.crankBuffer| :: IsOutput(t.crankBuffer[i])
  }

  lemma BufferedThrough(s: Store, t: Store, u: Store, immediate: bool)
    requires Buffered(s, t, immediate) && Buffered(t, u, immediate)
    ensures Buffered(s, u, immediate)
  {
    forall i | |s.crankBuffer| <= i < |u.crankBuffer| ensures IsOutput(u.crankBuffer[i]) {
      if i < |t.crankBuffer| { assert u.crankBuffer[i] == t.crankBuffer[i]; }
    }
  }

  lemma SameBuffered(s: Store, t: Store)
    requires t.crankBuffer == s.crankBuffer
    ensures forall immediate :: Buffered(s, t, immediate)
  {
  }

  lemma SendBuffers(s: Store, target: KRef, m: KernelStore.Message, immediate: bool)
    ensures Buffered(s, EnqueueSend(s, target, m, immediate).store, immediate)
  {
    ChargeAllRaises(s, SendRefs(target, m));
  }

  lemma NotifyBuffers(s: Store, endpoint: EndpointId, kpid: nat, immediate: bool)
    ensures Buffered(s, EnqueueNotify(s, endpoint, kpid, immediate).store, immediate)
  {
  }

  lemma {:induction false} NotifiesBuffer(s: Store, subscribers: seq<EndpointId>, kpid: nat, immediate: bool)
    ensures Buffered(s, EnqueueNotifies(s, subscribers, kpid, immediate).store, immediate)
    decreases |subscribers|
  {
    hide EnqueueNotify, Buffered;
    SameBuffered(s, s);
    if subscribers != [] {
      NotifyBuffers(s, subscribers[0], kpid, immediate);
      var first := EnqueueNotify(s, subscribers[0], kpid, immediate);
      if first.Done? {
        NotifiesBuffer(first.store, subscribers[1..], kpid, immediate);
        BufferedThrough(s, first.store, EnqueueNotifies(s, subscribers, kpid, immediate).store, immediate);
      }
    }
  }

  lemma {:induction false} SendsBuffer(s: Store, target: KRef, messages: seq<KernelStore.Message>, immediate: bool)
    ensures Buffered(s, EnqueueSends(s, target, messages, immediate).store, immediate)
    decreases |messages|
  {
    hide EnqueueSend, Buffered;
    SameBuffered(s, s);
    if messages != [] {
      SendBuffers(s, target, messages[0], immediate);
      var first := EnqueueSend(s, target, messages[0], immediate);
      if first.Done? {
        SendsBuffer(first.store, target, messages[1..], immediate);
        BufferedThrough(s, first.store, EnqueueSends(s, target, messages, immediate).store, immediate);
      }
    }
  }

  lemma SettlingBuffers(s: Store, id: nat, rejected: bool, value: CapData)
    requires id < |s.promises|
    ensures SettlePromise(s, id, rejected, value).store.crankBuffer == s.crankBuffer
  {
    ReleaseQueueKeepsRows(SetRow(s, id, s.promises[id].(queue := [])), KPromise(id), s.promises[id].queue);
  }

  lemma ChargedBuffers(s: Store, subscribers: seq<EndpointId>, queue: seq<KernelStore.Message>, r: Resolution, immediate: bool)
    ensures Buffered(s, ResolveCharged(s, subscribers, queue, r, immediate).store, immediate)
  {
    hide EnqueueNotifies, SettlePromise, EnqueueSends, Buffered;
    NotifiesBuffer(s, subscribers, r.kpid, immediate);
    var notified := EnqueueNotifies(s, subscribers, r.kpid, immediate);
    if notified.Done? && r.kpid < |notified.store.promises| {
      SettlingBuffers(notified.store, r.kpid, r.rejected, r.value);
      var settled := SettlePromise(notified.store, r.kpid, r.rejected, r.value);
      SameBuffered(notified.store, settled.store);
      BufferedThrough(s, notified.store, settled.store, immediate);
      if settled.Done? {
        SendsBuffer(settled.store, KPromise(r.kpid), queue, immediate);
        BufferedThrough(s, settled.store, EnqueueSends(settled.store, KPromise(r.kpid), queue, immediate).store, immediate);
      }
    }
  }

  lemma ResolvingBuffers(s: Store, who: Agent, r: Resolution, immediate: bool)
    ensures Buffered(s, ResolveOne(s, who, r, immediate).store, immediate)
  {
    hide ResolveCharged, ChargeAll, Buffered;
    SameBuffered(s, s);
    ChargeAllRaises(s, r.value.slots);
    var charged := ChargeAll(s, r.value.slots);
    SameBuffered(s, charged.store);
    if MayResolve(s, who, r.kpid) && charged.Done? {
      ChargedBuffers(charged.store, s.promises[r.kpid].state.subscribers, s.promises[r.kpid].queue, r, immediate);
      BufferedThrough(s, charged.store, ResolveOne(s, who, r, immediate).store, immediate);
    }
  }

  lemma OtherOpBuffers(s: Store, op: Op)
    requires !op.OpSend? && !op.OpResolve? && !op.OpSubscribe?
    ensures ApplyOp(s, op).store.crankBuffer == s.crankBuffer
  {
  }

  lemma SubscribingBuffers(s: Store, endpoint: EndpointId, kpid: nat, immediate: bool)
    ensures Buffered(s, Subscribe(s, endpoint, kpid, immediate).store, immediate)
  {
    NotifyBuffers(s, endpoint, kpid, immediate);
  }

  /** What operations make of the buffer and of the listed answers; those made at once leave both alone. */
  predicate Outputs(q: Q, r: Q, immediate: bool) {
    && Buffered(q.db, r.db, immediate)
    && (immediate ==> r.resolvedInCrank == q.resolvedInCrank)
  }

  lemma OutputsThrough(q: Q, r: Q, t: Q, immediate: bool)
    requires Outputs(q, r, immediate) && Outputs(r, t, immediate)
    ensures Outputs(q, t, immediate)
  {
    BufferedThrough(q.db, r.db, t.db, immediate);
  }

  lemma ResolveStepOutputs(q: Q, who: Agent, r: Resolution, immediate: bool)
    ensures Outputs(q, ResolveStep(q, who, r, immediate).q, immediate)
  {
    hide ResolveOne, Buffered, ChargingEffect, Settle, UnpaidByResolution, FindSubscription;
    ResolvingBuffers(q.db, who, r, immediate);
    ResolvingOneFrame(q, who, r, immediate);
    var o, unpaid := ResolveOne(q.db, who, r, immediate), UnpaidByResolution(q.db, who, r);
    ChargingFrame(q, o, unpaid);
    SettlingFrame(ChargingEffect(q, o, unpaid).q, r);
  }

  lemma {:induction false} ResolvingOutputs(q: Q, who: Agent, rs: seq<Resolution>, immediate: bool)
    ensures Outputs(q, ResolveSteps(q, who, rs, immediate).q, immediate)
    decreases |rs|
  {
    hide ResolveStep, Buffered;
    SameBuffered(q.db, q.db);
    if rs != [] {
      var first := ResolveStep(q, who, rs[0], immediate);
      ResolveStepOutputs(q, who, rs[0], immediate);
      if !first.threw {
        ResolvingOutputs(first.q, who, rs[1..], immediate);
        OutputsThrough(q, first.q, ResolveSteps(q, who, rs, immediate).q, immediate);
      }
    }
  }

  /** The operation's output, should it have any, waits for a flush. */
  predicate Buffers(op: Op) {
    match op
    case OpSend(_, _, immediate) => !immediate
    case OpResolve(_, _, immediate) => !immediate
    case OpSubscribe(_, _, immediate) => !immediate
    case _ => false
  }

  lemma OpOutputs(q: Q, op: Op)
    ensures Outputs(q, OpStep(q, op).q, !q.phase.InCrank? || !Buffers(op))
  {
    hide ResolveSteps, EnqueueSend, Subscribe, ApplyOp, Buffered, Unpaid;
    match op
    case OpResolve(who, rs, immediate) => ResolvingOutputs(q, who, rs, AtOnce(q, immediate));
    case OpSend(target, m, immediate) => SendBuffers(q.db, target, m, AtOnce(q, immediate));
    case OpSubscribe(endpoint, kpid, immediate) => SubscribingBuffers(q.db, endpoint, kpid, AtOnce(q, immediate));
    case _ => OtherOpBuffers(q.db, op); SameBuffered(q.db, ApplyOp(q.db, op).store);
  }

  predicate SomeBuffers(ops: seq<Op>) {
    exists i | 0 <= i < |ops| :: Buffers(ops[i])
  }

  lemma {:induction false} OpsOutput(q: Q, ops: seq<Op>)
    ensures Outputs(q, OpSteps(q, ops).q, !q.phase.InCrank? || !SomeBuffers(ops))
    decreases |ops|
  {
    hide OpStep, Buffered, Buffers;
    SameBuffered(q.db, q.db);
    if ops != [] {
      var first := OpStep(q, ops[0]);
      OpOutputs(q, ops[0]);
      OperatingFrame(q, ops[0]);
      MoreBuffers(ops);
      if !first.threw {
        OpsOutput(first.q, ops[1..]);
        WeakerOutputs(q, first.q, !q.phase.InCrank? || !Buffers(ops[0]), !q.phase.InCrank? || !SomeBuffers(ops));
        WeakerOutputs(first.q, OpSteps(q, ops).q, !q.phase.InCrank? || !SomeBuffers(ops[1..]), !q.phase.InCrank? || !SomeBuffers(ops));
        OutputsThrough(q, first.q, OpSteps(q, ops).q, !q.phase.InCrank? || !SomeBuffers(ops));
      } else {
        WeakerOutputs(q, first.q, !q.phase.InCrank? || !Buffers(ops[0]), !q.phase.InCrank? || !SomeBuffers(ops));
      }
    }
  }

  lemma MoreBuffers(ops: seq<Op>)
    requires ops != []
    ensures Buffers(ops[0]) || SomeBuffers(ops[1..]) ==> SomeBuffers(ops)
  {
    assert forall i | 0 <= i < |ops[1..]| :: ops[1..][i] == ops[i + 1];
  }

  lemma WeakerOutputs(q: Q, r: Q, a: bool, b: bool)
    requires Outputs(q, r, a) && (b ==> a)
    ensures Outputs(q, r, b)
  {
  }

  // ------------------------------------------------------------------ requests

  lemma WritingOutputs(q: Q, h: HeldRequest)
    requires !q.phase.InCrank?
    ensures Outputs(q, WriteRequest(q, h).q, true)
  {
    hide OpSteps, EnqueueSend, Buffered, SomeMissing;
    SameBuffered(q.db, q.db);
    match h
    case HeldMessage(caller, target, methargs) =>
      var m := KernelStore.Message(methargs, Some(|q.db.promises|));
      SendBuffers(InitPromise(q.db), target, m, true);
      SameBuffered(q.db, InitPromise(q.db));
      BufferedThrough(q.db, InitPromise(q.db), EnqueueSend(InitPromise(q.db), target, m, true).store, true);
    case HeldWrite(_, ops) => OpsOutput(q, ops);
    case HeldItem(item) => SameBuffered(q.db, Append(q.db, item, true));
  }

  lemma {:induction false} WritingHeldOutputs(q: Q, fault: Option<nat>)
    requires !q.phase.InCrank?
    ensures Outputs(q, WriteHeld(q, fault).q, true)
    decreases |q.held|
  {
    hide WriteRequest, Buffered;
    SameBuffered(q.db, q.db);
    if q.held != [] && fault != Some(0) {
      var first := WriteRequest(q, q.held[0]);
      WritingOutputs(q, q.held[0]);
      WritingFrame(q, q.held[0]);
      if !first.threw {
        var next := first.q.(held := q.held[1..]);
        WritingHeldOutputs(next, if fault.Some? && fault.value > 0 then Some(fault.value - 1) else None);
        OutputsThrough(q, next, WriteHeld(q, fault).q, true);
      }
    }
  }

  lemma RequestingOutputs(q: Q, h: HeldRequest)
    ensures Outputs(q, Request(q, h), true)
  {
    hide WriteRequest, Buffered;
    SameBuffered(q.db, q.db);
    if !q.phase.InCrank? { WritingOutputs(q, h); }
  }

  // ------------------------------------------------------------------ a crank that awaits a termination

  /** An aborted crank that awaits the end of its vat: it will not be flushed. */
  predicate AwaitsEnd(q: Q) {
    q.phase.InCrank? && q.phase.stage.Terminating? && q.phase.stage.outcome.abort
  }

  /** Output that no flush of the open crank will take. */
  predicate IsLate(q: Q, e: Event) {
    AwaitsEnd(q) && e.EvOps? && SomeBuffers(e.ops)
  }

  /** No operation of the run is late. */
  predicate NoneLate(q: Q, events: seq<Event>)
    decreases |events|
  {
    events == [] || (!IsLate(q, events[0]) && NoneLate(Step(q, events[0]), events[1..]))
  }

  predicate Emptied(s: Store, rs: seq<Resolution>) {
    s.crankBuffer == [] && rs == []
  }

  /** Nothing is buffered or listed but by an open crank that may still be flushed, and nobody has been forsaken. */
  predicate IsClean(q: Q) {
    && (q.phase.InCrank? ==> Emptied(q.saved, q.savedListed))
    && (!q.phase.Dead? && (!q.phase.InCrank? || AwaitsEnd(q)) ==> Emptied(q.db, q.resolvedInCrank))
    && q.forsaken == {}
  }

  lemma OutputStaysClean(q: Q, r: Q, immediate: bool)
    requires IsClean(q) && Outputs(q, r, immediate) && (immediate || (q.phase.InCrank? && !AwaitsEnd(q)))
    requires r.phase == q.phase && r.saved == q.saved && r.savedListed == q.savedListed && r.forsaken == q.forsaken
    ensures IsClean(r)
  {
  }

  lemma DyingIsClean(q: Q)
    requires q.forsaken == {}
    ensures IsClean(FailRunLoop(q))
  {
    hide ToldOfDeath;
  }

  lemma ParkingIsClean(q: Q, endFault: bool, heldFault: Option<nat>)
    requires Emptied(q.db, q.resolvedInCrank) && q.forsaken == {}
    ensures IsClean(Park(q, endFault, heldFault))
  {
    hide FailRunLoop, WriteHeld, LostByReturning;
    var parked := q.(wakeSet := true, phase := Parked);
    DyingIsClean(RollBack(q));
    DyingIsClean(Uncommitted(parked));
    WritingHeldIsClean(parked, heldFault);
    WritingHeldFrame(parked, heldFault);
    DyingIsClean(WriteHeld(parked, heldFault).q);
  }

  lemma BeginningIsClean(q: Q, priority: Priority, endFault: bool, heldFault: Option<nat>)
    requires IsClean(q) && q.phase.Top?
    ensures IsClean(Begin(q, priority, endFault, heldFault))
  {
    hide GetNext, Park;
    var open := Savepoint(q);
    var taken := GetNext(open, priority);
    TakingFrame(open, priority);
    TakingKeepsBuffer(open, priority);
    ParkingIsClean(taken.q, endFault, heldFault);
  }

  lemma TakingKeepsBuffer(q: Q, priority: Priority)
    ensures GetNext(q, priority).q.db.crankBuffer == q.db.crankBuffer
  {
  }

  lemma WritingHeldIsClean(q: Q, fault: Option<nat>)
    requires IsClean(q) && !q.phase.InCrank? && !q.phase.Dead?
    ensures IsClean(WriteHeld(q, fault).q) && WriteHeld(q, fault).q.phase == q.phase
  {
    hide WriteHeld;
    WritingHeldFrame(q, fault);
    WritingHeldOutputs(q, fault);
    OutputStaysClean(q, WriteHeld(q, fault).q, true);
  }

  lemma DeliveringIsClean(q: Q, r: Q)
    requires IsClean(q) && q.phase.InCrank? && Delivering(q, r)
    ensures IsClean(r)
  {
  }

  lemma AbortingIsClean(q: Q, result: CrankResult, env: Env)
    requires IsClean(q) && q.phase.InCrank?
    ensures var e := AbortStep(q, result, env);
            && e.q.forsaken == {} && (!e.threw && result.abort ==> Emptied(e.q.db, e.q.resolvedInCrank))
            && e.q.saved == q.saved && e.q.savedListed == q.savedListed
  {
    hide AbortStep, LostByReturning;
    AbortingFrame(q, result, env);
  }

  /** A crank that commits has flushed all it had, unless it was aborted: then its buffer is as it was. */
  lemma ClosingOutputs(q: Q, result: CrankResult, env: Env)
    ensures var c := Closing(q, result, env);
            !c.threw ==> c.q.db.crankBuffer == (if result.abort then q.db.crankBuffer else [])
                         && c.q.resolvedInCrank == (if result.abort then q.resolvedInCrank else [])
  {
    hide CollectStep, FlushStep, Flushed, LostByFlush;
    var bound := q.(rollbackAllowed := q.rollbackAllowed && !result.irrevocable);
    var collected := CollectStep(bound, env);
    CollectingFrame(bound, env);
    CollectingKeepsBuffer(q.db, env.candidates);
    FlushingFrame(collected.q, env);
    FlushingEmpties(collected.q, env);
  }

  lemma FlushingEmpties(q: Q, env: Env)
    ensures var e := FlushStep(q, env); !e.threw ==> Emptied(e.q.db, e.q.resolvedInCrank)
  {
    hide AnswerNotified, SettleEach;
    var items := q.db.crankBuffer;
    NotifyingFrame(WithStore(q, Flush(q.db)), items);
    var answered := AnswerNotified(WithStore(q, Flush(q.db)), items);
    SettlingEachFrame(answered, answered.resolvedInCrank);
  }

  lemma {:induction false} CollectingKeepsBuffer(s: Store, candidates: seq<KRef>)
    ensures Collect(s, candidates).store.crankBuffer == s.crankBuffer
    decreases |candidates|
  {
    if candidates != [] {
      var k := candidates[0];
      if k.KPromise? && Live(s, k.id) && s.promises[k.id].state.Settled? {
        ReleaseAllKeepsRows(s, s.promises[k.id].state.value.slots);
      }
      var first := CollectOne(s, k);
      if first.Done? { CollectingKeepsBuffer(first.store, candidates[1..]); }
    }
  }

  /** The commit, the held requests and the rest touch neither the buffer nor the list. */
  lemma CommittingOutputs(q: Q, result: CrankResult, env: Env)
    ensures var r := Commit(q, result, env);
            && r.db.crankBuffer == q.db.crankBuffer && r.forsaken == q.forsaken
            && (!r.phase.Dead? ==> r.resolvedInCrank == q.resolvedInCrank)
  {
    hide WriteHeld, FailRunLoop, AnswerControl;
    WritingHeldFrame(q.(phase := Top), env.heldFault);
    WritingHeldOutputs(q.(phase := Top), env.heldFault);
    var written := WriteHeld(q.(phase := Top), env.heldFault);
    AnsweringControlFrame(written.q);
    FailingFrame(AnswerControl(written.q));
  }

  lemma CrankFailedIsClean(q: Q, env: Env)
    requires q.forsaken == {}
    ensures IsClean(CrankFailed(q, env))
  {
    hide FailRunLoop, LostByReturning;
    var undone := if q.rollbackAllowed then RollBack(q) else q;
    DyingIsClean(if env.endFault then Uncommitted(undone) else undone);
  }

  lemma ClosingIsClean(q: Q, result: CrankResult, env: Env)
    requires q.forsaken == {} && (result.abort ==> Emptied(q.db, q.resolvedInCrank))
    ensures IsClean(Close(q, result, env))
  {
    hide Closing, CrankFailed, FailRunLoop, Commit, LostByReturning;
    var closed := Closing(q, result, env);
    ClosingStoreFrame(q, result, env);
    ClosingOutputs(q, result, env);
    CrankFailedIsClean(closed.q, env);
    DyingIsClean(Uncommitted(closed.q));
    CommittingOutputs(closed.q, result, env);
    CommittingFrame(closed.q, result, env);
  }

  lemma FinishingIsClean(q: Q, end: DeliverEnd, env: Env)
    requires IsClean(q) && MayFinish(q, end)
    ensures IsClean(Finish(q, end, env))
  {
    hide CrankFailed, AbortStep, Close;
    CrankFailedIsClean(q, env);
    if end.Returned? {
      var result := ResultOf(q.phase.item, end.result);
      AbortingIsClean(q, result, env);
      AbortingFrame(q, result, env);
      var aborted := AbortStep(q, result, env);
      CrankFailedIsClean(aborted.q, env);
      if !aborted.threw { ClosingIsClean(aborted.q, result, env); }
    }
  }

  lemma OutsideIsClean(q: Q, e: Event)
    requires IsClean(q) && !IsLate(q, e)
    ensures IsClean(Outside(q, e))
  {
    hide IsClean, Request, OpSteps, Outputs;
    match e
    case EvMessage(caller, target, methargs) => RequestIsClean(q, caller, HeldMessage(caller, target, methargs));
    case EvWrite(caller, ops) => RequestIsClean(q, caller, HeldWrite(caller, ops));
    case EvRequest(item) =>
      RequestingOutputs(q, HeldItem(item));
      RequestingFrame(q, HeldItem(item));
      if !Refused(q) { OutputStaysClean(q, Request(q, HeldItem(item)), true); }
    case EvOps(ops) =>
      OpsOutput(q, ops);
      OpsFrame(q, ops);
      OutputStaysClean(q, OpSteps(q, ops).q, !q.phase.InCrank? || !SomeBuffers(ops));
    case _ => QuietIsClean(q, e);
  }

  lemma RequestIsClean(q: Q, caller: Caller, h: HeldRequest)
    requires IsClean(q)
    ensures IsClean(Request(Issue(q, caller), h))
  {
    hide IsClean, Request, Outputs;
    var issued := Issue(q, caller);
    assert IsClean(issued) by { IssuedIsClean(q, caller); }
    RequestingOutputs(issued, h);
    RequestingFrame(issued, h);
    OutputStaysClean(issued, Request(issued, h), true);
  }

  lemma IssuedIsClean(q: Q, caller: Caller)
    requires IsClean(q)
    ensures IsClean(Issue(q, caller))
  {
  }

  lemma QuietIsClean(q: Q, e: Event)
    requires IsClean(q) && Quiet(e)
    ensures IsClean(Outside(q, e))
  {
    hide TellAll, HoldersOf, SubscribersOf, AcceptArrival, RemoveFirst;
    match e
    case EvArrival(event) => ArrivingFrame(q, event);
    case _ =>
  }

  /** A step that buffers nothing late leaves nothing behind. */
  lemma StepIsClean(q: Q, e: Event)
    requires IsClean(q) && !IsLate(q, e)
    ensures IsClean(Step(q, e))
  {
    hide IsClean, IsLate, Begin, DeliverStep, ServedStep, Finish, Terminated, Outside, Wipe, Reported, Operated;
    match e
    case EvStart => ResumedIsClean(q);
    case EvWake => ResumedIsClean(q);
    case EvBegin(priority, endFault, heldFault) => if q.phase.Top? { BeginningIsClean(q, priority, endFault, heldFault); }
    case EvDeliver(running) => if InStage(q, true) { DeliveringFrame(q, running); DeliveringIsClean(q, DeliverStep(q, running)); }
    case EvServed(failed) => if InStage(q, false) { ServingFrame(q, failed); DeliveringIsClean(q, ServedStep(q, failed)); }
    case EvWipe => WipingIsClean(q);
    case EvFinish(end, env) => if MayFinish(q, end) { FinishingIsClean(q, end, env); }
    case EvTerminated(env) => if q.phase.InCrank? && q.phase.stage.Terminating? { TerminatingIsClean(q, env); }
    case EvAfterCommit(throws) => if q.phase.AfterCommit? { ReportingIsClean(q, throws); }
    case _ => OutsideIsClean(q, e);
  }

  lemma ResumedIsClean(q: Q)
    requires IsClean(q)
    ensures q.phase.Idle? || q.phase.Parked? ==> IsClean(q.(phase := Top))
  {
  }

  lemma WipingIsClean(q: Q)
    requires IsClean(q)
    ensures IsClean(Wipe(q))
  {
    hide Wipe;
    WipingFrame(q);
  }

  lemma ReportingIsClean(q: Q, throws: bool)
    requires IsClean(q) && q.phase.AfterCommit?
    ensures IsClean(Reported(q, throws))
  {
    hide FailRunLoop, AnswerControl;
    DyingIsClean(q);
    AnsweringControlFrame(q);
    DyingIsClean(AnswerControl(q));
  }

  lemma TerminatingIsClean(q: Q, env: Env)
    requires IsClean(q) && q.phase.InCrank? && q.phase.stage.Terminating?
    ensures IsClean(Terminated(q, env))
  {
    hide CrankFailed, Close;
    var recorded := q.(rollbackAllowed := false);
    CrankFailedIsClean(recorded, env);
    ClosingIsClean(recorded, q.phase.stage.outcome, env);
  }

  lemma {:induction false} RunIsClean(q: Q, events: seq<Event>)
    requires IsClean(q) && NoneLate(q, events)
    ensures IsClean(Run(q, events))
    decreases |events|
  {
    hide Step, IsClean, IsLate;
    if events != [] {
      StepIsClean(q, events[0]);
      RunIsClean(Step(q, events[0]), events[1..]);
    }
  }

  lemma InitIsClean(db: Store)
    requires db.crankBuffer == []
    ensures IsClean(Init(db))
  {
  }

  /**
   * Over every run in which nothing is buffered while an aborted crank awaits the end of its vat: outside a crank
   * no output waits and no answer is listed, and nobody has been forsaken.
   */
  lemma NothingLeftBehind(db: Store, events: seq<Event>)
    requires db.crankBuffer == [] && NoneLate(Init(db), events)
    ensures var q := Run(Init(db), events);
            && q.forsaken == {}
            && (!q.phase.InCrank? && !q.phase.Dead? ==> q.db.crankBuffer == [] && q.resolvedInCrank == [])
  {
    hide Run, NoneLate;
    RunIsClean(Init(db), events);
  }

  /**
   * What is buffered and listed while an aborted crank awaits its vat's end is what is buffered and listed once
   * the crank has committed.
   */
  lemma LateOutputStays(q: Q, env: Env)
    requires AwaitsEnd(q) && !Terminated(q, env).phase.Dead?
    ensures var r := Terminated(q, env); r.db.crankBuffer == q.db.crankBuffer && r.resolvedInCrank == q.resolvedInCrank
  {
    hide Closing, CrankFailed, FailRunLoop, Commit, LostByReturning;
    var recorded := q.(rollbackAllowed := false);
    var outcome := q.phase.stage.outcome;
    CrankFailingFrame(recorded, env);
    var closed := Closing(recorded, outcome, env);
    ClosingOutputs(recorded, outcome, env);
    CrankFailingFrame(closed.q, env);
    DyingFrame(Uncommitted(closed.q));
    CommittingOutputs(closed.q, outcome, env);
  }

  /** Anything buffered holds a reference. */
  lemma {:induction false} OutputHolds(items: seq<Item>)
    requires forall i | 0 <= i < |items| :: IsOutput(items[i])
    ensures RefsOfItems(items) == multiset{} <==> items == []
    decreases |items|
  {
    if items != [] {
      var n := |items| - 1;
      var last := items[n];
      var k := if last.Send? then last.target else KPromise(last.kpid);
      assert k in RefsOfItem(last);
      assert RefsOfItems(items)[k] == RefsOfItems(items[..n])[k] + RefsOfItem(last)[k];
    }
  }
}
