/**
 * When references are lost. Over every run, a live loop has lost some if and only if a charging operation was
 * refused past its first reference and no abort has undone that, or an abort has dropped output that an earlier
 * crank had charged for: without either, every count is what the kernel holds.
 */
module LoopLosses {
  import opened Prelude
  import opened KernelStore
  import opened KernelAccounting
  import opened KernelRouting
  import opened KernelLoop
  import opened LoopFrames
  import LoopCallers
  import LoopConservation
  import LoopOutput

  // ------------------------------------------------------------------ refusals that leave something charged

  /** The send is refused, but not for its target: that is charged already. */
  predicate LeakySend(s: Store, target: KRef, m: KernelStore.Message) {
    target in s.counts && !AllExist(s, SendRefs(target, m))
  }

  /** The resolution is refused for a slot that is not its first. */
  predicate LeakyResolution(s: Store, who: Agent, r: Resolution) {
    MayResolve(s, who, r.kpid) && r.value.slots != [] && r.value.slots[0] in s.counts && !AllExist(s, r.value.slots)
  }

  predicate LeakyResolutions(q: Q, who: Agent, rs: seq<Resolution>, immediate: bool)
    decreases |rs|
  {
    rs != [] &&
    (|| LeakyResolution(q.db, who, rs[0])
     || (!ResolveStep(q, who, rs[0], immediate).threw && LeakyResolutions(ResolveStep(q, who, rs[0], immediate).q, who, rs[1..], immediate)))
  }

  predicate LeakyOp(q: Q, op: Op) {
    match op
    case OpResolve(who, rs, immediate) => LeakyResolutions(q, who, rs, AtOnce(q, immediate))
    case OpSend(target, m, _) => LeakySend(q.db, target, m)
    case _ => false
  }

  predicate LeakyOps(q: Q, ops: seq<Op>)
    decreases |ops|
  {
    ops != [] && (LeakyOp(q, ops[0]) || (!OpStep(q, ops[0]).threw && LeakyOps(OpStep(q, ops[0]).q, ops[1..])))
  }

  predicate LeakyWrite(q: Q, h: HeldRequest) {
    h.HeldWrite? && LeakyOps(q, h.ops)
  }

  /** Some request held is written, and leaks, before one that throws. */
  predicate LeakyHeld(q: Q, fault: Option<nat>)
    decreases |q.held|
  {
    q.held != [] && fault != Some(0) &&
    var first := WriteRequest(q, q.held[0]);
    || LeakyWrite(q, q.held[0])
    || (!first.threw && LeakyHeld(first.q.(held := q.held[1..]), if fault.Some? && fault.value > 0 then Some(fault.value - 1) else None))
  }

  // ------------------------------------------------------------------ they are what loses references

  predicate Lost(q: Q) {
    q.lost != multiset{}
  }

  lemma MoreLost(lost: multiset<KRef>, more: multiset<KRef>)
    ensures lost + more != multiset{} <==> lost != multiset{} || more != multiset{}
  {
    if k :| k in lost { assert k in lost + more; }
    if k :| k in more { assert k in lost + more; }
  }

  lemma UnpaidIsSome(s: Store, refs: seq<KRef>)
    requires !AllExist(s, refs)
    ensures Unpaid(s, refs) != multiset{} <==> refs != [] && refs[0] in s.counts
  {
    var n := ChargedPrefix(s, refs);
    assert n < |refs|;
    if n > 0 { assert refs[..n][0] == refs[0] && refs[0] in multiset(refs[..n]); } else { assert refs[..n] == []; }
  }

  lemma SendingLoses(q: Q, target: KRef, m: KernelStore.Message, immediate: bool)
    ensures Lost(SendOp(q, target, m, immediate).q) <==> Lost(q) || LeakySend(q.db, target, m)
  {
    var refs := SendRefs(target, m);
    ChargeAllRaises(q.db, refs);
    hide ChargeAll, Unpaid;
    if !AllExist(q.db, refs) {
      UnpaidIsSome(q.db, refs);
      MoreLost(q.lost, Unpaid(q.db, refs));
    }
  }

  lemma SettlingKeepsLost(q: Q, r: Resolution)
    ensures Settle(q, r).lost == q.lost
  {
    hide Settle;
    SettlingFrame(q, r);
  }

  lemma ResolveStepLoses(q: Q, who: Agent, r: Resolution, immediate: bool, f: multiset<KRef>)
    requires Sound(q.db, f)
    ensures Lost(ResolveStep(q, who, r, immediate).q) <==> Lost(q) || LeakyResolution(q.db, who, r)
    ensures LeakyResolution(q.db, who, r) ==> ResolveStep(q, who, r, immediate).threw
    ensures !ResolveStep(q, who, r, immediate).threw ==> ResolveStep(q, who, r, immediate).q.lost == q.lost
  {
    hide Sound, ResolveOne, UnpaidByResolution, Settle, FindSubscription, LeakyResolution, Resolves, ChargingEffect;
    ResolveOneConserves(q.db, who, r, immediate, f);
    var e := ChargingEffect(q, ResolveOne(q.db, who, r, immediate), UnpaidByResolution(q.db, who, r));
    ChargingFrame(q, ResolveOne(q.db, who, r, immediate), UnpaidByResolution(q.db, who, r));
    SettlingKeepsLost(e.q, r);
    UnpaidIfLeaky(q.db, who, r);
    MoreLost(q.lost, UnpaidByResolution(q.db, who, r));
  }

  lemma UnpaidIfLeaky(s: Store, who: Agent, r: Resolution)
    ensures LeakyResolution(s, who, r) ==> !Resolves(s, who, r)
    ensures !Resolves(s, who, r) ==> (UnpaidByResolution(s, who, r) != multiset{} <==> LeakyResolution(s, who, r))
  {
    hide Unpaid;
    if MayResolve(s, who, r.kpid) && !AllExist(s, r.value.slots) { UnpaidIsSome(s, r.value.slots); }
  }

  /** Counts that can be relied on: nothing was torn from memory. */
  ghost predicate Reliable(q: Q, f: multiset<KRef>) {
    !q.torn && LoopConservation.Balances(q, f)
  }

  lemma {:induction false} ResolvingLoses(q: Q, who: Agent, rs: seq<Resolution>, immediate: bool, f: multiset<KRef>)
    requires Reliable(q, f)
    ensures var e := ResolveSteps(q, who, rs, immediate);
            && (Lost(e.q) <==> Lost(q) || LeakyResolutions(q, who, rs, immediate))
            && (!e.threw ==> e.q.lost == q.lost)
    decreases |rs|
  {
    hide ResolveStep, Sound, LeakyResolution;
    if rs != [] {
      ResolveStepLoses(q, who, rs[0], immediate, q.lost + f);
      LoopConservation.ResolveStepBalances(q, who, rs[0], immediate, f);
      ResolvingLoses(ResolveStep(q, who, rs[0], immediate).q, who, rs[1..], immediate, f);
    }
  }

  lemma OpLoses(q: Q, op: Op, f: multiset<KRef>)
    requires Reliable(q, f)
    ensures Lost(OpStep(q, op).q) <==> Lost(q) || LeakyOp(q, op)
  {
    hide ResolveSteps, SendOp, ApplyOp, Subscribe, Sound, LeakyResolutions, LeakySend;
    match op
    case OpResolve(who, rs, immediate) => ResolvingLoses(q, who, rs, AtOnce(q, immediate), f);
    case OpSend(target, m, immediate) => SendingLoses(q, target, m, AtOnce(q, immediate));
    case _ =>
  }

  lemma OpStaysReliable(q: Q, op: Op, f: multiset<KRef>)
    requires Reliable(q, f)
    ensures Reliable(OpStep(q, op).q, f)
  {
    hide OpStep, Sound;
    LoopConservation.OpBalances(q, op, f);
    OperatingFrame(q, op);
  }

  lemma {:induction false} OpsLose(q: Q, ops: seq<Op>, f: multiset<KRef>)
    requires Reliable(q, f)
    ensures Lost(OpSteps(q, ops).q) <==> Lost(q) || LeakyOps(q, ops)
    decreases |ops|
  {
    hide OpStep, Reliable, LeakyOp;
    if ops != [] {
      OpLoses(q, ops[0], f);
      OpStaysReliable(q, ops[0], f);
      OpsLose(OpStep(q, ops[0]).q, ops[1..], f);
    }
  }

  lemma WritingLoses(q: Q, h: HeldRequest)
    requires Reliable(q, multiset{})
    ensures Lost(WriteRequest(q, h).q) <==> Lost(q) || LeakyWrite(q, h)
  {
    hide OpSteps, LeakyOps, Sound, EnqueueSend, SomeMissing;
    match h
    case HeldWrite(_, ops) => OpsLose(q, ops, multiset{});
    case _ =>
  }

  lemma {:induction false} WritingHeldLoses(q: Q, fault: Option<nat>)
    requires Reliable(q, multiset{}) && LoopConservation.ProperHeld(q.held)
    ensures Lost(WriteHeld(q, fault).q) <==> Lost(q) || LeakyHeld(q, fault)
    decreases |q.held|
  {
    hide WriteRequest, LoopConservation.Balances, LeakyWrite;
    if q.held != [] && fault != Some(0) {
      var first := WriteRequest(q, q.held[0]);
      WritingLoses(q, q.held[0]);
      if !first.threw {
        LoopConservation.WritingBalances(q, q.held[0]);
        var next := first.q.(held := q.held[1..]);
        LoopConservation.SameBalance(first.q, next, multiset{});
        WritingHeldLoses(next, if fault.Some? && fault.value > 0 then Some(fault.value - 1) else None);
      }
    }
  }

  // ------------------------------------------------------------------ deliveries lose nothing unless they throw

  lemma RejectingKeepsLost(q: Q, result: Option<nat>, error: CapData, refs: seq<KRef>)
    requires Reliable(q, multiset(refs))
    ensures var e := RejectAndRelease(q, result, error, refs); !e.threw ==> e.q.lost == q.lost
  {
    hide ResolveSteps, ReleaseAll, Sound;
    if result.Some? && Live(q.db, result.value) {
      ResolvingLoses(q, Decider(q.db, result.value), [Resolution(result.value, true, error)], true, multiset(refs));
    }
  }

  lemma SendStepKeepsLost(q: Q, target: KRef, m: KernelStore.Message, running: set<EndpointId>)
    requires Reliable(q, RefsOfItem(Send(target, m)))
    ensures var (e, _) := SendStep(q, target, m, running); !e.threw ==> e.q.lost == q.lost
  {
    hide RejectAndRelease, HandOver, DeliverRequeue, RouteOf, LoopConservation.Balances;
    SendRefsAreItemRefs(target, m);
    LoopConservation.OtherOrder(target, m);
    hide RefsOfItem, SendRefs, ResultRef;
    match RouteOf(q.db, target)
    case Splat(error) => RejectingKeepsLost(q, m.result, error, SendRefs(target, m));
    case ToAgent(who, _) => RejectingKeepsLost(q, m.result, KERNEL_ERROR, ResultRef(m) + [target] + m.methargs.slots);
    case _ =>
  }

  lemma DeliveringKeepsLost(q: Q, running: set<EndpointId>)
    requires LoopConservation.Conserved(q) && InStage(q, true)
    ensures var r := DeliverStep(q, running); r.savedLost == q.savedLost && (r.phase.stage.DeliveryThrew? || r.lost == q.lost)
  {
    hide SendStep, Sound, RefsOfItem;
    DeliveringFrame(q, running);
    match q.phase.item
    case RunItem(Send(target, m)) => SendStepKeepsLost(q, target, m, running);
    case _ =>
  }

  lemma ServingKeepsLost(q: Q, failed: bool)
    requires LoopConservation.Conserved(q) && InStage(q, false)
    ensures var r := ServedStep(q, failed); r.savedLost == q.savedLost && (r.phase.stage.DeliveryThrew? || r.lost == q.lost)
  {
    hide ResolveSteps, ReleaseAll, Sound;
    ServingFrame(q, failed);
    var stage := q.phase.stage;
    if stage.result.Some? {
      ResolvingLoses(q, stage.who, [Resolution(stage.result.value, true, KERNEL_ERROR)], true, multiset(stage.refs));
    }
  }

  // ------------------------------------------------------------------ why references are lost, over a run

  /** An operation was refused partway, or an abort dropped output. */
  datatype Cause = Cause(refused: bool, dropped: bool)

  /** Why references are lost, and why those were that the open crank found lost. */
  datatype Losses = Losses(now: Cause, found: Cause)

  const NO_LOSSES := Losses(Cause(false, false), Cause(false, false))

  function Refusing(l: Losses, leaks: bool): Losses {
    if leaks then l.(now := l.now.(refused := true)) else l
  }

  /** A crank that commits writes the requests it held. */
  function AtClose(l: Losses, q: Q, result: CrankResult, env: Env): Losses {
    Refusing(l, LeakyHeld(Closing(q, result, env).q.(phase := Top), env.heldFault))
  }

  /** An abort undoes what its own crank lost, and drops the output that was there when the crank opened. */
  function AtAbort(l: Losses, q: Q): Losses {
    l.(now := l.found.(dropped := l.found.dropped || RefsOfItems(q.saved.crankBuffer) != multiset{}))
  }

  function AtFinish(l: Losses, q: Q, result: CrankResult, env: Env): Losses
    requires q.phase.InCrank?
  {
    var back := if result.abort then AtAbort(l, q) else l;
    if result.terminate then back else AtClose(back, AbortStep(q, result, env).q, result, env)
  }

  function LossesAfter(l: Losses, q: Q, e: Event): Losses {
    match e
    case EvBegin(_, _, _) => if q.phase.Top? then l.(found := l.now) else l
    case EvOps(ops) => Refusing(l, LeakyOps(q, ops))
    case EvWrite(caller, ops) => Refusing(l, !Refused(q) && !q.phase.InCrank? && LeakyOps(Issue(q, caller), ops))
    case EvWipe => if InStage(q, false) && q.phase.item.ControlItem? then l.(now := Cause(false, false)) else l
    case EvFinish(end, env) => if MayFinish(q, end) && end.Returned? then AtFinish(l, q, ResultOf(q.phase.item, end.result), env) else l
    case EvTerminated(env) =>
      if q.phase.InCrank? && q.phase.stage.Terminating? then AtClose(l, q.(rollbackAllowed := false), q.phase.stage.outcome, env) else l
    case _ => l
  }

  function LossesOver(l: Losses, q: Q, events: seq<Event>): Losses
    decreases |events|
  {
    if events == [] then l else LossesOver(LossesAfter(l, q, events[0]), Step(q, events[0]), events[1..])
  }

  predicate HasCause(c: Cause) {
    c.refused || c.dropped
  }

  /** The loop lives, and no delivery has thrown that its crank has yet to die of. */
  predicate LivesOn(q: Q) {
    !q.phase.Dead? && !(q.phase.InCrank? && q.phase.stage.DeliveryThrew?)
  }

  /** What is lost, and what the open crank found lost, is something exactly if there is a cause for it. */
  predicate Explained(l: Losses, q: Q) {
    && (q.phase.InCrank? ==> (q.savedLost != multiset{} <==> HasCause(l.found)))
    && (LivesOn(q) ==> (Lost(q) <==> HasCause(l.now)))
  }

  // ------------------------------------------------------------------ every step

  lemma BeginningExplains(l: Losses, q: Q, priority: Priority, endFault: bool, heldFault: Option<nat>)
    requires Explained(l, q) && q.phase.Top? && q.held == []
    ensures Explained(l.(found := l.now), Begin(q, priority, endFault, heldFault))
  {
    hide GetNext, Park;
    var open := Savepoint(q);
    TakingFrame(open, priority);
    ParkingKeepsLost(GetNext(open, priority).q, endFault, heldFault);
  }

  lemma ParkingKeepsLost(q: Q, endFault: bool, heldFault: Option<nat>)
    requires q.held == []
    ensures var r := Park(q, endFault, heldFault); !r.phase.InCrank? && (r.phase.Dead? || r.lost == q.lost)
  {
    hide FailRunLoop, LostByReturning;
    var parked := q.(wakeSet := true, phase := Parked);
    FailingFrame(RollBack(q));
    FailingFrame(Uncommitted(parked));
    assert WriteHeld(parked, heldFault) == Effect(parked, false);
  }

  lemma ClosingKeepsLost(q: Q, result: CrankResult, env: Env)
    ensures !Closing(q, result, env).threw ==> Closing(q, result, env).q.lost == q.lost
  {
    hide CollectStep, FlushAndAudit, Collect, Flushed;
    var bound := q.(rollbackAllowed := q.rollbackAllowed && !result.irrevocable);
    CollectingFrame(bound, env);
    var collected := CollectStep(bound, env);
    AuditingFrame(collected.q, result, env);
    CollectedBuffer(bound, env);
    assert q.lost + multiset{} == q.lost;
  }

  lemma CollectedBuffer(q: Q, env: Env)
    ensures CollectStep(q, env).q.db.crankBuffer == q.db.crankBuffer
  {
    LoopOutput.CollectingKeepsBuffer(q.db, env.candidates);
  }

  lemma CommittingLoses(q: Q, result: CrankResult, env: Env)
    requires Reliable(q, multiset{}) && LoopConservation.ProperHeld(q.held)
    ensures var r := Commit(q, result, env);
            !r.phase.InCrank? && (r.phase.Dead? || (Lost(r) <==> Lost(q) || LeakyHeld(q.(phase := Top), env.heldFault)))
  {
    hide WriteHeld, LeakyHeld, FailRunLoop, AnswerControl, Sound;
    var top := q.(phase := Top);
    LoopConservation.SameBalance(q, top, multiset{});
    WritingHeldLoses(top, env.heldFault);
    var written := WriteHeld(top, env.heldFault);
    AnsweringControlFrame(written.q);
    FailingFrame(AnswerControl(written.q));
  }

  lemma ClosingExplains(l: Losses, q: Q, result: CrankResult, env: Env)
    requires Reliable(q, multiset{}) && LoopConservation.ProperHeld(q.held) && (Lost(q) <==> HasCause(l.now))
    ensures Explained(AtClose(l, q, result, env), Close(q, result, env))
  {
    hide Closing, CrankFailed, Commit, FailRunLoop, LeakyHeld, LoopConservation.Balances, LoopConservation.ProperHeld, LostByReturning;
    ClosingStoreFrame(q, result, env);
    ClosingKeepsLost(q, result, env);
    LoopConservation.ClosingBalances(q, result, env);
    var closed := Closing(q, result, env).q;
    CrankFailingFrame(closed, env);
    FailingFrame(Uncommitted(closed));
    CommittingLoses(closed, result, env);
  }

  lemma AbortingExplains(l: Losses, q: Q, result: CrankResult, env: Env)
    requires Explained(l, q) && q.phase.InCrank? && !q.phase.stage.DeliveryThrew?
    ensures var back := if result.abort then AtAbort(l, q) else l;
            Lost(AbortStep(q, result, env).q) <==> HasCause(back.now)
  {
    hide AbortStep, RefsOfItems, PromisesOf;
    AbortingFrame(q, result, env);
    MoreLost(q.savedLost, RefsOfItems(q.saved.crankBuffer));
  }

  lemma FinishingExplains(l: Losses, q: Q, result: CrankResult, env: Env)
    requires Explained(l, q) && LoopConservation.Conserved(q) && LoopConservation.ProperHeld(q.held)
    requires q.phase.InCrank? && q.phase.stage.Delivered?
    ensures var aborted := AbortStep(q, result, env);
            var r := if aborted.threw then CrankFailed(aborted.q, env)
                     else if result.terminate then aborted.q.(phase := InCrank(q.phase.item, Terminating(result)))
                     else Close(aborted.q, result, env);
            Explained(AtFinish(l, q, result, env), r)
  {
    hide CrankFailed, AbortStep, Close, AtClose, LoopConservation.Balances, LoopConservation.ProperHeld, LoopConservation.SavedBalances;
    assert !q.torn && q.rollbackAllowed && InFlight(q) == multiset{};
    LoopConservation.AbortingConserves(q, result, env);
    AbortingExplains(l, q, result, env);
    AbortedSaves(q, result, env);
    var aborted := AbortStep(q, result, env).q;
    CrankFailingFrame(aborted, env);
    if !AbortStep(q, result, env).threw && !result.terminate {
      ClosingExplains(if result.abort then AtAbort(l, q) else l, aborted, result, env);
    }
  }

  lemma AbortedSaves(q: Q, result: CrankResult, env: Env)
    requires q.phase.InCrank?
    ensures AbortStep(q, result, env).q.savedLost == q.savedLost
  {
    hide AbortStep, LostByReturning, PromisesOf;
    AbortingFrame(q, result, env);
  }

  lemma EndingExplains(l: Losses, q: Q, end: DeliverEnd, env: Env)
    requires Explained(l, q) && LoopConservation.Conserved(q) && LoopConservation.ProperHeld(q.held) && MayFinish(q, end)
    ensures Explained(LossesAfter(l, q, EvFinish(end, env)), Finish(q, end, env))
  {
    hide Explained, CrankFailed, AbortStep, Close, AtFinish, LoopConservation.Conserved, LoopConservation.ProperHeld;
    if end.Returned? {
      FinishingExplains(l, q, ResultOf(q.phase.item, end.result), env);
    } else {
      CrankFailingFrame(q, env);
      DeadIsExplained(l, CrankFailed(q, env));
    }
  }

  lemma DeadIsExplained(l: Losses, q: Q)
    requires q.phase.Dead?
    ensures Explained(l, q)
  {
  }

  lemma TerminatingExplains(l: Losses, q: Q, env: Env)
    requires Explained(l, q) && LoopConservation.Conserved(q) && LoopConservation.ProperHeld(q.held)
    requires q.phase.InCrank? && q.phase.stage.Terminating?
    ensures Explained(AtClose(l, q.(rollbackAllowed := false), q.phase.stage.outcome, env), Terminated(q, env))
  {
    hide CrankFailed, Close, AtClose, LoopConservation.Balances, LoopConservation.ProperHeld, LoopConservation.SavedBalances;
    var recorded := q.(rollbackAllowed := false);
    LoopConservation.SameBalance(q, recorded, multiset{});
    CrankFailingFrame(recorded, env);
    ClosingExplains(l, recorded, q.phase.stage.outcome, env);
  }

  lemma SameExplains(l: Losses, q: Q, r: Q)
    requires Explained(l, q) && r.lost == q.lost && r.savedLost == q.savedLost && (r.phase == q.phase || (!q.phase.Dead? && !q.phase.InCrank? && !r.phase.InCrank?))
    ensures Explained(l, r)
  {
  }

  lemma OpsExplain(l: Losses, q: Q, ops: seq<Op>)
    requires Explained(l, q) && LoopConservation.Conserved(q)
    ensures Explained(Refusing(l, LeakyOps(q, ops)), OpSteps(q, ops).q)
  {
    hide OpSteps, LeakyOps, LoopConservation.Balances, LoopConservation.SavedBalances;
    OpsFrame(q, ops);
    if !q.phase.Dead? { OpsLose(q, ops, InFlight(q)); }
  }

  lemma WriteExplains(l: Losses, q: Q, caller: Caller, ops: seq<Op>)
    requires Explained(l, q) && LoopConservation.Conserved(q) && !Refused(q)
    ensures Explained(Refusing(l, !q.phase.InCrank? && LeakyOps(Issue(q, caller), ops)), Request(Issue(q, caller), HeldWrite(caller, ops)))
  {
    hide OpSteps, LeakyOps, Sound, LoopConservation.SavedBalances;
    var issued := Issue(q, caller);
    if !q.phase.InCrank? {
      OpsFrame(issued, ops);
      OpsLose(issued, ops, multiset{});
    }
  }

  lemma OtherRequestExplains(l: Losses, q: Q, h: HeldRequest)
    requires Explained(l, q) && !h.HeldWrite?
    ensures Explained(l, Request(q, h))
  {
    hide WriteRequest, Tell;
    if !q.phase.InCrank? {
      OtherWriteKeepsLost(q, h);
      if !h.HeldItem? { TellingFrame(WriteRequest(q, h).q, h.caller, WriteFailed); }
    }
  }

  lemma OtherWriteKeepsLost(q: Q, h: HeldRequest)
    requires !h.HeldWrite?
    ensures var r := WriteRequest(q, h).q; r.lost == q.lost && r.savedLost == q.savedLost && r.phase == q.phase
  {
    hide EnqueueSend, SomeMissing, InitPromise, StoreEffect, Tell;
    match h
    case HeldMessage(caller, target, methargs) =>
      TellingFrame(q, caller, ObjectDeleted);
      StoringFrame(q, EnqueueSend(InitPromise(q.db), target, KernelStore.Message(methargs, Some(|q.db.promises|)), true));
    case HeldItem(_) =>
  }

  /** What callers outside the loop do. */
  predicate OfCallers(e: Event) {
    !(e.EvStart? || e.EvBegin? || e.EvDeliver? || e.EvServed? || e.EvWipe? || e.EvFinish? || e.EvTerminated? || e.EvAfterCommit? || e.EvWake?)
  }

  lemma OutsideExplains(l: Losses, q: Q, e: Event)
    requires Explained(l, q) && LoopConservation.Conserved(q)
    requires OfCallers(e)
    ensures Explained(LossesAfter(l, q, e), Outside(q, e))
  {
    hide Explained, Request, OpSteps, LeakyOps, LoopConservation.Conserved, Kept;
    match e
    case EvMessage(caller, target, methargs) =>
      SameExplains(l, q, Issue(q, caller));
      OtherRequestExplains(l, Issue(q, caller), HeldMessage(caller, target, methargs));
    case EvWrite(caller, ops) => if !Refused(q) { WriteExplains(l, q, caller, ops); }
    case EvRequest(item) => OtherRequestExplains(l, q, HeldItem(item));
    case EvOps(ops) => OpsExplain(l, q, ops);
    case _ => QuietFrame(q, e); QuietLosses(q, Outside(q, e)); SameExplains(l, q, Outside(q, e));
  }

  lemma QuietLosses(q: Q, r: Q)
    requires Kept(q, r)
    ensures r.lost == q.lost && r.savedLost == q.savedLost && r.phase == q.phase
  {
  }

  lemma ReportingExplains(l: Losses, q: Q, throws: bool)
    requires Explained(l, q) && q.phase.AfterCommit?
    ensures Explained(l, Reported(q, throws))
  {
    hide FailRunLoop, AnswerControl;
    FailingFrame(q);
    AnsweringControlFrame(q);
    FailingFrame(AnswerControl(q));
  }

  lemma WipingExplains(l: Losses, q: Q)
    requires Explained(l, q) && InStage(q, false)
    ensures Explained(l.(now := Cause(false, false)), Wipe(q))
  {
    hide Wipe;
    WipingFrame(q);
  }

  lemma DeliveringExplains(l: Losses, q: Q, r: Q)
    requires Explained(l, q) && q.phase.InCrank? && !q.phase.stage.DeliveryThrew?
    requires r.phase.InCrank? && r.savedLost == q.savedLost && (r.phase.stage.DeliveryThrew? || r.lost == q.lost)
    ensures Explained(l, r)
  {
  }

  lemma StepExplains(l: Losses, q: Q, e: Event)
    requires Explained(l, q) && LoopConservation.Steady(q) && LoopCallers.CallersKept(q)
    ensures Explained(LossesAfter(l, q, e), Step(q, e))
  {
    hide Explained, LoopConservation.Conserved, LoopConservation.ProperHeld, Begin, DeliverStep, ServedStep, Finish, Terminated, Outside, Reported,
         Wipe, AtFinish, AtClose, LoopCallers.CallersKept, LeakyOps;
    match e
    case EvStart => if q.phase.Idle? { SameExplains(l, q, q.(phase := Top)); }
    case EvWake => if q.phase.Parked? { SameExplains(l, q, q.(phase := Top)); }
    case EvBegin(priority, endFault, heldFault) =>
      if q.phase.Top? {
        NothingHeld(q);
        BeginningExplains(l, q, priority, endFault, heldFault);
      }
    case EvDeliver(running) =>
      if InStage(q, true) { DeliveringFrame(q, running); DeliveringKeepsLost(q, running); DeliveringExplains(l, q, DeliverStep(q, running)); }
    case EvServed(failed) =>
      if InStage(q, false) { ServingFrame(q, failed); ServingKeepsLost(q, failed); DeliveringExplains(l, q, ServedStep(q, failed)); }
    case EvWipe => if InStage(q, false) { WipingExplains(l, q); }
    case EvFinish(end, env) => if MayFinish(q, end) { EndingExplains(l, q, end, env); }
    case EvTerminated(env) => if q.phase.InCrank? && q.phase.stage.Terminating? { TerminatingExplains(l, q, env); }
    case EvAfterCommit(throws) => if q.phase.AfterCommit? { ReportingExplains(l, q, throws); }
    case _ => OutsideExplains(l, q, e);
  }

  lemma NothingHeld(q: Q)
    requires LoopCallers.CallersKept(q) && q.phase.Top?
    ensures q.held == []
  {
  }

  // ------------------------------------------------------------------ every run

  lemma {:induction false} RunExplains(l: Losses, q: Q, events: seq<Event>)
    requires Explained(l, q) && LoopConservation.Steady(q) && LoopCallers.CallersKept(q)
    ensures Explained(LossesOver(l, q, events), Run(q, events))
    decreases |events|
  {
    hide Explained, LoopConservation.Steady, LoopCallers.CallersKept, Step, LossesAfter;
    if events != [] {
      StepExplains(l, q, events[0]);
      LoopConservation.StepConserves(q, events[0]);
      LoopCallers.StepKeepsCallers(q, events[0]);
      RunExplains(LossesAfter(l, q, events[0]), Step(q, events[0]), events[1..]);
    }
  }

  /** Over every run from a sound store, a loop that lives on has lost references exactly if there is a cause. */
  lemma EveryLossHasItsCause(db: Store, events: seq<Event>)
    requires Sound(db, multiset{})
    ensures LivesOn(Run(Init(db), events)) ==>
              (Lost(Run(Init(db), events)) <==> HasCause(LossesOver(NO_LOSSES, Init(db), events).now))
  {
    hide Run, Sound, LossesOver, LoopConservation.Steady, LoopCallers.Ledger;
    LoopConservation.InitIsSteady(db);
    LoopCallers.InitHasLedger(db);
    RunExplains(NO_LOSSES, Init(db), events);
  }

  lemma {:induction false} NothingIsDropped(l: Losses, q: Q, events: seq<Event>)
    requires LoopOutput.IsClean(q) && LoopOutput.NoneLate(q, events) && !l.now.dropped && !l.found.dropped
    ensures !LossesOver(l, q, events).now.dropped
    decreases |events|
  {
    hide LoopOutput.IsClean, Step, LossesAfter, LoopOutput.IsLate;
    if events != [] {
      NothingIsDroppedBy(l, q, events[0]);
      LoopOutput.StepIsClean(q, events[0]);
      NothingIsDropped(LossesAfter(l, q, events[0]), Step(q, events[0]), events[1..]);
    }
  }

  lemma NothingIsDroppedBy(l: Losses, q: Q, e: Event)
    requires LoopOutput.IsClean(q) && !l.now.dropped && !l.found.dropped
    ensures !LossesAfter(l, q, e).now.dropped && !LossesAfter(l, q, e).found.dropped
  {
    hide LeakyOps, LeakyHeld, Closing, AbortStep;
    if q.phase.InCrank? { assert RefsOfItems(q.saved.crankBuffer) == multiset{}; }
  }

  /**
   * Counts are holdings. Take any run from a sound store in which nothing is buffered while an aborted crank awaits
   * the end of its vat. In a live loop with no crank open, every reference's count is the number of times the kernel
   * holds it if and only if no send and no resolution was refused past its first reference, save one undone by its
   * own crank's abort.
   */
  lemma CountsAreHoldings(db: Store, events: seq<Event>)
    requires Sound(db, multiset{}) && db.crankBuffer == [] && LoopOutput.NoneLate(Init(db), events)
    ensures var q := Run(Init(db), events);
            !q.phase.Dead? && !q.phase.InCrank? ==>
              ((forall k :: Count(q.db, k) == Owed(q.db)[k]) <==> !LossesOver(NO_LOSSES, Init(db), events).now.refused)
  {
    hide Run, Sound, LossesOver, LoopOutput.NoneLate, Init, Owed, Count;
    EveryLossHasItsCause(db, events);
    LoopOutput.InitIsClean(db);
    NothingIsDropped(NO_LOSSES, Init(db), events);
    var q := Run(Init(db), events);
    forall k ensures !q.torn ==> Count(q.db, k) == Owed(q.db)[k] + InFlight(q)[k] + q.lost[k] {
      LoopConservation.EveryRunConserves(db, events, k);
    }
    LoopConservation.EveryRunConserves(db, events, KObject(0));
    if !q.phase.Dead? && !q.phase.InCrank? {
      if forall k :: Count(q.db, k) == Owed(q.db)[k] {
        forall k ensures q.lost[k] == 0 { assert Count(q.db, k) == Owed(q.db)[k]; }
      }
    }
  }
}
