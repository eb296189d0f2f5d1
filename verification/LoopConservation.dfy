/**
 * Reference conservation over every run of the loop, whatever the interleaving and whatever is delivered,
 * aborted or thrown: each reference's count is what the kernel holds of it and what it has lost, `lost` being
 * made up of exactly the references that a refused operation had charged already and of the output that a
 * rollback drops although an earlier crank charged for it.
 */
module LoopConservation {
  import opened Prelude
  import opened KernelStore
  import opened KernelAccounting
  import opened KernelRouting
  import opened KernelLoop
  import opened LoopFrames
  import LoopCallers

  /** The counts are what is held, what is in flight and what is lost, unless the database was torn from memory. */
  ghost predicate Balances(q: Q, inFlight: multiset<KRef>) {
    !q.torn ==> Sound(q.db, q.lost + inFlight)
  }

  /** The store as the open crank found it, which is what a rollback returns to. */
  ghost predicate SavedBalances(q: Q) {
    Sound(q.saved, q.savedLost)
  }

  /** A crank that may still be rolled back has not been. */
  predicate NotTwice(q: Q) {
    q.rollbacks <= if q.rollbackAllowed then 0 else 1
  }

  /**
   * No crank is rolled back twice. One that can no longer be has been aborted already, and only its vat's end
   * is awaited.
   */
  predicate RollbackKept(q: Q) {
    && q.rollbacks <= 1
    && (q.phase.InCrank? ==> NotTwice(q) && (!q.rollbackAllowed ==> q.phase.stage.Terminating? && q.phase.stage.outcome.abort))
  }

  ghost predicate Conserved(q: Q) {
    Balances(q, InFlight(q)) && (q.phase.InCrank? ==> SavedBalances(q)) && RollbackKept(q) && (q.torn ==> q.phase.Dead?)
  }

  // ------------------------------------------------------------------ what no operation touches

  /** A step that moves neither what was saved nor where the loop stands. */
  predicate SameStand(q: Q, r: Q) {
    && r.arrivals == q.arrivals && r.saved == q.saved && r.savedLost == q.savedLost && r.savedListed == q.savedListed
    && r.phase == q.phase && r.rollbackAllowed == q.rollbackAllowed && r.rollbacks == q.rollbacks && r.torn == q.torn
  }

  /** And holds no request back or forth. */
  predicate SameCrank(q: Q, r: Q) {
    SameStand(q, r) && r.held == q.held
  }

  lemma OperatedStands(q: Q, r: Q)
    requires Operated(q, r)
    ensures SameCrank(q, r)
  {
  }

  // ------------------------------------------------------------------ operations

  lemma StoringBalances(q: Q, o: Outcome, before: multiset<KRef>, after: multiset<KRef>)
    requires Balances(q, before)
    requires Sound(q.db, q.lost + before) ==> Sound(o.store, q.lost + if o.Threw? then before else after)
    ensures var e := StoreEffect(q, o);
            SameCrank(q, e.q) && Balances(e.q, if e.threw then before else after) && e.q.db == o.store && (e.threw <==> o.Threw?)
  {
    hide Sound;
  }

  /** An operation refused partway: what it charged is lost. */
  lemma ChargingBalances(q: Q, o: Outcome, unpaid: multiset<KRef>, f: multiset<KRef>)
    requires Balances(q, f)
    requires Sound(q.db, q.lost + f) ==> Sound(o.store, if o.Threw? then q.lost + f + unpaid else q.lost + f)
    ensures Balances(ChargingEffect(q, o, unpaid).q, f)
  {
    hide Sound;
    assert q.lost + f + unpaid == (q.lost + unpaid) + f;
  }

  lemma SettlingBalances(q: Q, r: Resolution, f: multiset<KRef>)
    requires Balances(q, f)
    ensures Balances(Settle(q, r), f)
  {
    hide Sound, Settle;
    SettlingFrame(q, r);
  }

  lemma ResolveStepBalances(q: Q, who: Agent, r: Resolution, immediate: bool, f: multiset<KRef>)
    requires Balances(q, f)
    ensures Balances(ResolveStep(q, who, r, immediate).q, f) && SameCrank(q, ResolveStep(q, who, r, immediate).q)
  {
    hide Sound, ResolveOne, ChargingEffect, Settle, UnpaidByResolution, FindSubscription, SameCrank;
    var o, unpaid := ResolveOne(q.db, who, r, immediate), UnpaidByResolution(q.db, who, r);
    ResolvingOneFrame(q, who, r, immediate);
    OperatedStands(q, ResolveStep(q, who, r, immediate).q);
    if Sound(q.db, q.lost + f) {
      ResolveOneConserves(q.db, who, r, immediate, q.lost + f);
      if o.Threw? { RefusedResolutionLeaks(q.db, who, r, immediate, q.lost + f); }
    }
    ChargingBalances(q, o, unpaid, f);
    SettlingBalances(ChargingEffect(q, o, unpaid).q, r, f);
  }

  lemma {:induction false} ResolvingBalances(q: Q, who: Agent, rs: seq<Resolution>, immediate: bool, f: multiset<KRef>)
    requires Balances(q, f)
    ensures Balances(ResolveSteps(q, who, rs, immediate).q, f) && SameCrank(q, ResolveSteps(q, who, rs, immediate).q)
    decreases |rs|
  {
    hide Balances, ResolveStep;
    if rs != [] {
      ResolveStepBalances(q, who, rs[0], immediate, f);
      ResolvingBalances(ResolveStep(q, who, rs[0], immediate).q, who, rs[1..], immediate, f);
    }
  }

  lemma SendingOpBalances(q: Q, target: KRef, m: KernelStore.Message, immediate: bool, f: multiset<KRef>)
    requires Balances(q, f)
    ensures Balances(SendOp(q, target, m, immediate).q, f)
  {
    hide Sound, EnqueueSend, ChargingEffect, Unpaid;
    var o := EnqueueSend(q.db, target, m, immediate);
    if Sound(q.db, q.lost + f) {
      EnqueueSendKeepsSound(q.db, target, m, immediate, q.lost + f);
      if o.Threw? { RefusedSendLeaks(q.db, target, m, immediate, q.lost + f); }
    }
    ChargingBalances(q, o, Unpaid(q.db, SendRefs(target, m)), f);
  }

  /** The operations that charge at most one reference change nothing when they are refused. */
  lemma OtherOpRefused(s: Store, op: Op, f: multiset<KRef>)
    requires Sound(s, f) && !op.OpSend? && !op.OpResolve?
    ensures Sound(ApplyOp(s, op).store, f)
  {
    hide Sound;
    if ApplyOp(s, op).Done? {
      ApplyOpKeepsSound(s, op, f);
    } else {
      match op
      case OpDrop(k) => if k in s.held { DropKeepsSound(s, k, f); }
      case _ =>
    }
  }

  lemma OpBalances(q: Q, op: Op, f: multiset<KRef>)
    requires Balances(q, f)
    ensures Balances(OpStep(q, op).q, f)
  {
    hide Sound, ResolveSteps, SendOp, ApplyOp, StoreEffect, Subscribe;
    match op
    case OpResolve(who, rs, immediate) => ResolvingBalances(q, who, rs, AtOnce(q, immediate), f);
    case OpSend(target, m, immediate) => SendingOpBalances(q, target, m, AtOnce(q, immediate), f);
    case OpSubscribe(endpoint, kpid, immediate) =>
      SubscribingIsApplying(q.db, endpoint, kpid, AtOnce(q, immediate));
      if Sound(q.db, q.lost + f) { OtherOpRefused(q.db, OpSubscribe(endpoint, kpid, AtOnce(q, immediate)), q.lost + f); }
      StoringBalances(q, Subscribe(q.db, endpoint, kpid, AtOnce(q, immediate)), f, f);
    case _ =>
      if Sound(q.db, q.lost + f) { OtherOpRefused(q.db, op, q.lost + f); }
      StoringBalances(q, ApplyOp(q.db, op), f, f);
  }

  lemma SubscribingIsApplying(s: Store, endpoint: EndpointId, kpid: nat, immediate: bool)
    ensures ApplyOp(s, OpSubscribe(endpoint, kpid, immediate)) == Subscribe(s, endpoint, kpid, immediate)
  {
  }

  /** Whatever operations are made, by anybody and whenever, each refused one loses exactly what it had charged. */
  lemma {:induction false} OpsBalance(q: Q, ops: seq<Op>, f: multiset<KRef>)
    requires Balances(q, f)
    ensures Balances(OpSteps(q, ops).q, f) && SameCrank(q, OpSteps(q, ops).q)
    decreases |ops|
  {
    hide Balances, OpStep, Operated;
    OpsFrame(q, ops);
    OperatedStands(q, OpSteps(q, ops).q);
    if ops != [] {
      OpBalances(q, ops[0], f);
      OpsBalance(OpStep(q, ops[0]).q, ops[1..], f);
    }
  }

  // ------------------------------------------------------------------ requests

  lemma RequestBalances(s: Store, item: Item, f: multiset<KRef>)
    requires IsRequest(item) && Sound(s, f)
    ensures Sound(Append(s, item, true), f)
  {
    OwedAppend(s, item, true);
    hide Owed;
    forall j: nat ensures Live(Append(s, item, true), j) <==> Live(s, j) {}
    RaiseTogether(s, Append(s, item, true), multiset{}, f);
  }

  predicate ProperRequest(h: HeldRequest) {
    h.HeldItem? ==> IsRequest(h.item)
  }

  /** A message all of whose references exist is never refused: its result is a new promise. */
  lemma FreshSendSucceeds(s: Store, target: KRef, methargs: CapData, f: multiset<KRef>)
    requires Sound(s, f) && !SomeMissing(s, target, methargs)
    ensures var o := EnqueueSend(InitPromise(s), target, KernelStore.Message(methargs, Some(|s.promises|)), true);
            o.Done? && Sound(o.store, f)
  {
    hide Sound;
    var m, t := KernelStore.Message(methargs, Some(|s.promises|)), InitPromise(s);
    InitPromiseKeepsSound(s, f);
    EnqueueSendKeepsSound(t, target, m, true, f);
    var refs, given := SendRefs(target, m), [target] + methargs.slots;
    forall i | 0 <= i < |refs| ensures refs[i] in t.counts {
      if i >= 2 { assert refs[i] == given[i - 1]; } else if i == 0 { assert refs[0] == given[0]; }
    }
  }

  lemma MessageBalances(q: Q, caller: Caller, target: KRef, methargs: CapData)
    requires Balances(q, multiset{})
    ensures var t := WriteMessage(q, caller, target, methargs).q; Balances(t, multiset{}) && SameCrank(q, t)
  {
    hide Sound, EnqueueSend, StoreEffect, InitPromise, Tell, SomeMissing;
    var o := EnqueueSend(InitPromise(q.db), target, KernelStore.Message(methargs, Some(|q.db.promises|)), true);
    TellingFrame(q, caller, ObjectDeleted);
    if !SomeMissing(q.db, target, methargs) {
      if Sound(q.db, q.lost + multiset{}) { FreshSendSucceeds(q.db, target, methargs, q.lost + multiset{}); }
      if !q.torn {
        StoringBalances(q, o, multiset{}, multiset{});
      } else {
        StoringFrame(q, o);
      }
    }
  }

  lemma WritingBalances(q: Q, h: HeldRequest)
    requires Balances(q, multiset{}) && ProperRequest(h)
    ensures var t := WriteRequest(q, h).q; Balances(t, multiset{}) && SameCrank(q, t)
  {
    hide Sound, OpSteps, WriteMessage;
    match h
    case HeldMessage(caller, target, methargs) => MessageBalances(q, caller, target, methargs);
    case HeldWrite(_, ops) => OpsBalance(q, ops, multiset{});
    case HeldItem(item) => if Sound(q.db, q.lost + multiset{}) { RequestBalances(q.db, item, q.lost + multiset{}); }
  }

  predicate ProperHeld(held: seq<HeldRequest>) {
    forall i | 0 <= i < |held| :: ProperRequest(held[i])
  }

  lemma {:induction false} WritingHeldBalances(q: Q, fault: Option<nat>)
    requires Balances(q, multiset{}) && ProperHeld(q.held)
    ensures var t := WriteHeld(q, fault).q; Balances(t, multiset{}) && SameStand(q, t) && ProperHeld(t.held)
    decreases |q.held|
  {
    hide Balances, WriteRequest;
    if q.held != [] && fault != Some(0) {
      WritingBalances(q, q.held[0]);
      var first := WriteRequest(q, q.held[0]);
      if !first.threw {
        var next := first.q.(held := q.held[1..]);
        SameBalance(first.q, next, multiset{});
        WritingHeldBalances(next, if fault.Some? && fault.value > 0 then Some(fault.value - 1) else None);
      }
    }
  }

  lemma SameBalance(q: Q, r: Q, f: multiset<KRef>)
    requires Balances(q, f) && r.db == q.db && r.lost == q.lost && r.torn == q.torn
    ensures Balances(r, f)
  {
  }

  // ------------------------------------------------------------------ delivering

  lemma RejectingBalances(q: Q, result: Option<nat>, error: CapData, refs: seq<KRef>)
    requires Balances(q, multiset(refs))
    ensures var e := RejectAndRelease(q, result, error, refs);
            SameCrank(q, e.q) && Balances(e.q, if e.threw then multiset(refs) else multiset{})
  {
    hide Sound, ResolveSteps, ReleaseAll, StoreEffect;
    if result.Some? && Live(q.db, result.value) {
      ResolvingBalances(q, Decider(q.db, result.value), [Resolution(result.value, true, error)], true, multiset(refs));
    }
    var rejected := RejectResultStep(q, result, error);
    ReleasingBalances(rejected.q, refs);
  }

  /** References in flight are released, each once. */
  lemma ReleasingBalances(q: Q, refs: seq<KRef>)
    requires Balances(q, multiset(refs))
    ensures var e := StoreEffect(q, ReleaseAll(q.db, refs));
            SameCrank(q, e.q) && Balances(e.q, if e.threw then multiset(refs) else multiset{})
  {
    hide Sound, ReleaseAll, StoreEffect;
    assert q.lost + multiset{} == q.lost;
    if Sound(q.db, q.lost + multiset(refs)) { ReleaseKeepsSound(q.db, refs, q.lost); }
    StoringBalances(q, ReleaseAll(q.db, refs), multiset(refs), multiset{});
  }

  lemma HandingBalances(q: Q, who: Agent, target: KRef, m: KernelStore.Message)
    requires Balances(q, RefsOfItem(Send(target, m)))
    ensures var e := StoreEffect(q, HandOver(q.db, who, m));
            && SameCrank(q, e.q)
            && Balances(e.q, if e.threw then RefsOfItem(Send(target, m)) else multiset([target] + m.methargs.slots))
  {
    var rest := multiset([target] + m.methargs.slots);
    assert q.lost + RefsOfItem(Send(target, m)) == (q.lost + rest) + multiset(ResultRef(m));
    hide Sound, HandOver, StoreEffect, RefsOfItem;
    if Sound(q.db, q.lost + RefsOfItem(Send(target, m))) { HandOverConserves(q.db, who, m, q.lost + rest); }
    StoringBalances(q, HandOver(q.db, who, m), RefsOfItem(Send(target, m)), rest);
  }

  lemma RequeueingBalances(q: Q, target: KRef, m: KernelStore.Message, kpid: nat)
    requires Balances(q, RefsOfItem(Send(target, m))) && RouteOf(q.db, target) == Requeue(kpid)
    ensures var e := StoreEffect(q, DeliverRequeue(q.db, target, m, kpid));
            SameCrank(q, e.q) && Balances(e.q, if e.threw then RefsOfItem(Send(target, m)) else multiset{})
  {
    hide Sound, DeliverRequeue, StoreEffect, RefsOfItem, RouteOf;
    assert q.lost + multiset{} == q.lost;
    if Sound(q.db, q.lost + RefsOfItem(Send(target, m))) {
      RequeueSucceeds(q.db, target, m, kpid, q.lost);
      RequeueConserves(q.db, target, m, kpid, q.lost);
    }
    StoringBalances(q, DeliverRequeue(q.db, target, m, kpid), RefsOfItem(Send(target, m)), multiset{});
  }

  /** What the step of a delivery leaves in flight: everything, if it threw, and else what the stage it reaches holds. */
  function LeftInFlight(q: Q, item: LoopItem, done: Effect, stage: Stage): multiset<KRef> {
    if done.threw then (if item.RunItem? then RefsOfItem(item.item) else multiset{})
    else if stage.Serving? then multiset(stage.refs)
    else multiset{}
  }

  lemma OtherOrder(target: KRef, m: KernelStore.Message)
    ensures multiset(ResultRef(m) + [target] + m.methargs.slots) == RefsOfItem(Send(target, m))
  {
  }

  lemma SendingBalances(q: Q, target: KRef, m: KernelStore.Message, running: set<EndpointId>)
    requires Balances(q, RefsOfItem(Send(target, m)))
    ensures var (e, stage) := SendStep(q, target, m, running);
            && SameCrank(q, e.q) && Balances(e.q, LeftInFlight(q, RunItem(Send(target, m)), e, stage))
            && !stage.Waiting? && !stage.Terminating?
  {
    hide Balances, RejectAndRelease, HandOver, DeliverRequeue, StoreEffect, RouteOf;
    SendRefsAreItemRefs(target, m);
    OtherOrder(target, m);
    hide RefsOfItem, SendRefs, ResultRef, SameCrank;
    match RouteOf(q.db, target)
    case UnknownPromise => OperatedStands(q, q);
    case Splat(error) => RejectingBalances(q, m.result, error, SendRefs(target, m));
    case Requeue(kpid) => RequeueingBalances(q, target, m, kpid);
    case ToAgent(who, _) =>
      RejectingBalances(q, m.result, KERNEL_ERROR, ResultRef(m) + [target] + m.methargs.slots);
      HandingBalances(q, who, target, m);
  }

  lemma NotifyingBalances(q: Q, endpoint: EndpointId, kpid: nat)
    requires Balances(q, RefsOfItem(Notify(endpoint, kpid)))
    ensures var e := NotifyStep(q, kpid);
            SameCrank(q, e.q) && Balances(e.q, if e.threw then RefsOfItem(Notify(endpoint, kpid)) else multiset{})
  {
    hide Sound, StoreEffect;
    assert q.lost + multiset{} == q.lost;
    if Sound(q.db, q.lost + RefsOfItem(Notify(endpoint, kpid))) { DecrementKeepsSound(q.db, KPromise(kpid), q.lost); }
    StoringBalances(q, Decrement(q.db, KPromise(kpid)), RefsOfItem(Notify(endpoint, kpid)), multiset{});
  }

  /** What one routing step leaves in flight is what the stage it reaches says. */
  lemma StartingBalances(q: Q, item: LoopItem, running: set<EndpointId>)
    requires Balances(q, if item.RunItem? then RefsOfItem(item.item) else multiset{})
    ensures var (e, stage) := StartEffect(q, item, running);
            && SameCrank(q, e.q) && Balances(e.q, LeftInFlight(q, item, e, stage))
            && !stage.Waiting? && !stage.Terminating? && (item.ControlItem? ==> stage == Serving([], Nobody, None, NoCall))
  {
    hide Balances, SendStep, NotifyStep, RefsOfItem;
    match item
    case RunItem(Send(target, m)) => SendingBalances(q, target, m, running);
    case RunItem(Notify(endpoint, kpid)) => NotifyingBalances(q, endpoint, kpid);
    case RunItem(i) => OtherItemsHoldNothing(i);
    case _ =>
  }

  lemma OtherItemsHoldNothing(item: Item)
    requires !item.Send? && !item.Notify?
    ensures RefsOfItem(item) == multiset{}
  {
  }

  lemma ReachingConserves(q: Q, done: Effect, stage: Stage)
    requires q.phase.InCrank? && SavedBalances(q) && RollbackKept(q) && q.rollbackAllowed && !q.torn && SameCrank(q, done.q)
    requires Balances(done.q, if done.threw then InFlight(q) else if stage.Serving? then multiset(stage.refs) else multiset{})
    requires !stage.Waiting? && !stage.Terminating?
    ensures Conserved(Reached(q, done, stage))
  {
    hide Sound;
    assert done.q.lost + InFlight(q) == (done.q.lost + InFlight(q)) + multiset{};
  }

  lemma DeliveringBalances(q: Q, running: set<EndpointId>)
    requires Conserved(q) && InStage(q, true)
    ensures Conserved(DeliverStep(q, running)) && DeliverStep(q, running).held == q.held
    ensures DeliverStep(q, running).phase.item == q.phase.item
    ensures q.phase.item.ControlItem? && DeliverStep(q, running).phase.stage.Serving? ==> DeliverStep(q, running).phase.stage.refs == []
  {
    hide Balances, StartEffect, RefsOfItem, SavedBalances;
    StartingBalances(q, q.phase.item, running);
    var (done, stage) := StartEffect(q, q.phase.item, running);
    ReachingConserves(q, done, stage);
  }

  lemma ServedBalances(q: Q, refs: seq<KRef>, who: Agent, result: Option<nat>, failed: bool)
    requires Balances(q, multiset(refs))
    ensures var e := ServedEffect(q, refs, who, result, failed);
            SameCrank(q, e.q) && Balances(e.q, if e.threw then multiset(refs) else multiset{})
  {
    hide Balances, ResolveSteps, ReleaseAll, StoreEffect;
    if failed && result.Some? && Live(q.db, result.value) {
      ResolvingBalances(q, who, [Resolution(result.value, true, KERNEL_ERROR)], true, multiset(refs));
    }
    var told := if failed then RejectIfPendingStep(q, who, result, KERNEL_ERROR) else Effect(q, false);
    ReleasingBalances(told.q, refs);
  }

  lemma ServingBalances(q: Q, failed: bool)
    requires Conserved(q) && InStage(q, false)
    ensures Conserved(ServedStep(q, failed)) && ServedStep(q, failed).held == q.held
    ensures ServedStep(q, failed).phase.item == q.phase.item && !ServedStep(q, failed).phase.stage.Serving?
  {
    hide Balances, ServedEffect, SavedBalances;
    var stage := q.phase.stage;
    ServedBalances(q, stage.refs, stage.who, stage.result, failed);
    ReachingConserves(q, ServedEffect(q, stage.refs, stage.who, stage.result, failed), Delivered);
  }

  // ------------------------------------------------------------------ closing a crank

  /** Dropping the buffer loses what its items hold. */
  lemma DroppingLoses(s: Store, f: multiset<KRef>)
    requires Sound(s, f)
    ensures Sound(s.(crankBuffer := []), f + RefsOfItems(s.crankBuffer))
  {
    var t := s.(crankBuffer := []);
    var items := RefsOfItems(s.crankBuffer);
    assert Owed(t) + items == Owed(s) by { hide RefsOfItems, RefsOfPromises; assert RefsOfItems([]) == multiset{} by { NoItemsHoldNothing(); } }
    hide Owed, RefsOfItems;
    forall j: nat ensures Live(t, j) <==> Live(s, j) {}
    MoveOutOfOwed(s, t, items, f);
  }

  lemma NoItemsHoldNothing()
    ensures RefsOfItems([]) == multiset{}
  {
  }

  lemma RollingBackBalances(q: Q)
    requires SavedBalances(q) && !q.torn
    ensures Balances(RollBack(q), multiset{}) && !RollBack(q).torn
  {
    hide Sound, RefsOfItems;
    DroppingLoses(q.saved, q.savedLost);
    assert LostByReturning(q) + multiset{} == LostByReturning(q);
  }

  lemma UncommittingBalances(q: Q)
    requires SavedBalances(q) && !q.torn
    ensures Balances(Uncommitted(q), multiset{})
  {
    hide Sound, RefsOfItems;
    DroppingLoses(q.saved, q.savedLost);
    assert LostByReturning(q) + multiset{} == LostByReturning(q);
  }

  lemma DyingConserves(q: Q)
    requires Balances(q, multiset{}) && q.rollbacks <= 1
    ensures Conserved(FailRunLoop(q)) && FailRunLoop(q).phase.Dead? && ProperHeld(FailRunLoop(q).held)
  {
    hide Sound, FailRunLoop;
    FailingFrame(q);
  }

  lemma CrankFailedConserves(q: Q, env: Env)
    requires SavedBalances(q) && !q.torn && (!q.rollbackAllowed ==> Balances(q, multiset{})) && NotTwice(q)
    ensures Conserved(CrankFailed(q, env)) && CrankFailed(q, env).phase.Dead? && ProperHeld(CrankFailed(q, env).held)
  {
    hide Sound, FailRunLoop, LostByReturning;
    RollingBackBalances(q);
    var undone := if q.rollbackAllowed then RollBack(q) else q;
    UncommittingBalances(undone);
    DyingConserves(if env.endFault then Uncommitted(undone) else undone);
  }

  lemma CollectingBalances(q: Q, env: Env)
    requires Balances(q, multiset{})
    ensures Balances(CollectStep(q, env).q, multiset{}) && SameCrank(q, CollectStep(q, env).q)
  {
    hide Sound, Collect, StoreEffect;
    if Sound(q.db, q.lost + multiset{}) { CollectConserves(q.db, env.candidates, q.lost + multiset{}); }
    StoringBalances(q, Collect(q.db, env.candidates), multiset{}, multiset{});
  }

  /** A flush that fails partway loses what it had not moved, and one that does not loses nothing. */
  lemma FlushedConserves(s: Store, fault: Option<nat>, f: multiset<KRef>)
    requires Sound(s, f)
    ensures Sound(Flushed(s, fault), f + LostByFlush(s, fault))
  {
    hide Sound;
    if fault.Some? && fault.value < |s.crankBuffer| {
      var moved, rest := s.crankBuffer[..fault.value], s.crankBuffer[fault.value..];
      assert s.crankBuffer == moved + rest;
      MovedConserves(s, moved, rest, f);
    } else {
      FlushConserves(s, f);
      assert f + multiset{} == f;
    }
  }

  lemma MovedConserves(s: Store, moved: seq<Item>, rest: seq<Item>, f: multiset<KRef>)
    requires Sound(s, f) && s.crankBuffer == moved + rest
    ensures Sound(s.(runQueue := s.runQueue + moved, crankBuffer := []), f + RefsOfItems(rest))
  {
    var t := s.(runQueue := s.runQueue + moved, crankBuffer := []);
    RefsOfItemsConcat(s.runQueue, moved);
    RefsOfItemsConcat(moved, rest);
    NoItemsHoldNothing();
    assert Owed(t) + RefsOfItems(rest) == Owed(s) by { hide RefsOfItems, RefsOfPromises; }
    hide Owed, RefsOfItems;
    forall j: nat ensures Live(t, j) <==> Live(s, j) {}
    MoveOutOfOwed(s, t, RefsOfItems(rest), f);
  }

  lemma FlushingBalances(q: Q, result: CrankResult, env: Env)
    requires Balances(q, multiset{})
    ensures var e := FlushAndAudit(q, result, env); SameCrank(q, e.q) && Balances(e.q, multiset{})
  {
    hide Sound, FlushAndAudit, Flushed, LostByFlush;
    AuditingFrame(q, result, env);
    assert q.lost + multiset{} == q.lost;
    if Sound(q.db, q.lost) { FlushedConserves(q.db, env.flushFault, q.lost); }
    assert (q.lost + LostByFlush(q.db, env.flushFault)) + multiset{} == q.lost + LostByFlush(q.db, env.flushFault);
  }

  lemma ResumingConserves(q: Q, heldFailed: bool)
    requires Balances(q, multiset{}) && q.rollbacks <= 1 && !q.torn
    ensures Conserved(Resume(q, heldFailed)) && !Resume(q, heldFailed).phase.InCrank?
    ensures Resume(q, heldFailed).held == q.held || Resume(q, heldFailed).held == []
  {
    hide Sound, FailRunLoop, AnswerControl;
    AnsweringControlFrame(q);
    FailingFrame(AnswerControl(q));
    DyingConserves(AnswerControl(q));
  }

  lemma CommittingConserves(q: Q, result: CrankResult, env: Env)
    requires Balances(q, multiset{}) && ProperHeld(q.held) && q.rollbacks <= 1 && !q.torn
    ensures Conserved(Commit(q, result, env)) && ProperHeld(Commit(q, result, env).held) && !Commit(q, result, env).phase.InCrank?
  {
    hide Sound, WriteHeld, Resume;
    WritingHeldBalances(q.(phase := Top), env.heldFault);
    var written := WriteHeld(q.(phase := Top), env.heldFault);
    ResumingConserves(written.q, written.threw);
  }

  lemma SavedThere(q: Q, r: Q)
    requires SavedBalances(q) && r.saved == q.saved && r.savedLost == q.savedLost
    ensures SavedBalances(r)
  {
  }

  lemma ClosingBalances(q: Q, result: CrankResult, env: Env)
    requires Balances(q, multiset{})
    ensures Balances(Closing(q, result, env).q, multiset{})
  {
    hide Sound, CollectStep, FlushAndAudit;
    var bound := q.(rollbackAllowed := q.rollbackAllowed && !result.irrevocable);
    SameBalance(q, bound, multiset{});
    CollectingBalances(bound, env);
    FlushingBalances(CollectStep(bound, env).q, result, env);
  }

  lemma ClosingConserves(q: Q, result: CrankResult, env: Env)
    requires Balances(q, multiset{}) && SavedBalances(q) && ProperHeld(q.held) && NotTwice(q) && !q.torn
    ensures Conserved(Close(q, result, env)) && ProperHeld(Close(q, result, env).held) && !Close(q, result, env).phase.InCrank?
  {
    hide Sound, CrankFailed, Closing, Commit, FailRunLoop, Balances, SavedBalances, Conserved, Uncommitted, ProperHeld;
    ClosingBalances(q, result, env);
    ClosingStoreFrame(q, result, env);
    var closed := Closing(q, result, env);
    SavedThere(q, closed.q);
    CrankFailedConserves(closed.q, env);
    UncommittingBalances(closed.q);
    UncommittingFrame(closed.q);
    DyingConserves(Uncommitted(closed.q));
    CommittingConserves(closed.q, result, env);
  }

  lemma UncommittingFrame(q: Q)
    ensures Uncommitted(q).rollbacks == q.rollbacks && Uncommitted(q).held == q.held
  {
  }

  lemma AbortingConserves(q: Q, result: CrankResult, env: Env)
    requires q.phase.InCrank? && Balances(q, multiset{}) && SavedBalances(q) && q.rollbackAllowed && q.rollbacks == 0 && !q.torn
    ensures var e := AbortStep(q, result, env);
            && NotTwice(e.q) && Balances(e.q, multiset{}) && SavedBalances(e.q) && !e.q.torn
            && e.q.rollbackAllowed == !result.abort && e.q.phase == q.phase && e.q.held == q.held
  {
    hide Sound, AbortStep, LostByReturning, PromisesOf;
    AbortingFrame(q, result, env);
    RollingBackBalances(q);
  }

  lemma FinishingConserves(q: Q, end: DeliverEnd, env: Env)
    requires Conserved(q) && MayFinish(q, end) && ProperHeld(q.held)
    ensures var r := Finish(q, end, env);
            Conserved(r) && ProperHeld(r.held) && (r.phase.InCrank? ==> !q.phase.item.ControlItem? && r.phase.item == q.phase.item)
  {
    hide Sound, CrankFailed, AbortStep, Close;
    if end.DeliverThrew? {
      CrankFailedConserves(q, env);
    } else {
      var result := ResultOf(q.phase.item, end.result);
      AbortingConserves(q, result, env);
      var aborted := AbortStep(q, result, env);
      CrankFailedConserves(aborted.q, env);
      ClosingConserves(aborted.q, result, env);
    }
  }

  lemma TerminatingConserves(q: Q, env: Env)
    requires Conserved(q) && q.phase.InCrank? && q.phase.stage.Terminating? && ProperHeld(q.held)
    ensures Conserved(Terminated(q, env)) && ProperHeld(Terminated(q, env).held) && !Terminated(q, env).phase.InCrank?
  {
    hide Sound, CrankFailed, Close;
    var recorded := q.(rollbackAllowed := false);
    CrankFailedConserves(recorded, env);
    ClosingConserves(recorded, q.phase.stage.outcome, env);
  }

  // ------------------------------------------------------------------ opening a crank, and everybody else

  lemma TakenStore(q: Q, priority: Priority)
    ensures var taken := GetNext(q, priority);
            && (taken.item.Some? && taken.item.value.RunItem? ==>
                  q.db.runQueue != [] && taken.q.db == Dequeue(q.db) && taken.item.value.item == q.db.runQueue[0])
            && (taken.item.None? || !taken.item.value.RunItem? ==> taken.q.db == q.db)
  {
    hide Dequeue;
  }

  lemma TakingConserves(q: Q, priority: Priority)
    requires Balances(q, multiset{})
    ensures var taken := GetNext(q, priority);
            && taken.q.saved == q.saved && taken.q.savedLost == q.savedLost && taken.q.torn == q.torn
            && taken.q.rollbackAllowed == q.rollbackAllowed && taken.q.rollbacks == q.rollbacks && taken.q.held == q.held
            && Balances(taken.q, if taken.item.Some? && taken.item.value.RunItem? then RefsOfItem(taken.item.value.item) else multiset{})
  {
    hide Sound, RefsOfItem, GetNext;
    TakingFrame(q, priority);
    TakenStore(q, priority);
    assert q.lost + multiset{} == q.lost;
    if q.db.runQueue != [] && Sound(q.db, q.lost) { DequeueConserves(q.db, q.lost); }
  }

  /** What opening a crank leaves: one just opened, or a loop that parked, ended or died. */
  ghost predicate Opened(q: Q) {
    Conserved(q) && ProperHeld(q.held) && (q.phase.InCrank? ==> q.phase.stage.Waiting?)
  }

  lemma ParkingConserves(q: Q, endFault: bool, heldFault: Option<nat>)
    requires Balances(q, multiset{}) && SavedBalances(q) && ProperHeld(q.held) && q.rollbacks == 0 && !q.torn
    ensures Opened(Park(q, endFault, heldFault))
  {
    hide Sound, FailRunLoop, WriteHeld, LostByReturning;
    var parked := q.(wakeSet := true, phase := Parked);
    RollingBackBalances(q);
    DyingConserves(RollBack(q));
    UncommittingBalances(parked);
    DyingConserves(Uncommitted(parked));
    WritingHeldBalances(parked, heldFault);
    DyingConserves(WriteHeld(parked, heldFault).q);
  }

  lemma BeforeBeginning(q: Q)
    requires Conserved(q) && q.phase.Top?
    ensures Balances(q, multiset{}) && SavedBalances(Savepoint(q)) && !q.torn
  {
    hide Sound;
    assert q.lost + multiset{} == q.lost;
  }

  lemma BeginningConserves(q: Q, priority: Priority, endFault: bool, heldFault: Option<nat>)
    requires Conserved(q) && q.phase.Top? && ProperHeld(q.held)
    ensures Opened(Begin(q, priority, endFault, heldFault))
  {
    hide Conserved, Opened, GetNext, Park, RefsOfItem, Sound;
    BeforeBeginning(q);
    var open := Savepoint(q);
    TakingConserves(open, priority);
    var taken := GetNext(open, priority);
    SavedThere(open, taken.q);
    if q.ending.EndAsked? && q.controls == [] {
      EndingConserves(q);
    } else if taken.item.None? {
      ParkingConserves(taken.q, endFault, heldFault);
    } else {
      OpeningConserves(taken.q, taken.item.value);
    }
  }

  lemma OpeningConserves(q: Q, item: LoopItem)
    requires Balances(q, if item.RunItem? then RefsOfItem(item.item) else multiset{})
    requires SavedBalances(q) && q.rollbackAllowed && q.rollbacks == 0 && ProperHeld(q.held) && !q.torn
    ensures Opened(q.(phase := InCrank(item, Waiting)))
  {
    hide Sound, RefsOfItem;
  }

  lemma EndingConserves(q: Q)
    requires Conserved(q) && q.phase.Top? && ProperHeld(q.held)
    ensures Opened(q.(phase := Ended, ending := EndAnswered))
  {
    hide Sound;
  }

  lemma RequestingConserves(q: Q, h: HeldRequest)
    requires Conserved(q) && ProperRequest(h) && ProperHeld(q.held)
    ensures Conserved(Request(q, h)) && ProperHeld(Request(q, h).held)
  {
    hide Sound, WriteRequest;
    if !q.phase.InCrank? {
      WritingBalances(q, h);
    }
  }

  lemma OpsConserve(q: Q, ops: seq<Op>)
    requires Conserved(q) && ProperHeld(q.held)
    ensures Conserved(OpSteps(q, ops).q) && ProperHeld(OpSteps(q, ops).q.held)
  {
    hide Balances, OpSteps;
    OpsBalance(q, ops, InFlight(q));
  }

  lemma OutsideConserves(q: Q, e: Event)
    requires Conserved(q) && ProperHeld(q.held)
    ensures Conserved(Outside(q, e)) && ProperHeld(Outside(q, e).held)
  {
    hide Conserved, ProperHeld, ProperRequest, IsRequest, Request, OpSteps;
    match e
    case EvMessage(caller, target, methargs) => IssuedRequestConserves(q, caller, HeldMessage(caller, target, methargs));
    case EvWrite(caller, ops) => IssuedRequestConserves(q, caller, HeldWrite(caller, ops));
    case EvRequest(item) => PlainRequestConserves(q, item);
    case EvOps(ops) => OpsConserve(q, ops);
    case _ => QuietConserves(q, e);
  }

  lemma IssuedRequestConserves(q: Q, caller: Caller, h: HeldRequest)
    requires Conserved(q) && ProperHeld(q.held) && !h.HeldItem?
    ensures Conserved(Request(Issue(q, caller), h)) && ProperHeld(Request(Issue(q, caller), h).held)
  {
    hide Sound, Request;
    SameConserves(q, Issue(q, caller));
    RequestingConserves(Issue(q, caller), h);
  }

  lemma PlainRequestConserves(q: Q, item: Item)
    requires Conserved(q) && ProperHeld(q.held)
    ensures IsRequest(item) ==> Conserved(Request(q, HeldItem(item))) && ProperHeld(Request(q, HeldItem(item)).held)
  {
    hide Conserved, Request;
    if IsRequest(item) { RequestingConserves(q, HeldItem(item)); }
  }

  /** What callers do that reaches no store. */
  lemma QuietConserves(q: Q, e: Event)
    requires Conserved(q) && ProperHeld(q.held) && Quiet(e)
    ensures Conserved(Outside(q, e)) && ProperHeld(Outside(q, e).held)
  {
    hide Conserved, ProperHeld, Outside;
    QuietFrame(q, e);
    SameConserves(q, Outside(q, e));
  }

  lemma SameConserves(q: Q, r: Q)
    requires Conserved(q) && ProperHeld(q.held) && SameStand(q, r.(arrivals := q.arrivals)) && r.db == q.db && r.lost == q.lost
    requires r.held == q.held || r.held == []
    ensures Conserved(r) && ProperHeld(r.held)
  {
    hide Sound;
  }

  /** A wiped store holds nothing, and has lost nothing. */
  lemma WipingConserves(q: Q)
    requires Conserved(q) && InStage(q, false) && q.phase.item.ControlItem? && q.phase.stage.refs == []
    ensures Conserved(Wipe(q)) && Wipe(q).held == [] && Wipe(q).phase == q.phase
  {
    hide Sound, Wipe, SavedBalances;
    WipingFrame(q);
    EmptyStoreIsSound();
    SavedThere(q, Wipe(q));
  }

  lemma EmptyStoreIsSound()
    ensures Sound(EMPTY_STORE, multiset{} + multiset([]))
  {
    assert Owed(EMPTY_STORE) == multiset{};
  }

  // ------------------------------------------------------------------ every run

  /** A control operation holds no reference: it has no queue item. */
  predicate ControlHoldsNothing(q: Q) {
    q.phase.InCrank? && q.phase.item.ControlItem? && q.phase.stage.Serving? ==> q.phase.stage.refs == []
  }

  ghost predicate Steady(q: Q) {
    Conserved(q) && ProperHeld(q.held) && ControlHoldsNothing(q)
  }

  /** Every step keeps every count equal to what is held, in flight and lost. */
  lemma StepConserves(q: Q, e: Event)
    requires Steady(q)
    ensures Steady(Step(q, e))
  {
    hide Conserved, ProperHeld, Begin, DeliverStep, ServedStep, Finish, Terminated, Wipe, Outside, Reported;
    match e
    case EvStart => StartedConserves(q);
    case EvWake => StartedConserves(q);
    case EvBegin(priority, endFault, heldFault) =>
      if q.phase.Top? { BeginningConserves(q, priority, endFault, heldFault); OpenedHoldsNothing(Begin(q, priority, endFault, heldFault)); }
    case EvDeliver(running) => if InStage(q, true) { DeliveringBalances(q, running); }
    case EvServed(failed) => if InStage(q, false) { ServingBalances(q, failed); }
    case EvWipe => if InStage(q, false) && q.phase.item.ControlItem? { WipingConserves(q); EmptyIsProper(); }
    case EvFinish(end, env) => if MayFinish(q, end) { FinishingConserves(q, end, env); }
    case EvTerminated(env) => if q.phase.InCrank? && q.phase.stage.Terminating? { TerminatingConserves(q, env); }
    case EvAfterCommit(throws) => if q.phase.AfterCommit? { ReportingConserves(q, throws); }
    case _ =>
      OutsideConserves(q, e);
      LoopCallers.OutsideStage(q, e);
  }

  lemma OpenedHoldsNothing(q: Q)
    requires Opened(q)
    ensures ControlHoldsNothing(q)
  {
  }

  lemma EmptyIsProper()
    ensures ProperHeld([])
  {
  }

  lemma StartedConserves(q: Q)
    requires Conserved(q)
    ensures (q.phase.Idle? || q.phase.Parked?) ==> Conserved(q.(phase := Top))
  {
    hide Sound;
  }

  lemma ReportingConserves(q: Q, throws: bool)
    requires Conserved(q) && q.phase.AfterCommit? && ProperHeld(q.held)
    ensures Steady(Reported(q, throws))
  {
    hide Sound, FailRunLoop, Resume;
    DyingConserves(q);
    ResumingConserves(q, q.phase.heldFailed);
  }

  lemma {:induction false} RunConserves(q: Q, events: seq<Event>)
    requires Steady(q)
    ensures Steady(Run(q, events))
    decreases |events|
  {
    hide Steady, Step;
    if events != [] {
      StepConserves(q, events[0]);
      RunConserves(Step(q, events[0]), events[1..]);
    }
  }

  lemma InitIsSteady(db: Store)
    requires Sound(db, multiset{})
    ensures Steady(Init(db))
  {
    var none: multiset<KRef> := multiset{};
    assert none + none == none;
  }

  lemma SteadyMeans(q: Q, k: KRef)
    requires Steady(q)
    ensures !q.torn ==> Count(q.db, k) == Owed(q.db)[k] + InFlight(q)[k] + q.lost[k]
    ensures q.torn ==> q.phase.Dead?
  {
  }

  /**
   * Reference conservation, over every run from a sound store, whatever is delivered, aborted, terminated or
   * thrown and whoever enters in between: the count of each reference is the number of times the kernel
   * holds it, in its queues and buffer, in its promises or for the item being delivered, and the number of
   * times it has been lost. Only a loop that died of a refused commit with output in memory is left out.
   */
  lemma EveryRunConserves(db: Store, events: seq<Event>, k: KRef)
    requires Sound(db, multiset{})
    ensures var q := Run(Init(db), events);
            && (!q.torn ==> Count(q.db, k) == Owed(q.db)[k] + InFlight(q)[k] + q.lost[k])
            && (q.torn ==> q.phase.Dead?)
  {
    hide Run, Sound, Owed, InFlight, Count, Steady, Init;
    InitIsSteady(db);
    RunConserves(Init(db), events);
    SteadyMeans(Run(Init(db), events), k);
  }
}
