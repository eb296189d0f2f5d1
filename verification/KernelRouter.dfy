/**
 * The router as the object it is (packages/ocap-kernel/src/KernelRouter.ts): it routes the crank's item,
 * changes deciders and reference counts in the queue's store step by step, and hands messages to endpoints.
 * An endpoint's part of a delivery is whatever operations it makes on the queue before `Served`.
 */
module Router {
  import opened Prelude
  import opened KernelStore
  import opened KernelAccounting
  import opened KernelRouting
  import opened KernelLoop
  import opened LoopFrames
  import opened RunQueue

  /** What its methods do step by step is there for `Perform`: any event, taken in place, is one step of the loop. */
  class KernelRouter {
    const queue: KernelQueue

    constructor (queue: KernelQueue)
      ensures this.queue == queue
    {
      this.queue := queue;
    }

    /** Release references one by one, stopping at the first the store refuses. */
    method Release(refs: seq<KRef>) returns (threw: bool)
      modifies queue
      ensures var e := StoreEffect(old(queue.View()), ReleaseAll(old(queue.db), refs)); queue.View() == e.q && threw == e.threw
    {
      hide ReleaseAll;
      ReleaseAllKeepsRows(queue.db, refs);
      threw := queue.ReleaseEach(refs);
    }

    /** Reject a message's result on behalf of whoever is to decide it now. */
    method RejectResult(result: Option<nat>, error: CapData) returns (threw: bool)
      modifies queue
      ensures var e := RejectResultStep(old(queue.View()), result, error); queue.View() == e.q && threw == e.threw
    {
      hide ResolveSteps;
      threw := false;
      if result.None? { return; }
      var kpid := result.value;
      if kpid >= |queue.db.promises| || queue.db.promises[kpid].state.Deleted? { return true; }
      var state := queue.db.promises[kpid].state;
      threw := queue.ResolvePromises(if state.Unresolved? then state.decider else Nobody, [Resolution(kpid, true, error)], true);
    }

    /** A failed delivery may have settled its result first, which is left alone then. */
    method RejectResultIfPending(who: Agent, result: Option<nat>, error: CapData) returns (threw: bool)
      modifies queue
      ensures var e := RejectIfPendingStep(old(queue.View()), who, result, error); queue.View() == e.q && threw == e.threw
    {
      hide ResolveSteps;
      threw := false;
      if result.None? { return; }
      var kpid := result.value;
      if kpid >= |queue.db.promises| || queue.db.promises[kpid].state.Deleted? { return true; }
      if queue.db.promises[kpid].state.Unresolved? {
        threw := queue.ResolvePromises(who, [Resolution(kpid, true, error)], true);
      }
    }

    /** A message that reaches nobody: its result is rejected, and what it held is released. */
    method Splat(result: Option<nat>, error: CapData, refs: seq<KRef>) returns (threw: bool)
      modifies queue
      ensures var e := RejectAndRelease(old(queue.View()), result, error, refs); queue.View() == e.q && threw == e.threw
    {
      hide RejectResultStep, StoreEffect;
      threw := RejectResult(result, error);
      if !threw { threw := Release(refs); }
    }

    /** Where a message goes: nowhere, to an object's owner, or onto a promise's queue. */
    method RouteMessage(target: KRef) returns (route: Route)
      ensures route == RouteOf(queue.db, target)
    {
      match target
      case KObject(id) => route := RouteAsSendTo(id);
      case KPromise(id) =>
        if id >= |queue.db.promises| { return UnknownPromise; }
        match queue.db.promises[id].state {
          case Deleted => route := UnknownPromise;
          case Unresolved(_, _) => route := Requeue(id);
          case Settled(rejected, value) =>
            if rejected { return Route.Splat(value); }
            if !value.bare || value.slots == [] { return Route.Splat(KERNEL_ERROR); }
            match value.slots[0] {
              case KPromise(onto) => route := Requeue(onto);
              case KObject(final) => route := RouteAsSendTo(final);
            }
        }
    }

    method RouteAsSendTo(id: nat) returns (route: Route)
      ensures route == RouteAsSend(queue.db, id)
    {
      if id >= |queue.db.objects| || queue.db.objects[id].revoked { return Route.Splat(KERNEL_ERROR); }
      var owner := queue.db.objects[id].owner;
      route := if owner.Nobody? then Route.Splat(KERNEL_ERROR) else ToAgent(owner, KObject(id));
    }

    /** Make the receiver the result's decider, and give up the queued reference to the result. */
    method HandResultOver(who: Agent, m: KernelStore.Message) returns (threw: bool)
      modifies queue
      ensures var e := StoreEffect(old(queue.View()), HandOver(old(queue.db), who, m)); queue.View() == e.q && threw == e.threw
    {
      hide ReleaseAll;
      threw := false;
      if m.result.None? { return; }
      ReleaseAllKeepsRows(SetDecider(queue.db, m.result.value, who), ResultRef(m));
      queue.db := SetDecider(queue.db, m.result.value, who);
      threw := queue.ReleaseEach(ResultRef(m));
    }

    /** Move a message's references to the promise's queue entry, new holder first. */
    method RequeueMessage(target: KRef, m: KernelStore.Message, kpid: nat) returns (threw: bool)
      modifies queue
      ensures var e := StoreEffect(old(queue.View()), DeliverRequeue(old(queue.db), target, m, kpid)); queue.View() == e.q && threw == e.threw
    {
      hide ReleaseAll, ChargeAll;
      ChargeAllRaises(queue.db, SendRefs(KPromise(kpid), m));
      var queued := EnqueuePromiseMessage(queue.db, kpid, m);
      queue.db, threw := queued.store, queued.Threw?;
      if !threw {
        ReleaseAllKeepsRows(queued.store, SendRefs(target, m));
        threw := queue.ReleaseEach(SendRefs(target, m));
      }
    }

    /** Deliver a send as far as its endpoint. */
    method DeliverSend(target: KRef, m: KernelStore.Message, running: set<EndpointId>) returns (threw: bool, stage: Stage)
      modifies queue
      ensures var (e, s) := SendStep(old(queue.View()), target, m, running); queue.View() == e.q && threw == e.threw && stage == s
    {
      hide RejectAndRelease, StoreEffect, HandOver, DeliverRequeue, RouteOf;
      var route := RouteMessage(target);
      match route
      case UnknownPromise => threw, stage := true, DeliveryThrew;
      case Splat(error) =>
        threw := Splat(m.result, error, SendRefs(target, m));
        stage := Delivered;
      case Requeue(kpid) =>
        threw := RequeueMessage(target, m, kpid);
        stage := Delivered;
      case ToAgent(who, final) =>
        if who.Endpoint? && who.id !in running {
          threw := Splat(m.result, KERNEL_ERROR, ResultRef(m) + [target] + m.methargs.slots);
          stage := Delivered;
        } else {
          threw := HandResultOver(who, m);
          stage := Serving([target] + m.methargs.slots, who, m.result, MessageCall(final, m));
        }
    }

    /** Release a notify's reference up front, so that having nobody to tell does not leak it. */
    method DeliverNotify(kpid: nat) returns (threw: bool)
      modifies queue
      ensures var e := NotifyStep(old(queue.View()), kpid); queue.View() == e.q && threw == e.threw
    {
      hide StoreEffect;
      if kpid >= |queue.db.promises| || !queue.db.promises[kpid].state.Settled? { return true; }
      threw := queue.Adopt(Decrement(queue.db, KPromise(kpid)));
    }

    /** Start delivering the open crank's item. */
    method Deliver(running: set<EndpointId>)
      requires queue.phase.InCrank?
      modifies queue
      ensures queue.View() == DeliverStep(old(queue.View()), running)
    {
      hide SendStep, NotifyStep;
      var item := queue.phase.item;
      ghost var q := queue.View();
      StartingFrame(q, item, running);
      var threw, stage := false, Serving([], Nobody, None, NoCall);
      match item {
        case RunItem(Send(target, m)) => threw, stage := DeliverSend(target, m, running);
        case RunItem(Notify(endpoint, kpid)) =>
          threw := DeliverNotify(kpid);
          stage := Serving([], Endpoint(endpoint), None, NotifyCall(kpid));
        case _ =>
      }
      Reach(q, threw, stage);
    }

    /** The stage a step of the delivery reaches; `before` is how things stood ahead of it. */
    method Reach(ghost before: Q, threw: bool, stage: Stage)
      requires before.phase.InCrank? && queue.phase == before.phase
      modifies queue
      ensures queue.View() == Reached(before, Effect(old(queue.View()), threw), stage)
    {
      if threw { queue.past := queue.past.(lost := queue.past.lost + InFlight(before)); }
      queue.phase := InCrank(queue.phase.item, if threw then DeliveryThrew else stage);
    }

    /** The endpoint has answered, or failed. */
    method Served(failed: bool)
      requires queue.phase.InCrank? && queue.phase.stage.Serving?
      modifies queue
      ensures queue.View() == ServedStep(old(queue.View()), failed)
    {
      hide RejectIfPendingStep, StoreEffect, Reached;
      ghost var q := queue.View();
      var stage := queue.phase.stage;
      ServedFrame(q, stage.refs, stage.who, stage.result, failed);
      var threw := false;
      if failed { threw := RejectResultIfPending(stage.who, stage.result, KERNEL_ERROR); }
      if !threw { threw := Release(stage.refs); }
      Reach(q, threw, Delivered);
    }

    /** A step of the delivery in the open crank. */
    method PerformDelivery(e: Event)
      requires e.EvDeliver? || e.EvServed? || e.EvWipe?
      modifies queue
      ensures queue.View() == Step(old(queue.View()), e)
    {
      hide DeliverStep, ServedStep, Wipe;
      if !queue.phase.InCrank? { return; }
      var stage := queue.phase.stage;
      match e
      case EvDeliver(running) => if stage.Waiting? { Deliver(running); }
      case EvServed(failed) => if stage.Serving? { Served(failed); }
      case EvWipe => if stage.Serving? && queue.phase.item.ControlItem? { queue.WipeStore(); }
    }

    method FinishIfDue(end: DeliverEnd, env: Env)
      modifies queue
      ensures queue.View() == Step(old(queue.View()), EvFinish(end, env))
    {
      hide Finish;
      if queue.phase.InCrank? && !queue.phase.stage.Terminating? && (queue.phase.stage.Delivered? || end.DeliverThrew?) {
        queue.FinishDelivery(end, env);
      }
    }

    /** A step that ends a delivery, or its crank. */
    method PerformEnding(e: Event)
      requires e.EvFinish? || e.EvTerminated? || e.EvAfterCommit?
      modifies queue
      ensures queue.View() == Step(old(queue.View()), e)
    {
      hide Finish, Terminated, Reported;
      match e
      case EvFinish(end, env) => FinishIfDue(end, env);
      case EvTerminated(env) => if queue.phase.InCrank? && queue.phase.stage.Terminating? { queue.VatTerminated(env); }
      case EvAfterCommit(throws) => if queue.phase.AfterCommit? { queue.AfterCommitEnded(throws); }
    }

    /** A step of the loop between cranks. */
    method PerformOpening(e: Event)
      requires e.EvStart? || e.EvBegin? || e.EvWake?
      modifies queue
      ensures queue.View() == Step(old(queue.View()), e)
    {
      hide Begin;
      match e
      case EvStart => if queue.phase.Idle? { queue.GoToTop(); }
      case EvBegin(priority, endFault, heldFault) => if queue.phase.Top? { queue.BeginCrank(priority, endFault, heldFault); }
      case EvWake => if queue.phase.Parked? && !queue.wakeSet { queue.GoToTop(); }
    }

    /**
     * Every step of the run loop, and every call from outside it, is one of these methods, made whenever the
     * loop's stage allows it: so what is proved of all runs of the steps is so of the object's calls.
     */
    method Perform(e: Event)
      modifies queue
      ensures queue.View() == Step(old(queue.View()), e)
    {
      hide Step, Outside;
      if e.EvDeliver? || e.EvServed? || e.EvWipe? {
        PerformDelivery(e);
      } else if e.EvFinish? || e.EvTerminated? || e.EvAfterCommit? {
        PerformEnding(e);
      } else if e.EvStart? || e.EvBegin? || e.EvWake? {
        PerformOpening(e);
      } else {
        OthersAreOutside(queue.View(), e);
        queue.CallIn(e);
      }
    }
  }

  lemma OthersAreOutside(q: Q, e: Event)
    requires !e.EvDeliver? && !e.EvServed? && !e.EvWipe? && !e.EvFinish? && !e.EvTerminated? && !e.EvAfterCommit?
    requires !e.EvStart? && !e.EvBegin? && !e.EvWake?
    ensures Step(q, e) == Outside(q, e)
  {
    hide Outside;
  }
}
