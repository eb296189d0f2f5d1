/**
 * Where a message goes, and what becomes of its result (packages/ocap-kernel/src/KernelRouter.ts:211-451), read off
 * the rows of the store a delivery finds.
 */
module LoopDeliveries {
  import opened Prelude
  import opened KernelStore
  import opened KernelAccounting
  import opened KernelRouting
  import opened KernelLoop
  import opened LoopFrames
  import LoopConservation
  import LoopTelling

  // ------------------------------------------------------------------ what the rows say

  /** The promise has yet to be settled, and `who` is to settle it. */
  predicate PendingWith(s: Store, kpid: nat, who: Agent) {
    kpid < |s.promises| && s.promises[kpid].state.Unresolved? && s.promises[kpid].state.decider == who
  }

  predicate Pending(s: Store, kpid: nat) {
    kpid < |s.promises| && s.promises[kpid].state.Unresolved?
  }

  predicate SettledAs(s: Store, kpid: nat, rejected: bool, value: CapData) {
    kpid < |s.promises| && s.promises[kpid].state == Settled(rejected, value)
  }

  /** The target is the object, or a promise fulfilled with a bare reference to it. */
  predicate LeadsTo(s: Store, target: KRef, k: KRef) {
    match target
    case KObject(_) => k == target
    case KPromise(id) =>
      && id < |s.promises| && s.promises[id].state.Settled? && !s.promises[id].state.rejected
      && s.promises[id].state.value.bare && s.promises[id].state.value.slots != [] && s.promises[id].state.value.slots[0] == k
  }

  /** `who` owns the object, and can be called. */
  predicate Answers(s: Store, id: nat, who: Agent, running: set<EndpointId>) {
    && id < |s.objects| && !s.objects[id].revoked && s.objects[id].owner == who
    && match who
       case Nobody => false
       case TheKernel => true
       case Endpoint(e) => e in running
  }

  /** A crank whose item is the send, about to be delivered. */
  ghost predicate Sends(q: Q, target: KRef, m: KernelStore.Message) {
    LoopConservation.Conserved(q) && InStage(q, true) && q.phase.item == RunItem(Send(target, m))
  }

  /** A result, if one is asked for, that can still be settled. */
  predicate ResultOpen(s: Store, m: KernelStore.Message) {
    m.result.Some? ==> Pending(s, m.result.value)
  }

  // ------------------------------------------------------------------ what the router makes of them

  lemma RoutesToOwner(s: Store, target: KRef, id: nat, who: Agent, running: set<EndpointId>)
    requires LeadsTo(s, target, KObject(id)) && Answers(s, id, who, running)
    ensures RouteOf(s, target) == ToAgent(who, KObject(id)) && (who.Endpoint? ==> who.id in running)
  {
  }

  lemma RoutesNowhere(s: Store, target: KRef, id: nat, running: set<EndpointId>)
    requires LeadsTo(s, target, KObject(id)) && NobodyAnswers(s, id, running)
    ensures RouteOf(s, target) == Splat(NO_SLOTS)
            || (RouteOf(s, target).ToAgent? && RouteOf(s, target).agent.Endpoint? && RouteOf(s, target).agent.id !in running)
  {
    if id < |s.objects| { assert !Answers(s, id, s.objects[id].owner, running); }
  }

  lemma SentSoundly(q: Q, target: KRef, m: KernelStore.Message)
    requires Sends(q, target, m)
    ensures Sound(q.db, q.lost + RefsOfItem(Send(target, m))) && !q.torn
  {
    hide Sound;
  }

  /** A result handed over is its receiver's to settle; nothing else about any promise changes. */
  lemma HandingOver(s: Store, who: Agent, m: KernelStore.Message, f: multiset<KRef>)
    requires Sound(s, f + multiset(ResultRef(m))) && ResultOpen(s, m)
    ensures var o := HandOver(s, who, m);
            && o.Done?
            && o.store == s.(promises := o.store.promises, counts := o.store.counts)
            && o.store.promises == (if m.result.None? then s.promises
                                    else s.promises[m.result.value := s.promises[m.result.value].(state := s.promises[m.result.value].state.(decider := who))])
  {
    hide Sound;
    HandOverConserves(s, who, m, f);
    if m.result.Some? { ReleaseAllKeepsRows(SetDecider(s, m.result.value, who), ResultRef(m)); }
  }

  /** Rejecting a pending result with an error whose slots exist settles it so, and releases what the message held. */
  lemma Rejecting(q: Q, m: KernelStore.Message, error: CapData, refs: seq<KRef>)
    requires LoopConservation.Balances(q, multiset(refs)) && !q.torn && ResultOpen(q.db, m)
    requires m.result.Some? ==> AllExist(q.db, error.slots)
    ensures var e := RejectAndRelease(q, m.result, error, refs);
            && !e.threw && e.q.phase == q.phase
            && |e.q.db.promises| == |q.db.promises|
            && (m.result.Some? ==> SettledAs(e.q.db, m.result.value, true, error))
            && forall id | 0 <= id < |q.db.promises| && m.result != Some(id) :: e.q.db.promises[id] == q.db.promises[id]
  {
    hide Sound, ResolveSteps, ReleaseAll, StoreEffect;
    var rejected := RejectResultStep(q, m.result, error);
    if m.result.Some? { RejectingOne(q, m.result.value, error, multiset(refs)); }
    LoopConservation.ReleasingBalances(rejected.q, refs);
    ReleasingEverything(rejected.q, refs);
    RejectingFrame(q, m.result, error, refs);
  }

  lemma ReleasingEverything(q: Q, refs: seq<KRef>)
    requires LoopConservation.Balances(q, multiset(refs)) && !q.torn
    ensures var e := StoreEffect(q, ReleaseAll(q.db, refs)); !e.threw && e.q.db.promises == q.db.promises
  {
    hide Sound, ReleaseAll;
    ReleaseKeepsSound(q.db, refs, q.lost);
  }

  lemma RejectingOne(q: Q, kpid: nat, error: CapData, f: multiset<KRef>)
    requires LoopConservation.Balances(q, f) && !q.torn && Pending(q.db, kpid) && AllExist(q.db, error.slots)
    ensures var e := RejectResultStep(q, Some(kpid), error);
            && !e.threw && !e.q.torn && LoopConservation.Balances(e.q, f)
            && e.q.db.promises == q.db.promises[kpid := PromiseRow(Settled(true, error), [])]
  {
    hide Sound, ResolveStep, SameButCounts;
    var who, r := q.db.promises[kpid].state.decider, Resolution(kpid, true, error);
    OneResolution(q, who, r, true);
    LoopConservation.ResolveStepBalances(q, who, r, true, f);
    ResolvingOneFrame(q, who, r, true);
    ResolveOneConserves(q.db, who, r, true, q.lost + f);
    ResolvedRow(q.db, r, true, ResolveOne(q.db, who, r, true).store);
  }

  lemma OneResolution(q: Q, who: Agent, r: Resolution, immediate: bool)
    ensures ResolveSteps(q, who, [r], immediate) == ResolveStep(q, who, r, immediate)
  {
    hide ResolveStep;
    assert [r][1..] == [];
    var first := ResolveStep(q, who, r, immediate);
    assert ResolveSteps(first.q, who, [], immediate) == Effect(first.q, false);
  }

  lemma ResolvedRow(s: Store, r: Resolution, immediate: bool, t: Store)
    requires r.kpid < |s.promises| && s.promises[r.kpid].state.Unresolved? && ResolvedInto(s, r, immediate, t)
    ensures t.promises == s.promises[r.kpid := PromiseRow(Settled(r.rejected, r.value), [])]
  {
  }

  // ------------------------------------------------------------------ deliveries

  /** What the step must have come to for the message to be rejected: its crank served, its result so, and no other row touched. */
  predicate RejectedWith(q: Q, r: Q, m: KernelStore.Message, error: CapData) {
    && r.phase.InCrank? && r.phase.stage == Delivered
    && |r.db.promises| == |q.db.promises|
    && (m.result.Some? ==> SettledAs(r.db, m.result.value, true, error))
    && forall id | 0 <= id < |q.db.promises| && m.result != Some(id) :: r.db.promises[id] == q.db.promises[id]
  }

  /** The refusal carries no reference: a kernel error has no slots. */
  const NO_SLOTS := CapData(false, [])

  /**
   * A message for an object, sent to it or to a promise fulfilled with it, reaches whoever owns the object, with the
   * object as its target; a pending result is the owner's to settle from then on, and no promise changes otherwise.
   */
  lemma OwnerIsCalled(q: Q, target: KRef, m: KernelStore.Message, running: set<EndpointId>, id: nat, who: Agent)
    requires Sends(q, target, m) && ResultOpen(q.db, m)
    requires LeadsTo(q.db, target, KObject(id)) && Answers(q.db, id, who, running)
    ensures var r := Step(q, EvDeliver(running));
            && r.phase == InCrank(q.phase.item, Serving([target] + m.methargs.slots, who, m.result, MessageCall(KObject(id), m)))
            && (m.result.Some? ==> PendingWith(r.db, m.result.value, who))
            && |r.db.promises| == |q.db.promises| && r.db.objects == q.db.objects && r.db.runQueue == q.db.runQueue && r.told == q.told
            && forall k | 0 <= k < |q.db.promises| && m.result != Some(k) :: r.db.promises[k] == q.db.promises[k]
  {
    hide Sound, HandOver, RouteOf, LeadsTo, Answers, LoopConservation.Conserved, RefsOfItem;
    RoutesToOwner(q.db, target, id, who, running);
    HandedTo(q, target, m, who);
    var handed := StoreEffect(q, HandOver(q.db, who, m));
    assert Step(q, EvDeliver(running)) == Reached(q, handed, Serving([target] + m.methargs.slots, who, m.result, MessageCall(KObject(id), m)));
  }

  lemma HandedTo(q: Q, target: KRef, m: KernelStore.Message, who: Agent)
    requires Sends(q, target, m) && ResultOpen(q.db, m)
    ensures var e := StoreEffect(q, HandOver(q.db, who, m));
            && !e.threw && (m.result.Some? ==> PendingWith(e.q.db, m.result.value, who))
            && |e.q.db.promises| == |q.db.promises| && e.q.db.objects == q.db.objects && e.q.db.runQueue == q.db.runQueue && e.q.told == q.told
            && forall k | 0 <= k < |q.db.promises| && m.result != Some(k) :: e.q.db.promises[k] == q.db.promises[k]
  {
    hide Sound, HandOver;
    SentSoundly(q, target, m);
    var rest := multiset([target] + m.methargs.slots);
    assert q.lost + RefsOfItem(Send(target, m)) == (q.lost + rest) + multiset(ResultRef(m));
    HandingOver(q.db, who, m, q.lost + rest);
  }

  /** The object has been revoked, has lost its owner or never was, or its owner is an endpoint that is not running. */
  ghost predicate NobodyAnswers(s: Store, id: nat, running: set<EndpointId>) {
    forall who: Agent :: !Answers(s, id, who, running)
  }

  /** And where nobody answers, the result is rejected with a kernel error. */
  lemma NobodyIsCalled(q: Q, target: KRef, m: KernelStore.Message, running: set<EndpointId>, id: nat)
    requires Sends(q, target, m) && ResultOpen(q.db, m)
    requires LeadsTo(q.db, target, KObject(id)) && NobodyAnswers(q.db, id, running)
    ensures RejectedWith(q, Step(q, EvDeliver(running)), m, NO_SLOTS)
  {
    hide RouteOf, LeadsTo, RejectAndRelease, RejectedWith, LoopConservation.Conserved, NobodyAnswers;
    RoutesNowhere(q.db, target, id, running);
    Refusing(q, target, m, running, NO_SLOTS);
  }

  /** Both ways of refusing a message come to the same. */
  lemma Refusing(q: Q, target: KRef, m: KernelStore.Message, running: set<EndpointId>, error: CapData)
    requires Sends(q, target, m) && ResultOpen(q.db, m) && (m.result.Some? ==> AllExist(q.db, error.slots))
    ensures forall refs | refs == SendRefs(target, m) || refs == ResultRef(m) + [target] + m.methargs.slots ::
              RejectedWith(q, Reached(q, RejectAndRelease(q, m.result, error, refs), Delivered), m, error)
  {
    hide RejectAndRelease, Sound;
    SentSoundly(q, target, m);
    SendRefsAreItemRefs(target, m);
    LoopConservation.OtherOrder(target, m);
    Rejecting(q, m, error, SendRefs(target, m));
    Rejecting(q, m, error, ResultRef(m) + [target] + m.methargs.slots);
  }

  /** A message for a promise that was rejected has its result rejected with the very same value. */
  lemma RejectionIsPassedOn(q: Q, id: nat, m: KernelStore.Message, running: set<EndpointId>, value: CapData)
    requires Sends(q, KPromise(id), m) && ResultOpen(q.db, m) && SettledAs(q.db, id, true, value)
    ensures RejectedWith(q, Step(q, EvDeliver(running)), m, value)
  {
    hide RejectAndRelease, Sound;
    SentSoundly(q, KPromise(id), m);
    SlotsExist(q.db, id, q.lost + RefsOfItem(Send(KPromise(id), m)));
    Refusing(q, KPromise(id), m, running, value);
  }

  /** Whatever a settled promise's value refers to exists. */
  lemma SlotsExist(s: Store, id: nat, f: multiset<KRef>)
    requires Sound(s, f) && id < |s.promises| && s.promises[id].state.Settled?
    ensures AllExist(s, s.promises[id].state.value.slots)
  {
    var slots := s.promises[id].state.value.slots;
    SlotsAreCounted(s, id, f);
    forall i | 0 <= i < |slots| ensures slots[i] in s.counts {
      assert slots[i] in multiset(slots);
      assert Count(s, slots[i]) >= multiset(slots)[slots[i]];
    }
  }

  /** So does one for a promise fulfilled with anything but a bare reference, with a kernel error. */
  lemma DataAnswersNothing(q: Q, id: nat, m: KernelStore.Message, running: set<EndpointId>, value: CapData)
    requires Sends(q, KPromise(id), m) && ResultOpen(q.db, m) && SettledAs(q.db, id, false, value) && !(value.bare && value.slots != [])
    ensures RejectedWith(q, Step(q, EvDeliver(running)), m, NO_SLOTS)
  {
    hide RejectAndRelease, LoopConservation.Balances;
    Refusing(q, KPromise(id), m, running, NO_SLOTS);
  }

  /** A message for a promise still pending, or fulfilled with another promise, waits last in that one's queue, and nobody is called. */
  lemma PromiseIsAwaited(q: Q, target: KRef, m: KernelStore.Message, running: set<EndpointId>, kpid: nat)
    requires Sends(q, target, m)
    requires (target == KPromise(kpid) && Pending(q.db, kpid)) || (target.KPromise? && LeadsTo(q.db, target, KPromise(kpid)))
    ensures var r := Step(q, EvDeliver(running));
            && r.phase == InCrank(q.phase.item, Delivered) && kpid < |q.db.promises| && r.told == q.told
            && r.db.promises == q.db.promises[kpid := q.db.promises[kpid].(queue := q.db.promises[kpid].queue + [m])]
  {
    hide Sound, DeliverRequeue;
    assert RouteOf(q.db, target) == Requeue(kpid);
    SentSoundly(q, target, m);
    var f := q.lost + RefsOfItem(Send(target, m));
    hide RouteOf, LeadsTo, RefsOfItem;
    RoutedPromiseExists(q.db, target, kpid, f);
    RequeueSucceeds(q.db, target, m, kpid, q.lost);
    QueueingLast(q.db, target, m, kpid, f);
  }

  lemma QueueingLast(s: Store, target: KRef, m: KernelStore.Message, kpid: nat, f: multiset<KRef>)
    requires Sound(s, f) && DeliverRequeue(s, target, m, kpid).Done?
    ensures DeliverRequeue(s, target, m, kpid).store.promises == s.promises[kpid := s.promises[kpid].(queue := s.promises[kpid].queue + [m])]
  {
    hide Sound, EnqueuePromiseMessage, ReleaseAll;
    EnqueuePromiseMessageConserves(s, kpid, m, f);
    ReleaseAllKeepsRows(EnqueuePromiseMessage(s, kpid, m).store, SendRefs(target, m));
  }

  /** A notify of a settled promise calls its endpoint with that promise, and settles nothing. */
  lemma SubscriberIsCalled(q: Q, endpoint: EndpointId, kpid: nat, running: set<EndpointId>)
    requires LoopConservation.Conserved(q) && InStage(q, true) && q.phase.item == RunItem(Notify(endpoint, kpid))
    requires kpid < |q.db.promises| && q.db.promises[kpid].state.Settled?
    ensures var r := Step(q, EvDeliver(running));
            && r.phase == InCrank(q.phase.item, Serving([], Endpoint(endpoint), None, NotifyCall(kpid)))
            && r.db.promises == q.db.promises && Count(r.db, KPromise(kpid)) == Count(q.db, KPromise(kpid)) - 1
  {
    hide Sound;
    assert Sound(q.db, q.lost + multiset{KPromise(kpid)});
    assert q.lost + multiset{KPromise(kpid)} == (q.lost) + multiset{KPromise(kpid)};
    DecrementKeepsSound(q.db, KPromise(kpid), q.lost);
  }

  // ------------------------------------------------------------------ and once the endpoint has answered

  /** Being served, with what is in flight counted. */
  ghost predicate Served(q: Q) {
    LoopConservation.Conserved(q) && InStage(q, false)
  }

  /** A delivery that went well settles nothing by ending: what the endpoint has not settled stays its own to settle. */
  lemma AnsweredLeavesResult(q: Q)
    requires Served(q)
    ensures var r := Step(q, EvServed(false));
            r.phase == InCrank(q.phase.item, Delivered) && r.db.promises == q.db.promises && r.told == q.told
  {
    hide Sound, ReleaseAll;
    SteadyServed(q);
    ReleasingEverything(q, q.phase.stage.refs);
  }

  lemma SteadyServed(q: Q)
    requires Served(q)
    ensures LoopConservation.Balances(q, multiset(q.phase.stage.refs)) && !q.torn
  {
    hide Sound;
  }

  /** One that failed leaves a result the endpoint was to settle, and has not, rejected with a kernel error. */
  lemma FailureRejectsResult(q: Q)
    requires Served(q) && q.phase.stage.result.Some?
    requires Live(q.db, q.phase.stage.result.value)
    requires Pending(q.db, q.phase.stage.result.value) ==> PendingWith(q.db, q.phase.stage.result.value, q.phase.stage.who)
    ensures var r := Step(q, EvServed(true));
            && r.phase == InCrank(q.phase.item, Delivered)
            && (if Pending(q.db, q.phase.stage.result.value) then
                  r.db.promises == q.db.promises[q.phase.stage.result.value := PromiseRow(Settled(true, NO_SLOTS), [])]
                else r.db.promises == q.db.promises)
  {
    hide Sound, ReleaseAll, RejectResultStep, ResolveSteps;
    SteadyServed(q);
    var stage := q.phase.stage;
    var told := RejectIfPendingStep(q, stage.who, stage.result, NO_SLOTS);
    if Pending(q.db, stage.result.value) { RejectingPending(q, stage.result.value, stage.who, multiset(stage.refs)); }
    ReleasingEverything(told.q, stage.refs);
  }

  lemma RejectingPending(q: Q, kpid: nat, who: Agent, f: multiset<KRef>)
    requires LoopConservation.Balances(q, f) && !q.torn && PendingWith(q.db, kpid, who)
    ensures var e := RejectIfPendingStep(q, who, Some(kpid), NO_SLOTS);
            && !e.threw && !e.q.torn && LoopConservation.Balances(e.q, f)
            && e.q.db.promises == q.db.promises[kpid := PromiseRow(Settled(true, NO_SLOTS), [])]
  {
    RejectingOne(q, kpid, NO_SLOTS, f);
  }

  // ------------------------------------------------------------------ a delivery as a whole

  function Outcomes(e: Effect): Outcome {
    if e.threw then Threw(e.q.db) else Done(e.q.db)
  }

  lemma RejectingIsReject(q: Q, who: Agent, result: Option<nat>, error: CapData)
    ensures Outcomes(RejectResultStep(q, result, error)) == RejectResult(q.db, result, error)
    ensures Outcomes(RejectIfPendingStep(q, who, result, error)) == RejectIfPending(q.db, who, result, error)
  {
    hide ResolveSteps, ResolvePromises;
    if result.Some? && Live(q.db, result.value) {
      var rejection := [Resolution(result.value, true, error)];
      LoopTelling.ResolvingIsRun(q, Decider(q.db, result.value), rejection, true);
      LoopTelling.ResolvingIsRun(q, who, rejection, true);
    }
  }

  lemma ReachingNobodyIs(q: Q, target: KRef, m: KernelStore.Message, error: CapData)
    ensures Outcomes(RejectAndRelease(q, m.result, error, SendRefs(target, m))) == DeliverSplat(q.db, target, m, error)
    ensures Outcomes(RejectAndRelease(q, m.result, KERNEL_ERROR, ResultRef(m) + [target] + m.methargs.slots)) == DeliverToNobody(q.db, target, m)
  {
    hide RejectResultStep, RejectResult, ReleaseAll, SendRefs;
    RejectingIsReject(q, Nobody, m.result, error);
    RejectingIsReject(q, Nobody, m.result, KERNEL_ERROR);
  }

  /** How a delivery whose endpoint has answered ends. */
  function EndedBy(s: Store, stage: Stage, failed: bool): Outcome
    requires stage.Serving?
  {
    match (if failed then RejectIfPending(s, stage.who, stage.result, KERNEL_ERROR) else Done(s))
    case Threw(t) => Threw(t)
    case Done(told) => ReleaseAll(told, stage.refs)
  }

  /** What is left of a delivery once its endpoint is called: its operations, then its answer. */
  function WorkedAndServed(s: Store, stage: Stage, d: Delivery): Outcome
    requires stage.Serving?
  {
    match RunOps(s, d.ops)
    case Threw(t) => Threw(t)
    case Done(ran) => EndedBy(ran, stage, d.failed)
  }

  /** A delivery begun, and carried on unless it threw or reached nobody. */
  function CarriedOn(e: Effect, stage: Stage, d: Delivery): Outcome {
    if e.threw || !stage.Serving? then Outcomes(e) else WorkedAndServed(e.q.db, stage, d)
  }

  lemma StartIsSend(q: Q, target: KRef, m: KernelStore.Message, running: set<EndpointId>, d: Delivery)
    ensures var (e, stage) := SendStep(q, target, m, running);
            DeliverSend(q.db, target, m, running, d) == CarriedOn(e, stage, d) && (stage.DeliveryThrew? ==> e.threw)
  {
    hide RouteOf, RejectAndRelease, DeliverSplat, DeliverToNobody, ReleaseAll, HandOver, DeliverRequeue, RejectIfPending, RunOps, SendRefs;
    match RouteOf(q.db, target)
    case Splat(error) => ReachingNobodyIs(q, target, m, error);
    case _ => ReachingNobodyIs(q, target, m, KERNEL_ERROR);
  }

  lemma StartIsDelivery(q: Q, item: Item, running: set<EndpointId>, d: Delivery)
    ensures var (e, stage) := StartEffect(q, RunItem(item), running);
            DeliverItem(q.db, item, running, d) == CarriedOn(e, stage, d) && (stage.DeliveryThrew? ==> e.threw)
  {
    hide SendStep, DeliverSend, RunOps;
    match item
    case Send(target, m) => StartIsSend(q, target, m, running, d);
    case _ =>
  }

  lemma AnsweringIs(q: Q, stage: Stage, failed: bool)
    requires stage.Serving?
    ensures Outcomes(ServedEffect(q, stage.refs, stage.who, stage.result, failed)) == EndedBy(q.db, stage, failed)
  {
    hide RejectIfPending, RejectIfPendingStep, ReleaseAll;
    RejectingIsReject(q, stage.who, stage.result, KERNEL_ERROR);
  }

  lemma ServingIsServed(q: Q, failed: bool)
    requires InStage(q, false)
    ensures var r := Step(q, EvServed(failed));
            && r.phase.InCrank? && (r.phase.stage.Delivered? || r.phase.stage.DeliveryThrew?)
            && EndedBy(q.db, q.phase.stage, failed) == if r.phase.stage.Delivered? then Done(r.db) else Threw(r.db)
  {
    hide ServedEffect, EndedBy, Outside;
    AnsweringIs(q, q.phase.stage, failed);
  }

  /** A delivery taken as one step on the store is the loop's steps: its start, what its endpoint does, and the answer. */
  lemma DeliveryIsItsSteps(q: Q, item: Item, running: set<EndpointId>, d: Delivery)
    requires InStage(q, true) && q.phase.item == RunItem(item)
    ensures var whole, begun := DeliverItem(q.db, item, running, d), Step(q, EvDeliver(running));
            && begun.phase.InCrank?
            && match begun.phase.stage
               case DeliveryThrew => whole == Threw(begun.db)
               case Delivered => whole == Done(begun.db)
               case Serving(_, _, _, _) =>
                 var worked := Step(begun, EvOps(d.ops));
                 if RunOps(begun.db, d.ops).Threw? then whole == Threw(worked.db)
                 else
                   var served := Step(worked, EvServed(d.failed));
                   served.phase.InCrank? && whole == if served.phase.stage.Delivered? then Done(served.db) else Threw(served.db)
               case _ => false
  {
    hide DeliverItem, StartEffect, OpSteps, RunOps, EndedBy, ServedStep;
    StartIsDelivery(q, item, running, d);
    var (e, stage) := StartEffect(q, RunItem(item), running);
    StartingFrame(q, RunItem(item), running);
    var begun := Step(q, EvDeliver(running));
    if !e.threw && stage.Serving? {
      LoopTelling.WorkIsDone(begun, d.ops);
      OpsFrame(begun, d.ops);
      ServingIsServed(Step(begun, EvOps(d.ops)), d.failed);
    }
  }
}
