/**
 * The kernel's run loop as a state machine (packages/ocap-kernel/src/KernelQueue.ts).
 *
 * The loop is asynchronous: while a crank waits on a delivery, while the loop is parked, and while a
 * crank's `afterCommit` runs, callers outside it may enter. A step here is what runs between two such
 * points, and `Step` lets any outside call happen at any of them.
 */
module KernelLoop {
  import opened Prelude
  import opened KernelStore
  import opened KernelAccounting
  import opened KernelRouting
  import PeerArrivals

  /** Whoever holds a promise the kernel is to settle. */
  type Caller = nat

  datatype Answer =
    | Resolved(value: CapData)
    | RejectedWith(value: CapData)
    | Performed
    | WriteFailed
    | ObjectDeleted
    | VatEnded
    | LoopDied
    | LoopFailure
    | Discarded
    | Withdrawn

  datatype Told = Told(caller: Caller, answer: Answer)

  /** A caller awaiting the result of a message the kernel sent. */
  datatype Subscription = Subscription(kpid: nat, caller: Caller)

  datatype HeldRequest =
    | HeldMessage(caller: Caller, target: KRef, methargs: CapData)
    | HeldWrite(caller: Caller, ops: seq<Op>)
    | HeldItem(item: Item)

  datatype ControlRequest = ControlRequest(caller: Caller, operation: nat)

  datatype LoopItem =
    | RunItem(item: Item)
    | ArrivalItem(arrival: PeerArrivals.Arrival)
    | ControlItem(request: ControlRequest)
    | GCItem
    | ReapItem

  /** What an endpoint is called with: a message for one of its objects, or a promise it subscribed to. */
  datatype Call = NoCall | MessageCall(target: KRef, message: KernelStore.Message) | NotifyCall(kpid: nat)

  /**
   * How far an item's delivery has come. A delivery that is being served holds references it still has to
   * release, and may yet have to reject a result on its endpoint's behalf. After a delivery that ends its
   * vat, the vat's termination is awaited.
   */
  datatype Stage =
    | Waiting
    | Serving(refs: seq<KRef>, who: Agent, result: Option<nat>, call: Call)
    | Delivered
    | DeliveryThrew
    | Terminating(outcome: CrankResult)

  datatype CrankResult = CrankResult(abort: bool, terminate: bool, irrevocable: bool, afterCommit: bool)

  /** Where the loop stands. */
  datatype Phase =
    | Idle
    | Top
    | InCrank(item: LoopItem, stage: Stage)
    | AfterCommit(heldFailed: bool)
    | Parked
    | Ended
    | Dead

  datatype Ending = NotEnding | EndAsked | EndAnswered

  /**
   * Everything the loop and the queue's callers share. `saved` is the store as the open crank found it. The
   * last eight fields record history, and decide nothing:
   *
   * - `rollbacks` counts the open crank's, `issued` and `told` list the callers taken in and answered;
   * - `lost` are references that are counted and that nothing holds any more, and `forsaken` the promises whose
   *   listed answer an abort has dropped; `savedLost` and `savedListed` are what the open crank found of them;
   * - `torn` says that the database has refused a commit while output was buffered in memory.
   */
  datatype Q = Q(
    db: Store,
    saved: Store,
    phase: Phase,
    rollbackAllowed: bool,
    subscriptions: seq<Subscription>,
    resolvedInCrank: seq<Resolution>,
    waiters: seq<Caller>,
    held: seq<HeldRequest>,
    controls: seq<ControlRequest>,
    controlInFlight: Option<ControlRequest>,
    ending: Ending,
    wakeSet: bool,
    arrivals: seq<PeerArrivals.Arrival>,
    tookArrivalLast: bool,
    told: seq<Told>,
    issued: seq<Caller>,
    rollbacks: nat,
    lost: multiset<KRef>,
    savedLost: multiset<KRef>,
    forsaken: set<nat>,
    savedListed: seq<Resolution>,
    torn: bool)

  /** References taken off the run queue and not yet released: those of the item being delivered. */
  function InFlight(q: Q): multiset<KRef> {
    if !q.phase.InCrank? then multiset{}
    else match q.phase.stage
      case Waiting => if q.phase.item.RunItem? then RefsOfItem(q.phase.item.item) else multiset{}
      case Serving(refs, _, _, _) => multiset(refs)
      case _ => multiset{}
  }

  // ------------------------------------------------------------------ telling callers

  function Tell(q: Q, caller: Caller, answer: Answer): Q {
    q.(told := q.told + [Told(caller, answer)])
  }

  /** Where the promise's subscription stands, or the number of subscriptions if there is none. */
  function FindSubscription(subs: seq<Subscription>, kpid: nat): (i: nat)
    ensures i <= |subs|
    ensures i < |subs| ==> subs[i].kpid == kpid
    ensures forall j | 0 <= j < i :: subs[j].kpid != kpid
  {
    if subs == [] || subs[0].kpid == kpid then 0 else 1 + FindSubscription(subs[1..], kpid)
  }

  /** Answer the promise's subscriber, if it has one, and forget the subscription. */
  function AnswerSubscriber(q: Q, kpid: nat, answer: Answer): Q {
    var i := FindSubscription(q.subscriptions, kpid);
    if i == |q.subscriptions| then q
    else q.(subscriptions := q.subscriptions[..i] + q.subscriptions[i + 1..], told := q.told + [Told(q.subscriptions[i].caller, answer)])
  }

  function Settle(q: Q, r: Resolution): Q {
    AnswerSubscriber(q, r.kpid, if r.rejected then RejectedWith(r.value) else Resolved(r.value))
  }

  function SettleEach(q: Q, rs: seq<Resolution>): Q
    decreases |rs|
  {
    if rs == [] then q else SettleEach(Settle(q, rs[0]), rs[1..])
  }

  // ------------------------------------------------------------------ the store, seen from the queue

  /** A run queue that grew wakes a parked loop. */
  function WithStore(q: Q, db: Store): Q {
    q.(db := db, wakeSet := q.wakeSet && |db.runQueue| <= |q.db.runQueue|)
  }

  function Wake(q: Q): Q {
    q.(wakeSet := false)
  }

  /** A step inside the queue, and whether it threw. */
  datatype Effect = Effect(q: Q, threw: bool)

  /** A store operation's effect; one refused partway leaves what it had done. */
  function StoreEffect(q: Q, o: Outcome): Effect {
    Effect(WithStore(q, o.store), o.Threw?)
  }

  /** The effect of one that charges references as it goes: refused, it leaves those charged so far to nobody. */
  function ChargingEffect(q: Q, o: Outcome, unpaid: multiset<KRef>): Effect {
    Effect(WithStore(q, o.store).(lost := if o.Threw? then q.lost + unpaid else q.lost), o.Threw?)
  }

  /** One resolution: an immediate one answers the promise's subscriber at once, a buffered one when the crank is flushed. */
  function ResolveStep(q: Q, who: Agent, r: Resolution, immediate: bool): Effect {
    var done := ChargingEffect(q, ResolveOne(q.db, who, r, immediate), UnpaidByResolution(q.db, who, r));
    if done.threw then done
    else if immediate then Effect(Settle(done.q, r), false)
    else if FindSubscription(q.subscriptions, r.kpid) < |q.subscriptions| then
      Effect(done.q.(resolvedInCrank := done.q.resolvedInCrank + [r]), false)
    else done
  }

  function ResolveSteps(q: Q, who: Agent, rs: seq<Resolution>, immediate: bool): Effect
    decreases |rs|
  {
    if rs == [] then Effect(q, false)
    else
      var first := ResolveStep(q, who, rs[0], immediate);
      if first.threw then first else ResolveSteps(first.q, who, rs[1..], immediate)
  }

  /**
   * An operation's own flag says whether its output waits for the flush, whatever the open crank is doing: any
   * vat's syscall does. With no crank open everything is queued at once.
   */
  function AtOnce(q: Q, immediate: bool): bool {
    immediate || !q.phase.InCrank?
  }

  function SendOp(q: Q, target: KRef, message: KernelStore.Message, immediate: bool): Effect {
    ChargingEffect(q, EnqueueSend(q.db, target, message, immediate), Unpaid(q.db, SendRefs(target, message)))
  }

  function OpStep(q: Q, op: Op): Effect {
    match op
    case OpResolve(who, rs, immediate) => ResolveSteps(q, who, rs, AtOnce(q, immediate))
    case OpSend(target, message, immediate) => SendOp(q, target, message, AtOnce(q, immediate))
    case OpSubscribe(endpoint, kpid, immediate) => StoreEffect(q, Subscribe(q.db, endpoint, kpid, AtOnce(q, immediate)))
    case _ => StoreEffect(q, ApplyOp(q.db, op))
  }

  function OpSteps(q: Q, ops: seq<Op>): Effect
    decreases |ops|
  {
    if ops == [] then Effect(q, false)
    else
      var first := OpStep(q, ops[0]);
      if first.threw then first else OpSteps(first.q, ops[1..])
  }

  // ------------------------------------------------------------------ requests from outside

  /** Work that would sit in a queue nobody drains is refused. */
  predicate Refused(q: Q) {
    q.phase.Dead? || q.phase.Ended?
  }

  /** Some reference the message carries is not in the store. */
  predicate SomeMissing(s: Store, target: KRef, methargs: CapData) {
    !AllExist(s, [target] + methargs.slots)
  }

  /** Write a message: an answer at once if a reference is gone, or else a send whose result the caller awaits. */
  function WriteMessage(q: Q, caller: Caller, target: KRef, methargs: CapData): Effect {
    if SomeMissing(q.db, target, methargs) then Effect(Tell(q, caller, ObjectDeleted), false)
    else
      var kpid := |q.db.promises|;
      var sent := StoreEffect(q, EnqueueSend(InitPromise(q.db), target, KernelStore.Message(methargs, Some(kpid)), true));
      if sent.threw then sent else Effect(sent.q.(subscriptions := sent.q.subscriptions + [Subscription(kpid, caller)]), false)
  }

  function WriteRequest(q: Q, h: HeldRequest): Effect {
    match h
    case HeldMessage(caller, target, methargs) => WriteMessage(q, caller, target, methargs)
    case HeldWrite(caller, ops) =>
      var done := OpSteps(q, ops);
      Effect(Tell(done.q, caller, if done.threw then WriteFailed else Performed), false)
    case HeldItem(item) => Effect(WithStore(q, Append(q.db, item, true)), false)
  }

  /** A request made while a crank is open is held until it ends; a write the store refuses fails its caller's call. */
  function Request(q: Q, h: HeldRequest): Q {
    if q.phase.InCrank? then q.(held := q.held + [h])
    else
      var written := WriteRequest(q, h);
      if written.threw && !h.HeldItem? then Tell(written.q, h.caller, WriteFailed) else written.q
  }

  function Issue(q: Q, caller: Caller): Q {
    q.(issued := q.issued + [caller])
  }

  /**
   * Write what was held while the crank was open, each taken off only once written. `fault` names the
   * request whose write the store refuses, if any.
   */
  function WriteHeld(q: Q, fault: Option<nat>): Effect
    decreases |q.held|
  {
    if q.held == [] then Effect(q, false)
    else if fault == Some(0) then Effect(q, true)
    else
      var first := WriteRequest(q, q.held[0]);
      if first.threw then first
      else WriteHeld(first.q.(held := q.held[1..]), if fault.Some? && fault.value > 0 then Some(fault.value - 1) else None)
  }

  // ------------------------------------------------------------------ the end of the loop

  function TellAll(told: seq<Told>, callers: seq<Caller>, answer: Answer): seq<Told>
    decreases |callers|
  {
    if callers == [] then told else TellAll(told + [Told(callers[0], answer)], callers[1..], answer)
  }

  function SubscribersOf(subs: seq<Subscription>): seq<Caller> {
    seq(|subs|, i requires 0 <= i < |subs| => subs[i].caller)
  }

  function ControllersOf(controls: seq<ControlRequest>): seq<Caller> {
    seq(|controls|, i requires 0 <= i < |controls| => controls[i].caller)
  }

  /** The callers of held messages and writes; a restart's or a termination's caller waits elsewhere. */
  function HoldersOf(held: seq<HeldRequest>): seq<Caller> {
    if held == [] then []
    else if held[0].HeldItem? then HoldersOf(held[1..])
    else [held[0].caller] + HoldersOf(held[1..])
  }

  function AbandonSubscriptions(q: Q, answer: Answer): Q {
    q.(told := TellAll(q.told, SubscribersOf(q.subscriptions), answer), subscriptions := [], resolvedInCrank := [])
  }

  function DiscardHeld(q: Q, answer: Answer): Q {
    q.(told := TellAll(q.told, HoldersOf(q.held), answer), held := [])
  }

  /** A control operation whose crank has failed. */
  function FailControl(told: seq<Told>, control: Option<ControlRequest>): seq<Told> {
    if control.None? then told else told + [Told(control.value.caller, LoopFailure)]
  }

  /** Who has been told once everyone who would otherwise wait forever is: subscribers, holders, waiters, controllers. */
  function ToldOfDeath(q: Q): seq<Told> {
    var a := TellAll(q.told, SubscribersOf(q.subscriptions), LoopDied);
    var b := TellAll(a, HoldersOf(q.held), LoopDied);
    var c := FailControl(TellAll(b, q.waiters, LoopDied), q.controlInFlight);
    TellAll(c, ControllersOf(q.controls), LoopDied)
  }

  /** Record the loop's death and fail everyone who would otherwise wait forever. */
  function FailRunLoop(q: Q): Q {
    q.(subscriptions := [], resolvedInCrank := [], held := [], waiters := [], controls := [], controlInFlight := None,
       told := ToldOfDeath(q), ending := if q.ending.EndAsked? then EndAnswered else q.ending, phase := Dead)
  }

  // ------------------------------------------------------------------ opening a crank

  datatype Priority = NoPriority | GCFirst | ReapFirst

  datatype Taken = Taken(item: Option<LoopItem>, q: Q)

  function TakeArrival(q: Q): Taken {
    if q.arrivals == [] then Taken(None, q.(tookArrivalLast := false))
    else Taken(Some(ArrivalItem(q.arrivals[0])), q.(arrivals := q.arrivals[1..], tookArrivalLast := true))
  }

  /** Control operations first, then collection and reaping, then arrivals and the run queue in turns. */
  function GetNext(q: Q, priority: Priority): Taken {
    if q.controls != [] then
      Taken(Some(ControlItem(q.controls[0])), q.(controls := q.controls[1..], controlInFlight := Some(q.controls[0])))
    else match priority
      case GCFirst => Taken(Some(GCItem), q)
      case ReapFirst => Taken(Some(ReapItem), q)
      case NoPriority =>
        var cleared := q.(tookArrivalLast := false);
        if !q.tookArrivalLast && q.arrivals != [] then TakeArrival(cleared)
        else if q.db.runQueue != [] then Taken(Some(RunItem(q.db.runQueue[0])), cleared.(db := Dequeue(q.db)))
        else TakeArrival(cleared)
  }

  /** The store as it stands is what this crank can be rolled back to. */
  function Savepoint(q: Q): Q {
    q.(saved := q.db, savedLost := q.lost, savedListed := q.resolvedInCrank, rollbackAllowed := true, rollbacks := 0)
  }

  /** With nothing to take, end the empty crank and sleep. */
  function Park(q: Q, endFault: bool, heldFault: Option<nat>): Q {
    if q.wakeSet then FailRunLoop(RollBack(q))
    else
      var parked := q.(wakeSet := true, phase := Parked);
      if endFault then FailRunLoop(Uncommitted(parked))
      else
        var written := WriteHeld(parked, heldFault);
        if written.threw then FailRunLoop(written.q) else written.q
  }

  /** Open a crank and take its item, or park with nothing to do, or end if asked to. */
  function Begin(q: Q, priority: Priority, endFault: bool, heldFault: Option<nat>): Q {
    if q.ending.EndAsked? && q.controls == [] then q.(phase := Ended, ending := EndAnswered)
    else
      var taken := GetNext(Savepoint(q), priority);
      if taken.item.Some? then taken.q.(phase := InCrank(taken.item.value, Waiting)) else Park(taken.q, endFault, heldFault)
  }

  // ------------------------------------------------------------------ delivering

  /** Reject a message's result at once, answering its subscriber. */
  function RejectResultStep(q: Q, result: Option<nat>, error: CapData): Effect {
    if result.None? then Effect(q, false)
    else if !Live(q.db, result.value) then Effect(q, true)
    else ResolveSteps(q, Decider(q.db, result.value), [Resolution(result.value, true, error)], true)
  }

  function RejectIfPendingStep(q: Q, who: Agent, result: Option<nat>, error: CapData): Effect {
    if result.None? then Effect(q, false)
    else if !Live(q.db, result.value) then Effect(q, true)
    else if !q.db.promises[result.value].state.Unresolved? then Effect(q, false)
    else ResolveSteps(q, who, [Resolution(result.value, true, error)], true)
  }

  /** The part of a send's delivery that comes before its endpoint is called, and the stage it reaches. */
  function SendStep(q: Q, target: KRef, m: KernelStore.Message, running: set<EndpointId>): (Effect, Stage) {
    match RouteOf(q.db, target)
    case UnknownPromise => (Effect(q, true), DeliveryThrew)
    case Splat(error) => (RejectAndRelease(q, m.result, error, SendRefs(target, m)), Delivered)
    case Requeue(kpid) => (StoreEffect(q, DeliverRequeue(q.db, target, m, kpid)), Delivered)
    case ToAgent(who, final) =>
      if who.Endpoint? && who.id !in running then
        (RejectAndRelease(q, m.result, KERNEL_ERROR, ResultRef(m) + [target] + m.methargs.slots), Delivered)
      else (StoreEffect(q, HandOver(q.db, who, m)), Serving([target] + m.methargs.slots, who, m.result, MessageCall(final, m)))
  }

  function RejectAndRelease(q: Q, result: Option<nat>, error: CapData, refs: seq<KRef>): Effect {
    var rejected := RejectResultStep(q, result, error);
    if rejected.threw then rejected else StoreEffect(rejected.q, ReleaseAll(rejected.q.db, refs))
  }

  function NotifyStep(q: Q, kpid: nat): Effect {
    if !Live(q.db, kpid) || q.db.promises[kpid].state.Unresolved? then Effect(q, true)
    else StoreEffect(q, Decrement(q.db, KPromise(kpid)))
  }

  /** Where a delivery stands after a step of it: one that threw can go no further, and leaves what was in flight. */
  function Reached(q: Q, done: Effect, stage: Stage): Q
    requires q.phase.InCrank?
  {
    if done.threw then done.q.(phase := InCrank(q.phase.item, DeliveryThrew), lost := done.q.lost + InFlight(q))
    else done.q.(phase := InCrank(q.phase.item, stage))
  }

  function StartEffect(q: Q, item: LoopItem, running: set<EndpointId>): (Effect, Stage) {
    match item
    case RunItem(Send(target, m)) => SendStep(q, target, m, running)
    case RunItem(Notify(endpoint, kpid)) => (NotifyStep(q, kpid), Serving([], Endpoint(endpoint), None, NotifyCall(kpid)))
    case _ => (Effect(q, false), Serving([], Nobody, None, NoCall))
  }

  /** Start delivering the crank's item. What its endpoint then does are operations of its own. */
  function DeliverStep(q: Q, running: set<EndpointId>): Q
    requires q.phase.InCrank?
  {
    var (done, stage) := StartEffect(q, q.phase.item, running);
    Reached(q, done, stage)
  }

  function ServedEffect(q: Q, refs: seq<KRef>, who: Agent, result: Option<nat>, failed: bool): Effect {
    var told := if failed then RejectIfPendingStep(q, who, result, KERNEL_ERROR) else Effect(q, false);
    if told.threw then told else StoreEffect(told.q, ReleaseAll(told.q.db, refs))
  }

  /** The endpoint has answered, or failed: reject the result a failed delivery left pending, and release what it held. */
  function ServedStep(q: Q, failed: bool): Q
    requires q.phase.InCrank? && q.phase.stage.Serving?
  {
    Reached(q, ServedEffect(q, q.phase.stage.refs, q.phase.stage.who, q.phase.stage.result, failed), Delivered)
  }

  // ------------------------------------------------------------------ closing a crank

  const NO_RESULT := CrankResult(false, false, false, false)

  datatype DeliverEnd = DeliverThrew | Returned(result: CrankResult)

  /** What there is to collect, and which of a crank's closing steps the store or a vat makes throw. */
  datatype Env = Env(
    candidates: seq<KRef>,
    terminateFault: bool,
    collectFault: bool,
    auditFault: bool,
    flushFault: Option<nat>,
    rollbackFault: bool,
    endFault: bool,
    heldFault: Option<nat>)

  /** What the savepoint had lost, and the output it held, which an earlier crank had charged for. */
  function LostByReturning(q: Q): multiset<KRef> {
    q.savedLost + RefsOfItems(q.saved.crankBuffer)
  }

  /** A crank whose commit fails leaves the database as it found it; the buffer in memory stays. */
  function Uncommitted(q: Q): Q {
    q.(db := q.saved.(crankBuffer := q.db.crankBuffer), lost := LostByReturning(q), torn := q.torn || q.db.crankBuffer != [])
  }

  /**
   * Undo everything since the crank opened, and drop whatever output is buffered, this crank's or not. A
   * rollback that fails takes the whole transaction with it.
   */
  function RollBack(q: Q): Q {
    q.(db := q.saved.(crankBuffer := []), lost := LostByReturning(q), rollbacks := q.rollbacks + 1)
  }

  /** The aborted crank's message will not be retried: tell whoever awaits its result why the vat ended. */
  function TellOfTermination(q: Q): Q
    requires q.phase.InCrank?
  {
    match q.phase.item
    case RunItem(Send(_, m)) => if m.result.Some? then AnswerSubscriber(q, m.result.value, VatEnded) else q
    case _ => q
  }

  /** The promises resolved. */
  function PromisesOf(rs: seq<Resolution>): set<nat> {
    set i | 0 <= i < |rs| :: rs[i].kpid
  }

  function AbortStep(q: Q, result: CrankResult, env: Env): Effect
    requires q.phase.InCrank?
  {
    if !result.abort then Effect(q, false)
    else
      var back := RollBack(q).(rollbackAllowed := false);
      if env.rollbackFault then Effect(back, true)
      else
        var cleared := back.(resolvedInCrank := [], forsaken := back.forsaken + PromisesOf(back.savedListed));
        Effect(if result.terminate then TellOfTermination(cleared) else cleared, false)
  }

  function CollectStep(q: Q, env: Env): Effect {
    var collected := StoreEffect(q, Collect(q.db, env.candidates));
    Effect(collected.q, collected.threw || env.collectFault)
  }

  /** Each flushed notify answers its promise's subscriber, should the kernel be one. */
  function AnswerNotified(q: Q, items: seq<Item>): Q
    decreases |items|
  {
    if items == [] then q else AnswerNotified(AnswerOne(q, items[0]), items[1..])
  }

  function AnswerOne(q: Q, item: Item): Q {
    match item
    case Notify(_, kpid) =>
      if kpid < |q.db.promises| && q.db.promises[kpid].state.Settled?
      then Settle(q, Resolution(kpid, q.db.promises[kpid].state.rejected, q.db.promises[kpid].state.value))
      else q
    case _ => q
  }

  /** Move the crank's output to the run queue and answer callers. A fault loses what the buffer still held. */
  function FlushStep(q: Q, env: Env): Effect {
    var items := q.db.crankBuffer;
    if env.flushFault.Some? && env.flushFault.value < |items| then
      var moved := items[..env.flushFault.value];
      Effect(AnswerNotified(WithStore(q, q.db.(runQueue := q.db.runQueue + moved, crankBuffer := [])), moved)
               .(lost := q.lost + RefsOfItems(items[env.flushFault.value..])), true)
    else
      var answered := AnswerNotified(WithStore(q, Flush(q.db)), items);
      Effect(SettleEach(answered, answered.resolvedInCrank).(resolvedInCrank := []), false)
  }

  /** The audit goes first while a violation could still undo the crank. */
  function FlushAndAudit(q: Q, result: CrankResult, env: Env): Effect {
    if q.rollbackAllowed && env.auditFault then Effect(q, true)
    else
      var flushed := if result.abort then Effect(q, false) else FlushStep(q, env);
      Effect(flushed.q, flushed.threw || (!q.rollbackAllowed && env.auditFault))
  }

  /** A crank that threw is undone if it still may be, and its loop dies with it. */
  function CrankFailed(q: Q, env: Env): Q {
    var undone := if q.rollbackAllowed then RollBack(q) else q;
    FailRunLoop(if env.endFault then Uncommitted(undone) else undone)
  }

  function AnswerControl(q: Q): Q {
    if q.controlInFlight.None? then q
    else Tell(q, q.controlInFlight.value.caller, Performed).(controlInFlight := None)
  }

  /** Once the crank has committed: answer a control operation's caller, then go on or die of a held request. */
  function Resume(q: Q, heldFailed: bool): Q {
    var answered := AnswerControl(q);
    if heldFailed then FailRunLoop(answered) else answered.(phase := Top)
  }

  /** What a committed crank reports has been reported, or its reporting threw. */
  function Reported(q: Q, throws: bool): Q
    requires q.phase.AfterCommit?
  {
    if throws then FailRunLoop(q) else Resume(q, q.phase.heldFailed)
  }

  /** The crank has committed: write what was held, and let it report what it wrote. */
  function Commit(q: Q, result: CrankResult, env: Env): Q {
    var written := WriteHeld(q.(phase := Top), env.heldFault);
    if result.afterCommit && !result.abort then written.q.(phase := AfterCommit(written.threw))
    else Resume(written.q, written.threw)
  }

  /** Everything a crank does to its store before its commit: collect, audit and flush. */
  function Closing(q: Q, result: CrankResult, env: Env): Effect {
    var collected := CollectStep(q.(rollbackAllowed := q.rollbackAllowed && !result.irrevocable), env);
    if collected.threw then collected else FlushAndAudit(collected.q, result, env)
  }

  /** Close a crank: commit what it has come to, or die of what throws. */
  function Close(q: Q, result: CrankResult, env: Env): Q {
    var closed := Closing(q, result, env);
    if closed.threw then CrankFailed(closed.q, env)
    else if env.endFault then FailRunLoop(Uncommitted(closed.q))
    else Commit(closed.q, result, env)
  }

  /** A control operation returns no result. */
  function ResultOf(item: LoopItem, result: CrankResult): CrankResult {
    if item.ControlItem? then NO_RESULT else result
  }

  /** The delivery has ended: undo it if it is to be aborted, then close the crank, or first await its vat's termination. */
  function Finish(q: Q, end: DeliverEnd, env: Env): Q
    requires q.phase.InCrank?
  {
    if end.DeliverThrew? then CrankFailed(q, env)
    else
      var result := ResultOf(q.phase.item, end.result);
      var aborted := AbortStep(q, result, env);
      if aborted.threw then CrankFailed(aborted.q, env)
      else if result.terminate then aborted.q.(phase := InCrank(q.phase.item, Terminating(result)))
      else Close(aborted.q, result, env)
  }

  /** The vat is terminated, wholly or partway: either way its death is recorded and no later throw undoes it. */
  function Terminated(q: Q, env: Env): Q
    requires q.phase.InCrank? && q.phase.stage.Terminating?
  {
    var recorded := q.(rollbackAllowed := false);
    if env.terminateFault then CrankFailed(recorded, env) else Close(recorded, q.phase.stage.outcome, env)
  }

  const EMPTY_STORE: Store := Store([], [], [], [], map[], multiset{})

  /** A control operation that wipes the store abandons everybody waiting on what was in it. */
  function Wipe(q: Q): Q {
    DiscardHeld(AbandonSubscriptions(q, Discarded), Discarded)
      .(db := EMPTY_STORE, lost := multiset{}, forsaken := {}, arrivals := [])
  }

  // ------------------------------------------------------------------ every step

  datatype Event =
    | EvStart
    | EvMessage(caller: Caller, target: KRef, methargs: CapData)
    | EvWrite(caller: Caller, ops: seq<Op>)
    | EvRequest(item: Item)
    | EvControl(caller: Caller, operation: nat)
    | EvEnd
    | EvArrival(event: PeerArrivals.Accepting)
    | EvDiscardArrivals
    | EvDiscardHeld
    | EvAbandonSubscriptions
    | EvRegister(caller: Caller)
    | EvUnregister(caller: Caller)
    | EvOps(ops: seq<Op>)
    | EvBegin(priority: Priority, endFault: bool, heldFault: Option<nat>)
    | EvDeliver(running: set<EndpointId>)
    | EvServed(failed: bool)
    | EvWipe
    | EvFinish(end: DeliverEnd, env: Env)
    | EvTerminated(env: Env)
    | EvAfterCommit(throws: bool)
    | EvWake

  function RemoveFirst(callers: seq<Caller>, c: Caller): seq<Caller> {
    if callers == [] then [] else if callers[0] == c then callers[1..] else [callers[0]] + RemoveFirst(callers[1..], c)
  }

  predicate InStage(q: Q, waiting: bool) {
    q.phase.InCrank? && (if waiting then q.phase.stage.Waiting? else q.phase.stage.Serving?)
  }

  /** A delivery that threw can end only by throwing; one that returned has been served. */
  predicate MayFinish(q: Q, end: DeliverEnd) {
    q.phase.InCrank? && !q.phase.stage.Terminating? && (q.phase.stage.Delivered? || end.DeliverThrew?)
  }

  /** A request to restart or terminate a vat is a queue item that takes no reference. */
  predicate IsRequest(item: Item) {
    item.RestartVat? || item.TerminateVat?
  }

  function AcceptArrival(q: Q, event: PeerArrivals.Accepting): Q {
    if event.AcceptMessage? && !PeerArrivals.Accept(q.arrivals, event.arrival, event.mark).Held? then q
    else Wake(q.(arrivals := PeerArrivals.Apply(q.arrivals, event)))
  }

  function QueueControl(q: Q, caller: Caller, operation: nat): Q {
    q.(issued := q.issued + [caller], controls := q.controls + [ControlRequest(caller, operation)], wakeSet := false)
  }

  function AskToEnd(q: Q): Q {
    q.(ending := if q.ending.NotEnding? then EndAsked else q.ending, wakeSet := false)
  }

  /** A caller waiting on queued work learns of the loop's death, at once if it has died. */
  function Register(q: Q, caller: Caller): Q {
    if q.phase.Dead? then q.(issued := q.issued + [caller], told := q.told + [Told(caller, LoopDied)])
    else q.(issued := q.issued + [caller], waiters := q.waiters + [caller])
  }

  function Withdraw(q: Q, caller: Caller): Q {
    q.(waiters := RemoveFirst(q.waiters, caller), told := q.told + [Told(caller, Withdrawn)])
  }

  /** What callers outside the loop may do at any of its waits. */
  function Outside(q: Q, e: Event): Q {
    match e
    case EvMessage(caller, target, methargs) =>
      if Refused(q) then q else Request(Issue(q, caller), HeldMessage(caller, target, methargs))
    case EvWrite(caller, ops) =>
      if Refused(q) then q else Request(Issue(q, caller), HeldWrite(caller, ops))
    case EvRequest(item) =>
      if Refused(q) || !IsRequest(item) then q else Request(q, HeldItem(item))
    case EvControl(caller, operation) =>
      if q.phase.Idle? || Refused(q) || !q.ending.NotEnding? then q else QueueControl(q, caller, operation)
    case EvEnd => if q.phase.Idle? || Refused(q) then q else AskToEnd(q)
    case EvArrival(event) => if Refused(q) then q else AcceptArrival(q, event)
    case EvDiscardArrivals => q.(arrivals := [])
    case EvDiscardHeld => DiscardHeld(q, Discarded)
    case EvAbandonSubscriptions => AbandonSubscriptions(q, Discarded)
    case EvRegister(caller) => Register(q, caller)
    case EvUnregister(caller) => if caller in q.waiters then Withdraw(q, caller) else q
    case EvOps(ops) => OpSteps(q, ops).q
    case _ => q
  }

  function Step(q: Q, e: Event): Q {
    match e
    case EvStart => if q.phase.Idle? then q.(phase := Top) else q
    case EvBegin(priority, endFault, heldFault) =>
      if q.phase.Top? then Begin(q, priority, endFault, heldFault) else q
    case EvDeliver(running) => if InStage(q, true) then DeliverStep(q, running) else q
    case EvServed(failed) => if InStage(q, false) then ServedStep(q, failed) else q
    case EvWipe => if InStage(q, false) && q.phase.item.ControlItem? then Wipe(q) else q
    case EvFinish(end, env) => if MayFinish(q, end) then Finish(q, end, env) else q
    case EvTerminated(env) => if q.phase.InCrank? && q.phase.stage.Terminating? then Terminated(q, env) else q
    case EvAfterCommit(throws) => if q.phase.AfterCommit? then Reported(q, throws) else q
    case EvWake => if q.phase.Parked? && !q.wakeSet then q.(phase := Top) else q
    case _ => Outside(q, e)
  }

  function Run(q: Q, events: seq<Event>): Q
    decreases |events|
  {
    if events == [] then q else Run(Step(q, events[0]), events[1..])
  }

  /** A queue newly made over a store. */
  function Init(db: Store): Q {
    Q(db, db, Idle, true, [], [], [], [], [], None, NotEnding, false, [], false, [], [], 0, multiset{}, multiset{}, {}, [], false)
  }
}
