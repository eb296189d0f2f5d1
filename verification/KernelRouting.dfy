/**
 * What one crank does to the store: taking an item, routing and delivering it, collecting garbage, flushing
 * (packages/ocap-kernel/src/KernelRouter.ts, and gc.ts of the store).
 *
 * An endpoint is known here only by what it makes the kernel do during a delivery: any sequence of the
 * store operations in `Op`. The same operations stand for translating references through its c-list, for revoking
 * an object, and for taking an ended vat's objects from it.
 */
module KernelRouting {
  import opened Prelude
  import opened KernelStore
  import opened KernelAccounting

  // ------------------------------------------------------------------ what an endpoint can do

  datatype Op =
    | OpSend(target: KRef, message: Message, immediate: bool)
    | OpResolve(who: Agent, resolutions: seq<Resolution>, immediate: bool)
    | OpNewPromise
    | OpNewObject(owner: Agent)
    | OpHold(k: KRef)
    | OpDrop(k: KRef)
    | OpSubscribe(endpoint: EndpointId, kpid: nat, immediate: bool)
    | OpDecide(kpid: nat, who: Agent)
    | OpRevoke(k: KRef)
    | OpOrphan(id: nat, owner: Agent)

  /** A c-list entry or a pin takes a reference. */
  function Hold(s: Store, k: KRef): Outcome {
    match Increment(s, k)
    case Threw(t) => Threw(t)
    case Done(t) => Done(t.(held := t.held + multiset{k}))
  }

  function Drop(s: Store, k: KRef): Outcome {
    if k !in s.held then Threw(s)
    else Decrement(s.(held := s.held - multiset{k}), k)
  }

  /** An endpoint subscribes to a promise: it is told when the promise settles, or notified if it has. */
  function Subscribe(s: Store, endpoint: EndpointId, kpid: nat, immediate: bool): Outcome {
    if !Live(s, kpid) then Threw(s)
    else if s.promises[kpid].state.Settled? then EnqueueNotify(s, endpoint, kpid, immediate)
    else
      var state := s.promises[kpid].state;
      Done(SetRow(s, kpid, s.promises[kpid].(state :=
        if endpoint in state.subscribers then state else state.(subscribers := state.subscribers + [endpoint]))))
  }

  function NewObject(s: Store, owner: Agent): Store {
    s.(objects := s.objects + [ObjectRow(owner, false)], counts := s.counts[KObject(|s.objects|) := 0])
  }

  function SetObject(s: Store, id: nat, row: ObjectRow): Store
    requires id < |s.objects|
  {
    s.(objects := s.objects[id := row])
  }

  /** Messages to a revoked object go nowhere from then on. There is no revoking a promise. */
  function Revoke(s: Store, k: KRef): Outcome {
    if k.KPromise? then Threw(s)
    else if k.id >= |s.objects| then Done(s)
    else Done(SetObject(s, k.id, s.objects[k.id].(revoked := true)))
  }

  /** An object loses its owner, who alone may give it up or be parted from it: nothing but its count keeps it then. */
  function Orphan(s: Store, id: nat, owner: Agent): Outcome {
    if id >= |s.objects| || s.objects[id].owner.Nobody? then Done(s)
    else if s.objects[id].owner != owner then Threw(s)
    else Done(SetObject(s, id, s.objects[id].(owner := Nobody)))
  }

  function ApplyOp(s: Store, op: Op): Outcome {
    match op
    case OpSend(target, message, immediate) => EnqueueSend(s, target, message, immediate)
    case OpResolve(who, rs, immediate) => ResolvePromises(s, who, rs, immediate)
    case OpNewPromise => Done(InitPromise(s))
    case OpNewObject(owner) => Done(NewObject(s, owner))
    case OpHold(k) => Hold(s, k)
    case OpDrop(k) => Drop(s, k)
    case OpSubscribe(endpoint, kpid, immediate) => Subscribe(s, endpoint, kpid, immediate)
    case OpDecide(kpid, who) => Done(SetDecider(s, kpid, who))
    case OpRevoke(k) => Revoke(s, k)
    case OpOrphan(id, owner) => Orphan(s, id, owner)
  }

  function RunOps(s: Store, ops: seq<Op>): Outcome
    decreases |ops|
  {
    if ops == [] then Done(s)
    else match ApplyOp(s, ops[0])
         case Threw(t) => Threw(t)
         case Done(t) => RunOps(t, ops[1..])
  }

  // ------------------------------------------------------------------ what an operation comes to

  /** Operations are done one after the other, and none after one that throws. */
  lemma {:induction false} DoneInTurn(s: Store, a: seq<Op>, b: seq<Op>)
    ensures RunOps(s, []) == Done(s) && forall op :: RunOps(s, [op]) == ApplyOp(s, op)
    ensures RunOps(s, a + b) == if RunOps(s, a).Done? then RunOps(RunOps(s, a).store, b) else RunOps(s, a)
    decreases |a|
  {
    hide ApplyOp;
    if a == [] {
      assert a + b == b;
    } else {
      assert (a + b)[0] == a[0] && (a + b)[1..] == a[1..] + b;
      if ApplyOp(s, a[0]).Done? { DoneInTurn(ApplyOp(s, a[0]).store, a[1..], b); }
    }
  }

  /** The promises of a batch are resolved one after the other, and none after one that is refused. */
  lemma {:induction false} ResolvedInTurn(s: Store, who: Agent, a: seq<Resolution>, b: seq<Resolution>, immediate: bool)
    ensures ResolvePromises(s, who, [], immediate) == Done(s)
    ensures forall r :: ResolvePromises(s, who, [r], immediate) == ResolveOne(s, who, r, immediate)
    ensures var first := ResolvePromises(s, who, a, immediate);
            ResolvePromises(s, who, a + b, immediate) == if first.Done? then ResolvePromises(first.store, who, b, immediate) else first
    decreases |a|
  {
    hide ResolveOne;
    if a == [] {
      assert a + b == b;
    } else {
      assert (a + b)[0] == a[0] && (a + b)[1..] == a[1..] + b;
      if ResolveOne(s, who, a[0], immediate).Done? {
        ResolvedInTurn(ResolveOne(s, who, a[0], immediate).store, who, a[1..], b, immediate);
      }
    }
  }

  /** Where an operation's output goes: to the run queue, or to wait for a flush. */
  function Output(s: Store, immediate: bool): seq<Item> {
    if immediate then s.runQueue else s.crankBuffer
  }

  /**
   * A promise is resolved by nobody but the one it is owed by, and only with a value all of whose references exist.
   * Then whoever subscribed is notified, the messages that waited go on to it, in order, and no other promise changes.
   */
  lemma ResolvingComesTo(s: Store, who: Agent, r: Resolution, immediate: bool, f: multiset<KRef>)
    requires Sound(s, f)
    ensures ResolveOne(s, who, r, immediate).Done? <==>
              && r.kpid < |s.promises| && s.promises[r.kpid].state.Unresolved? && s.promises[r.kpid].state.decider == who
              && forall i | 0 <= i < |r.value.slots| :: r.value.slots[i] in s.counts
    ensures ResolveOne(s, who, r, immediate).Done? ==>
              var t, row := ResolveOne(s, who, r, immediate).store, s.promises[r.kpid];
              var subscribers, n := row.state.subscribers, |Output(s, immediate)|;
              && t.promises == s.promises[r.kpid := PromiseRow(Settled(r.rejected, r.value), [])]
              && Output(t, !immediate) == Output(s, !immediate)
              && |Output(t, immediate)| == n + |subscribers| + |row.queue| && Output(t, immediate)[..n] == Output(s, immediate)
              && (forall i | 0 <= i < |subscribers| :: Output(t, immediate)[n + i] == Notify(subscribers[i], r.kpid))
              && (forall i | 0 <= i < |row.queue| :: Output(t, immediate)[n + |subscribers| + i] == Send(KPromise(r.kpid), row.queue[i]))
  {
    hide Sound, ResolveOne;
    ResolveOneConserves(s, who, r, immediate, f);
  }

  /** A send goes last, with a reference to everything it names. */
  lemma SendingComesTo(s: Store, target: KRef, m: Message, immediate: bool)
    ensures var o := EnqueueSend(s, target, m, immediate);
            && (o.Done? <==> target in s.counts && (m.result.Some? ==> KPromise(m.result.value) in s.counts)
                             && forall i | 0 <= i < |m.methargs.slots| :: m.methargs.slots[i] in s.counts)
            && (o.Done? ==> Output(o.store, immediate) == Output(s, immediate) + [Send(target, m)]
                            && Output(o.store, !immediate) == Output(s, !immediate) && o.store.promises == s.promises)
  {
    var refs := SendRefs(target, m);
    ChargeAllRaises(s, refs);
    if AllExist(s, refs) {
      assert refs[0] == target;
      if m.result.Some? { assert refs[1] == KPromise(m.result.value); }
      forall i | 0 <= i < |m.methargs.slots| ensures m.methargs.slots[i] in s.counts {
        assert refs[1 + |ResultRef(m)| + i] == m.methargs.slots[i];
      }
    }
  }

  /** Subscribing to a pending promise makes one of its subscribers; to a settled one, queues its notify; to none is refused. */
  lemma SubscribingComesTo(s: Store, endpoint: EndpointId, kpid: nat, immediate: bool, f: multiset<KRef>)
    requires Sound(s, f)
    ensures var o := Subscribe(s, endpoint, kpid, immediate);
            if kpid >= |s.promises| || s.promises[kpid].state.Deleted? then o == Threw(s)
            else if s.promises[kpid].state.Settled? then
              o.Done? && Output(o.store, immediate) == Output(s, immediate) + [Notify(endpoint, kpid)] && o.store.promises == s.promises
            else
              var before, after := s.promises[kpid].state.subscribers, o.store.promises[kpid].state.subscribers;
              && o == Done(s.(promises := s.promises[kpid := s.promises[kpid].(state := s.promises[kpid].state.(subscribers := after))]))
              && endpoint in after && before <= after && |after| == |before| + (if endpoint in before then 0 else 1)
  {
    if kpid < |s.promises| && s.promises[kpid].state.Settled? { assert Live(s, kpid) && KPromise(kpid) in s.counts; }
  }

  /** What comes to be held is counted once more, what is given up once less, and only what exists or is held can be. */
  lemma HoldingComesTo(s: Store, k: KRef, f: multiset<KRef>)
    requires Sound(s, f)
    ensures var o := ApplyOp(s, OpHold(k));
            if k in s.counts then o == Done(s.(held := s.held + multiset{k}, counts := s.counts[k := s.counts[k] + 1])) else o == Threw(s)
    ensures var o := ApplyOp(s, OpDrop(k));
            if k in s.held
            then k in s.counts && s.counts[k] > 0
                 && o == Done(s.(held := s.held - multiset{k}, counts := s.counts[k := s.counts[k] - 1]))
            else o == Threw(s)
  {
    hide Sound;
    if k in s.held { HeldIsCounted(s, k, f); }
  }

  lemma HeldIsCounted(s: Store, k: KRef, f: multiset<KRef>)
    requires Sound(s, f) && k in s.held
    ensures k in s.counts && s.counts[k] > 0
  {
    hide WellFormed;
    HeldIsOwed(s, k);
    assert Count(s, k) == Owed(s)[k] + f[k];
  }

  lemma HeldIsOwed(s: Store, k: KRef)
    requires k in s.held
    ensures Owed(s)[k] > 0
  {
  }

  /** What is made is new: a promise nobody is to settle yet, with a reference of its own, an object with an owner alone. */
  lemma MakingComesTo(s: Store, owner: Agent, f: multiset<KRef>)
    requires Sound(s, f)
    ensures var id, o := |s.promises|, ApplyOp(s, OpNewPromise);
            && KPromise(id) !in s.counts
            && o == Done(s.(promises := s.promises + [PromiseRow(Unresolved(Nobody, []), [])], counts := s.counts[KPromise(id) := 1]))
    ensures var id, o := |s.objects|, ApplyOp(s, OpNewObject(owner));
            && KObject(id) !in s.counts
            && o == Done(s.(objects := s.objects + [ObjectRow(owner, false)], counts := s.counts[KObject(id) := 0]))
  {
    assert !Live(s, |s.promises|);
  }

  /** Naming who is to settle a promise changes that alone, and nothing of one that is settled. */
  lemma DecidingComesTo(s: Store, kpid: nat, who: Agent)
    ensures var t := SetDecider(s, kpid, who);
            if kpid < |s.promises| && s.promises[kpid].state.Unresolved? then
              t == s.(promises := s.promises[kpid := PromiseRow(Unresolved(who, s.promises[kpid].state.subscribers), s.promises[kpid].queue)])
            else t == s
  {
  }

  /** A revoked object stays owned and counted; an orphaned one belongs to nobody, and only its owner could be parted from it. */
  lemma PartingComesTo(s: Store, id: nat, owner: Agent)
    requires id < |s.objects|
    ensures ApplyOp(s, OpRevoke(KObject(id))) == Done(s.(objects := s.objects[id := ObjectRow(s.objects[id].owner, true)]))
    ensures forall kpid: nat :: ApplyOp(s, OpRevoke(KPromise(kpid))) == Threw(s)
    ensures var o := ApplyOp(s, OpOrphan(id, owner));
            if s.objects[id].owner == owner || s.objects[id].owner == Nobody
            then o == Done(s.(objects := s.objects[id := ObjectRow(Nobody, s.objects[id].revoked)]))
            else o == Threw(s)
  {
    assert s.objects[id := s.objects[id]] == s.objects;
  }

  // ------------------------------------------------------------------ routing

  /** A kernel error carries no references. */
  const KERNEL_ERROR: CapData := CapData(false, [])

  datatype Route =
    | Splat(error: CapData)
    | ToAgent(agent: Agent, target: KRef)
    | Requeue(kpid: nat)
    | UnknownPromise

  function RouteAsSend(s: Store, id: nat): Route {
    if id >= |s.objects| || s.objects[id].revoked || s.objects[id].owner.Nobody? then Splat(KERNEL_ERROR)
    else ToAgent(s.objects[id].owner, KObject(id))
  }

  function SingleRef(value: CapData): Option<KRef> {
    if value.bare && value.slots != [] then Some(value.slots[0]) else None
  }

  function RouteOf(s: Store, target: KRef): Route {
    match target
    case KObject(id) => RouteAsSend(s, id)
    case KPromise(id) =>
      if !Live(s, id) then UnknownPromise
      else match s.promises[id].state
           case Unresolved(_, _) => Requeue(id)
           case Settled(rejected, value) =>
             if rejected then Splat(value)
             else (match SingleRef(value)
                   case None => Splat(KERNEL_ERROR)
                   case Some(k) => if k.KPromise? then Requeue(k.id) else RouteAsSend(s, k.id))
  }

  // ------------------------------------------------------------------ delivering

  function Decider(s: Store, kpid: nat): Agent
    requires Live(s, kpid)
  {
    if s.promises[kpid].state.Unresolved? then s.promises[kpid].state.decider else Nobody
  }

  /** Reject a message's result, if it has one, on behalf of whoever was to decide it. */
  function RejectResult(s: Store, result: Option<nat>, error: CapData): Outcome {
    if result.None? then Done(s)
    else if !Live(s, result.value) then Threw(s)
    else ResolvePromises(s, Decider(s, result.value), [Resolution(result.value, true, error)], true)
  }

  /** Reject a message's result unless a failed delivery has settled it already. */
  function RejectIfPending(s: Store, who: Agent, result: Option<nat>, error: CapData): Outcome {
    if result.None? then Done(s)
    else if !Live(s, result.value) then Threw(s)
    else if !s.promises[result.value].state.Unresolved? then Done(s)
    else ResolvePromises(s, who, [Resolution(result.value, true, error)], true)
  }

  /** A message that goes nowhere: its result is rejected, and what it held is released. */
  function DeliverSplat(s: Store, target: KRef, m: Message, error: CapData): Outcome {
    match RejectResult(s, m.result, error)
    case Threw(t) => Threw(t)
    case Done(t) => ReleaseAll(t, SendRefs(target, m))
  }

  /** The endpoint named by the route is not running any more. */
  function DeliverToNobody(s: Store, target: KRef, m: Message): Outcome {
    match RejectResult(s, m.result, KERNEL_ERROR)
    case Threw(t) => Threw(t)
    case Done(t) => ReleaseAll(t, ResultRef(m) + [target] + m.methargs.slots)
  }

  /** The receiver becomes the result's decider, and the queued reference to the result is released. */
  function HandOver(s: Store, who: Agent, m: Message): Outcome {
    if m.result.None? then Done(s)
    else ReleaseAll(SetDecider(s, m.result.value, who), ResultRef(m))
  }

  /** How a delivery went: what the endpoint did, and whether it failed. */
  datatype Delivery = Delivery(ops: seq<Op>, failed: bool)

  function DeliverToAgent(s: Store, who: Agent, target: KRef, m: Message, d: Delivery): Outcome {
    match HandOver(s, who, m)
    case Threw(t) => Threw(t)
    case Done(handed) =>
      match RunOps(handed, d.ops)
      case Threw(t) => Threw(t)
      case Done(ran) =>
        match (if d.failed then RejectIfPending(ran, who, m.result, KERNEL_ERROR) else Done(ran))
        case Threw(t) => Threw(t)
        case Done(told) => ReleaseAll(told, [target] + m.methargs.slots)
  }

  /** The references move from the run queue item to the promise's queue entry, new holder first. */
  function DeliverRequeue(s: Store, target: KRef, m: Message, kpid: nat): Outcome {
    match EnqueuePromiseMessage(s, kpid, m)
    case Threw(t) => Threw(t)
    case Done(t) => ReleaseAll(t, SendRefs(target, m))
  }

  /** Deliver a send; `running` are the endpoints that have a handle. */
  function DeliverSend(s: Store, target: KRef, m: Message, running: set<EndpointId>, d: Delivery): Outcome {
    match RouteOf(s, target)
    case UnknownPromise => Threw(s)
    case Splat(error) => DeliverSplat(s, target, m, error)
    case Requeue(kpid) => DeliverRequeue(s, target, m, kpid)
    case ToAgent(who, _) =>
      if who.Endpoint? && who.id !in running then DeliverToNobody(s, target, m)
      else DeliverToAgent(s, who, target, m, d)
  }

  /** Deliver a notify: its reference is released up front, whether or not there is anybody to tell. */
  function DeliverNotify(s: Store, kpid: nat, ops: seq<Op>): Outcome {
    if !Live(s, kpid) || s.promises[kpid].state.Unresolved? then Threw(s)
    else match Decrement(s, KPromise(kpid))
         case Threw(t) => Threw(t)
         case Done(t) => RunOps(t, ops)
  }

  function DeliverItem(s: Store, item: Item, running: set<EndpointId>, d: Delivery): Outcome {
    match item
    case Send(target, m) => DeliverSend(s, target, m, running, d)
    case Notify(_, kpid) => DeliverNotify(s, kpid, d.ops)
    case _ => RunOps(s, d.ops)
  }

  // ------------------------------------------------------------------ collecting and flushing

  function DeletePromise(s: Store, id: nat): Store
    requires id < |s.promises|
  {
    s.(promises := s.promises[id := PromiseRow(Deleted, [])], counts := s.counts - {KPromise(id)})
  }

  /** Collect one candidate: a promise nothing refers to, or an object nobody owns or refers to. */
  function CollectOne(s: Store, k: KRef): Outcome {
    match k
    case KPromise(id) =>
      if !Live(s, id) then Threw(s)
      else if Count(s, k) != 0 then Done(s)
      else if s.promises[id].state.Settled? then
        (match ReleaseAll(s, s.promises[id].state.value.slots)
         case Threw(t) => Threw(t)
         case Done(t) => if id < |t.promises| then Done(DeletePromise(t, id)) else Threw(t))
      else Done(DeletePromise(s, id))
    case KObject(id) =>
      if k in s.counts && s.counts[k] == 0 && id < |s.objects| && s.objects[id].owner.Nobody?
      then Done(s.(counts := s.counts - {k}))
      else Done(s)
  }

  function Collect(s: Store, candidates: seq<KRef>): Outcome
    decreases |candidates|
  {
    if candidates == [] then Done(s)
    else match CollectOne(s, candidates[0])
         case Threw(t) => Threw(t)
         case Done(t) => Collect(t, candidates[1..])
  }

  function Flush(s: Store): Store {
    s.(runQueue := s.runQueue + s.crankBuffer, crankBuffer := [])
  }

  function Dequeue(s: Store): Store
    requires s.runQueue != []
  {
    s.(runQueue := s.runQueue[1..])
  }

  // ------------------------------------------------------------------ conservation

  lemma InitPromiseKeepsSound(s: Store, inFlight: multiset<KRef>)
    requires Sound(s, inFlight)
    ensures Sound(InitPromise(s), inFlight)
  {
    hide Owed;
    var id, t := |s.promises|, InitPromise(s);
    OwedAfterInit(s);
    assert !Live(s, id) && KPromise(id) !in s.counts;
    RaiseTogether(s, t, multiset{KPromise(id)}, inFlight);
  }

  lemma OwedAfterInit(s: Store)
    ensures Owed(InitPromise(s)) == Owed(s) + multiset{KPromise(|s.promises|)}
  {
    var t := InitPromise(s);
    assert t.promises[..|s.promises|] == s.promises;
    EmptyQueueRow(|s.promises|, t.promises[|s.promises|]);
  }

  lemma NewObjectOwes(s: Store, owner: Agent)
    ensures Owed(NewObject(s, owner)) == Owed(s) + multiset{}
  {
  }

  lemma NewObjectKeepsSound(s: Store, owner: Agent, inFlight: multiset<KRef>)
    requires Sound(s, inFlight)
    ensures Sound(NewObject(s, owner), inFlight)
  {
    hide Owed;
    var t := NewObject(s, owner);
    assert KObject(|s.objects|) !in s.counts;
    NewObjectOwes(s, owner);
    forall id: nat ensures Live(t, id) <==> Live(s, id) {}
    RaiseTogether(s, t, multiset{}, inFlight);
  }

  /** Who owns an object, and whether it is revoked, is no reference. */
  lemma OwningKeepsSound(s: Store, id: nat, row: ObjectRow, inFlight: multiset<KRef>)
    requires Sound(s, inFlight) && id < |s.objects|
    ensures Sound(SetObject(s, id, row), inFlight)
  {
    hide Owed;
    var t := SetObject(s, id, row);
    OwningOwes(s, id, row);
    forall j: nat ensures Live(t, j) <==> Live(s, j) {}
    RaiseTogether(s, t, multiset{}, inFlight);
  }

  lemma OwningOwes(s: Store, id: nat, row: ObjectRow)
    requires id < |s.objects|
    ensures Owed(SetObject(s, id, row)) == Owed(s) + multiset{}
  {
  }

  lemma HoldKeepsSound(s: Store, k: KRef, inFlight: multiset<KRef>)
    requires Sound(s, inFlight) && Hold(s, k).Done?
    ensures Sound(Hold(s, k).store, inFlight)
  {
    IncrementKeepsSound(s, k, inFlight);
    MoveIntoOwed(Increment(s, k).store, Hold(s, k).store, multiset{k}, inFlight);
  }

  lemma DropKeepsSound(s: Store, k: KRef, inFlight: multiset<KRef>)
    requires Sound(s, inFlight) && k in s.held
    ensures Drop(s, k).Done? && Sound(Drop(s, k).store, inFlight)
  {
    var t := s.(held := s.held - multiset{k});
    assert t.held + multiset{k} == s.held;
    assert Owed(t) + multiset{k} == Owed(s);
    MoveOutOfOwed(s, t, multiset{k}, inFlight);
    DecrementKeepsSound(t, k, inFlight);
  }

  /** Rewriting an unsettled promise's decider or subscribers moves no reference. */
  lemma RewriteKeepsSound(s: Store, id: nat, state: PromiseState, inFlight: multiset<KRef>)
    requires Sound(s, inFlight) && id < |s.promises| && s.promises[id].state.Unresolved? && state.Unresolved?
    ensures Sound(SetRow(s, id, s.promises[id].(state := state)), inFlight)
  {
    hide Owed;
    var row := s.promises[id].(state := state);
    var t := SetRow(s, id, row);
    OwedAfterSetRow(s, id, row);
    SameRefs(id, s.promises[id], row);
    CancelCommon(Owed(t), Owed(s), RefsOfRow(id, row));
    assert Owed(t) == Owed(s) + multiset{};
    forall j: nat ensures Live(t, j) <==> Live(s, j) {}
    RaiseTogether(s, t, multiset{}, inFlight);
  }

  lemma SameRefs(id: nat, a: PromiseRow, b: PromiseRow)
    requires a.queue == b.queue && RefsOfState(id, a.state) == RefsOfState(id, b.state)
    ensures RefsOfRow(id, a) == RefsOfRow(id, b)
  {
  }

  lemma CancelCommon<T>(a: multiset<T>, b: multiset<T>, common: multiset<T>)
    requires a + common == b + common
    ensures a == b
  {
    forall k ensures a[k] == b[k] { assert (a + common)[k] == (b + common)[k]; }
  }

  lemma SubscribeKeepsSound(s: Store, endpoint: EndpointId, kpid: nat, immediate: bool, inFlight: multiset<KRef>)
    requires Sound(s, inFlight) && Subscribe(s, endpoint, kpid, immediate).Done?
    ensures Sound(Subscribe(s, endpoint, kpid, immediate).store, inFlight)
  {
    hide Sound, EnqueueNotify;
    if s.promises[kpid].state.Settled? {
      LiveIsCounted(s, kpid, inFlight);
      EnqueueNotifyKeepsSound(s, endpoint, kpid, immediate, inFlight);
    } else {
      RewriteKeepsSound(s, kpid, Subscribe(s, endpoint, kpid, immediate).store.promises[kpid].state, inFlight);
    }
  }

  lemma LiveIsCounted(s: Store, kpid: nat, inFlight: multiset<KRef>)
    requires Sound(s, inFlight) && Live(s, kpid)
    ensures KPromise(kpid) in s.counts
  {
  }

  lemma DecideKeepsSound(s: Store, kpid: nat, who: Agent, inFlight: multiset<KRef>)
    requires Sound(s, inFlight)
    ensures Sound(SetDecider(s, kpid, who), inFlight)
  {
    hide Sound;
    if kpid < |s.promises| && s.promises[kpid].state.Unresolved? {
      RewriteKeepsSound(s, kpid, s.promises[kpid].state.(decider := who), inFlight);
    }
  }

  lemma OwnershipKeepsSound(s: Store, k: KRef, id: nat, owner: Agent, inFlight: multiset<KRef>)
    requires Sound(s, inFlight)
    ensures Sound(Revoke(s, k).store, inFlight) && Sound(Orphan(s, id, owner).store, inFlight)
  {
    hide Sound;
    if k.id < |s.objects| { OwningKeepsSound(s, k.id, s.objects[k.id].(revoked := true), inFlight); }
    if id < |s.objects| { OwningKeepsSound(s, id, s.objects[id].(owner := Nobody), inFlight); }
  }

  lemma ApplyOpKeepsSound(s: Store, op: Op, inFlight: multiset<KRef>)
    requires Sound(s, inFlight) && ApplyOp(s, op).Done?
    ensures Sound(ApplyOp(s, op).store, inFlight)
  {
    hide Sound, EnqueueSend, ResolvePromises, InitPromise, NewObject, Hold, Drop, Subscribe, SetDecider, Revoke, Orphan;
    match op
    case OpSend(target, message, immediate) => EnqueueSendKeepsSound(s, target, message, immediate, inFlight);
    case OpResolve(who, rs, immediate) => ResolvePromisesConserves(s, who, rs, immediate, inFlight);
    case OpNewPromise => InitPromiseKeepsSound(s, inFlight);
    case OpNewObject(owner) => NewObjectKeepsSound(s, owner, inFlight);
    case OpHold(k) => HoldKeepsSound(s, k, inFlight);
    case OpDrop(k) => DroppedIsHeld(s, k); DropKeepsSound(s, k, inFlight);
    case OpSubscribe(endpoint, kpid, immediate) => SubscribeKeepsSound(s, endpoint, kpid, immediate, inFlight);
    case OpDecide(kpid, who) => DecideKeepsSound(s, kpid, who, inFlight);
    case OpRevoke(k) => OwnershipKeepsSound(s, k, 0, Nobody, inFlight);
    case OpOrphan(id, owner) => OwnershipKeepsSound(s, KObject(id), id, owner, inFlight);
  }

  lemma DroppedIsHeld(s: Store, k: KRef)
    requires Drop(s, k).Done?
    ensures k in s.held
  {
  }

  /** Whatever an endpoint does in a delivery keeps every count equal to what is owed. */
  lemma {:induction false} RunOpsKeepsSound(s: Store, ops: seq<Op>, inFlight: multiset<KRef>)
    requires Sound(s, inFlight) && RunOps(s, ops).Done?
    ensures Sound(RunOps(s, ops).store, inFlight)
    decreases |ops|
  {
    if ops != [] {
      ApplyOpKeepsSound(s, ops[0], inFlight);
      RunOpsKeepsSound(ApplyOp(s, ops[0]).store, ops[1..], inFlight);
    }
  }

  // ------------------------------------------------------------------ every route conserves

  lemma RejectResultConserves(s: Store, result: Option<nat>, error: CapData, inFlight: multiset<KRef>)
    requires Sound(s, inFlight) && RejectResult(s, result, error).Done?
    ensures Sound(RejectResult(s, result, error).store, inFlight)
  {
    if result.Some? {
      ResolvePromisesConserves(s, Decider(s, result.value), [Resolution(result.value, true, error)], true, inFlight);
    }
  }

  /** Rejecting a pending result carrying no slots always succeeds. */
  lemma PendingResultIsRejected(s: Store, kpid: nat, inFlight: multiset<KRef>)
    requires Sound(s, inFlight) && Live(s, kpid) && s.promises[kpid].state.Unresolved?
    ensures RejectResult(s, Some(kpid), KERNEL_ERROR).Done?
    ensures var t := RejectResult(s, Some(kpid), KERNEL_ERROR).store;
            kpid < |t.promises| && t.promises[kpid].state == Settled(true, KERNEL_ERROR)
  {
    var r := Resolution(kpid, true, KERNEL_ERROR);
    ResolveOneConserves(s, Decider(s, kpid), r, true, inFlight);
    assert [r][0] == r && [r][1..] == [];
    assert ResolvePromises(s, Decider(s, kpid), [r], true) == ResolveOne(s, Decider(s, kpid), r, true);
  }

  lemma SplatConserves(s: Store, target: KRef, m: Message, error: CapData, inFlight: multiset<KRef>)
    requires Sound(s, inFlight + RefsOfItem(Send(target, m))) && DeliverSplat(s, target, m, error).Done?
    ensures Sound(DeliverSplat(s, target, m, error).store, inFlight)
  {
    var f := inFlight + RefsOfItem(Send(target, m));
    RejectResultConserves(s, m.result, error, f);
    SendRefsAreItemRefs(target, m);
    ReleaseKeepsSound(RejectResult(s, m.result, error).store, SendRefs(target, m), inFlight);
  }

  lemma ToNobodyConserves(s: Store, target: KRef, m: Message, inFlight: multiset<KRef>)
    requires Sound(s, inFlight + RefsOfItem(Send(target, m))) && DeliverToNobody(s, target, m).Done?
    ensures Sound(DeliverToNobody(s, target, m).store, inFlight)
  {
    RejectResultConserves(s, m.result, KERNEL_ERROR, inFlight + RefsOfItem(Send(target, m)));
    assert multiset(ResultRef(m) + [target] + m.methargs.slots) == RefsOfItem(Send(target, m));
    ReleaseKeepsSound(RejectResult(s, m.result, KERNEL_ERROR).store, ResultRef(m) + [target] + m.methargs.slots, inFlight);
  }

  lemma HandOverConserves(s: Store, who: Agent, m: Message, inFlight: multiset<KRef>)
    requires Sound(s, inFlight + multiset(ResultRef(m)))
    ensures HandOver(s, who, m).Done? && Sound(HandOver(s, who, m).store, inFlight)
  {
    if m.result.None? {
      assert inFlight + multiset(ResultRef(m)) == inFlight;
    } else {
      var kpid, f := m.result.value, inFlight + multiset(ResultRef(m));
      if kpid < |s.promises| && s.promises[kpid].state.Unresolved? {
        RewriteKeepsSound(s, kpid, s.promises[kpid].state.(decider := who), f);
      }
      ReleaseKeepsSound(SetDecider(s, kpid, who), ResultRef(m), inFlight);
    }
  }

  lemma ToAgentConserves(s: Store, who: Agent, target: KRef, m: Message, d: Delivery, inFlight: multiset<KRef>)
    requires Sound(s, inFlight + RefsOfItem(Send(target, m))) && DeliverToAgent(s, who, target, m, d).Done?
    ensures Sound(DeliverToAgent(s, who, target, m, d).store, inFlight)
  {
    var rest := [target] + m.methargs.slots;
    var f := inFlight + multiset(rest);
    assert inFlight + RefsOfItem(Send(target, m)) == f + multiset(ResultRef(m));
    HandOverConserves(s, who, m, f);
    var handed := HandOver(s, who, m).store;
    RunOpsKeepsSound(handed, d.ops, f);
    var ran := RunOps(handed, d.ops).store;
    if d.failed && m.result.Some? && Live(ran, m.result.value) && ran.promises[m.result.value].state.Unresolved? {
      ResolvePromisesConserves(ran, who, [Resolution(m.result.value, true, KERNEL_ERROR)], true, f);
    }
    ReleaseKeepsSound(if d.failed then RejectIfPending(ran, who, m.result, KERNEL_ERROR).store else ran, rest, inFlight);
  }

  lemma EnqueuePromiseMessageConserves(s: Store, kpid: nat, m: Message, inFlight: multiset<KRef>)
    requires Sound(s, inFlight) && EnqueuePromiseMessage(s, kpid, m).Done?
    ensures Sound(EnqueuePromiseMessage(s, kpid, m).store, inFlight)
    ensures EnqueuePromiseMessage(s, kpid, m).store.promises == s.promises[kpid := s.promises[kpid].(queue := s.promises[kpid].queue + [m])]
  {
    hide Owed, RefsOfItem;
    var refs := SendRefs(KPromise(kpid), m);
    ChargeKeepsSound(s, refs, inFlight);
    var charged := ChargeAll(s, refs).store;
    var longer := charged.promises[kpid].(queue := charged.promises[kpid].queue + [m]);
    OwedAfterQueueing(charged, kpid, m);
    SendRefsAreItemRefs(KPromise(kpid), m);
    forall j: nat ensures Live(SetRow(charged, kpid, longer), j) <==> Live(charged, j) {}
    MoveIntoOwed(charged, SetRow(charged, kpid, longer), multiset(refs), inFlight);
  }

  lemma OwedAfterQueueing(s: Store, kpid: nat, m: Message)
    requires kpid < |s.promises|
    ensures Owed(SetRow(s, kpid, s.promises[kpid].(queue := s.promises[kpid].queue + [m]))) == Owed(s) + RefsOfItem(Send(KPromise(kpid), m))
  {
    var row := s.promises[kpid];
    var longer := row.(queue := row.queue + [m]);
    OwedAfterSetRow(s, kpid, longer);
    RefsOfQueueAppend(KPromise(kpid), row.queue, m);
    LongerRow(Owed(SetRow(s, kpid, longer)), Owed(s), RefsOfState(kpid, row.state), RefsOfQueue(KPromise(kpid), row.queue), RefsOfItem(Send(KPromise(kpid), m)));
  }

  lemma LongerRow<T>(after: multiset<T>, before: multiset<T>, state: multiset<T>, queue: multiset<T>, added: multiset<T>)
    requires after + (state + queue) == before + (state + (queue + added))
    ensures after == before + added
  {
    forall k ensures after[k] == (before + added)[k] {
      assert (after + (state + queue))[k] == (before + (state + (queue + added)))[k];
    }
  }

  lemma RequeueConserves(s: Store, target: KRef, m: Message, kpid: nat, inFlight: multiset<KRef>)
    requires Sound(s, inFlight + RefsOfItem(Send(target, m))) && DeliverRequeue(s, target, m, kpid).Done?
    ensures Sound(DeliverRequeue(s, target, m, kpid).store, inFlight)
  {
    EnqueuePromiseMessageConserves(s, kpid, m, inFlight + RefsOfItem(Send(target, m)));
    SendRefsAreItemRefs(target, m);
    ReleaseKeepsSound(EnqueuePromiseMessage(s, kpid, m).store, SendRefs(target, m), inFlight);
  }

  /** What a delivered message refers to exists, and so does the promise it is routed to. */
  lemma RequeueSucceeds(s: Store, target: KRef, m: Message, kpid: nat, inFlight: multiset<KRef>)
    requires Sound(s, inFlight + RefsOfItem(Send(target, m))) && RouteOf(s, target) == Requeue(kpid)
    ensures DeliverRequeue(s, target, m, kpid).Done?
  {
    var f, refs := inFlight + RefsOfItem(Send(target, m)), SendRefs(KPromise(kpid), m);
    RoutedPromiseExists(s, target, kpid, f);
    SendRefsAreItemRefs(target, m);
    forall i | 0 <= i < |refs| ensures refs[i] in s.counts {
      if i > 0 {
        assert refs[i] == SendRefs(target, m)[i] && refs[i] in multiset(SendRefs(target, m));
        OwedExists(s, f, refs[i]);
      }
    }
    ChargeKeepsSound(s, refs, f);
    assert Live(s, kpid);
    EnqueuePromiseMessageConserves(s, kpid, m, f);
    ReleaseKeepsSound(EnqueuePromiseMessage(s, kpid, m).store, SendRefs(target, m), inFlight);
  }

  lemma RoutedPromiseExists(s: Store, target: KRef, kpid: nat, inFlight: multiset<KRef>)
    requires Sound(s, inFlight) && RouteOf(s, target) == Requeue(kpid)
    ensures KPromise(kpid) in s.counts && Live(s, kpid)
  {
    if s.promises[target.id].state.Settled? {
      var slots := s.promises[target.id].state.value.slots;
      PromisesHoldTheirRows(s.promises, target.id);
      assert slots[0] == KPromise(kpid) && slots[0] in multiset(slots);
      assert Owed(s)[slots[0]] >= RefsOfRow(target.id, s.promises[target.id])[slots[0]] >= 1;
      OwedExists(s, inFlight, slots[0]);
    }
  }

  lemma NotifyConserves(s: Store, endpoint: EndpointId, kpid: nat, ops: seq<Op>, inFlight: multiset<KRef>)
    requires Sound(s, inFlight + RefsOfItem(Notify(endpoint, kpid))) && DeliverNotify(s, kpid, ops).Done?
    ensures Sound(DeliverNotify(s, kpid, ops).store, inFlight)
  {
    DecrementKeepsSound(s, KPromise(kpid), inFlight);
    RunOpsKeepsSound(Decrement(s, KPromise(kpid)).store, ops, inFlight);
  }

  /**
   * Reference conservation: on every routing path, the references the delivered item held are released or
   * passed on, each exactly once.
   */
  lemma DeliverItemConserves(s: Store, item: Item, running: set<EndpointId>, d: Delivery, inFlight: multiset<KRef>)
    requires Sound(s, inFlight + RefsOfItem(item)) && DeliverItem(s, item, running, d).Done?
    ensures Sound(DeliverItem(s, item, running, d).store, inFlight)
  {
    match item
    case Send(target, m) =>
      match RouteOf(s, target) {
        case Splat(error) => SplatConserves(s, target, m, error, inFlight);
        case Requeue(kpid) => RequeueConserves(s, target, m, kpid, inFlight);
        case ToAgent(who, _) =>
          if who.Endpoint? && who.id !in running {
            ToNobodyConserves(s, target, m, inFlight);
          } else {
            ToAgentConserves(s, who, target, m, d, inFlight);
          }
      }
    case Notify(endpoint, kpid) => NotifyConserves(s, endpoint, kpid, d.ops, inFlight);
    case _ =>
      assert inFlight + RefsOfItem(item) == inFlight;
      RunOpsKeepsSound(s, d.ops, inFlight);
  }

  /** Taking an item off the run queue leaves its references charged and in flight. */
  lemma DequeueConserves(s: Store, inFlight: multiset<KRef>)
    requires Sound(s, inFlight) && s.runQueue != []
    ensures Sound(Dequeue(s), inFlight + RefsOfItem(s.runQueue[0]))
  {
    hide RefsOfItem, RefsOfPromises;
    var item := s.runQueue[0];
    assert s.runQueue == [item] + s.runQueue[1..];
    RefsOfItemsConcat([item], s.runQueue[1..]);
    RefsOfItemsAppend([], item);
    assert [] + [item] == [item];
    assert Owed(Dequeue(s)) + RefsOfItem(item) == Owed(s);
    MoveOutOfOwed(s, Dequeue(s), RefsOfItem(item), inFlight);
  }

  /** Flushing moves each buffered item with its charges. */
  lemma FlushConserves(s: Store, inFlight: multiset<KRef>)
    requires Sound(s, inFlight)
    ensures Sound(Flush(s), inFlight)
  {
    hide Owed;
    FlushOwes(s);
    forall j: nat ensures Live(Flush(s), j) <==> Live(s, j) {}
    RaiseTogether(s, Flush(s), multiset{}, inFlight);
  }

  lemma FlushOwes(s: Store)
    ensures Owed(Flush(s)) == Owed(s) + multiset{}
  {
    hide RefsOfPromises;
    RefsOfItemsConcat(s.runQueue, s.crankBuffer);
    FlushedRefs(RefsOfItems(s.runQueue), RefsOfItems(s.crankBuffer), RefsOfPromises(s.promises), s.held);
  }

  lemma FlushedRefs<T>(queued: multiset<T>, buffered: multiset<T>, rows: multiset<T>, held: multiset<T>)
    ensures (queued + buffered) + multiset{} + rows + held == queued + buffered + rows + held + multiset{}
  {
  }

  /** A promise nothing refers to has an empty queue: its messages would refer to it. */
  lemma UnreferencedHasNoQueue(s: Store, id: nat, inFlight: multiset<KRef>)
    requires Sound(s, inFlight) && Live(s, id) && Count(s, KPromise(id)) == 0
    ensures s.promises[id].queue == [] && s.promises[id].state.Settled?
  {
    PromisesHoldTheirRows(s.promises, id);
    assert Count(s, KPromise(id)) == Owed(s)[KPromise(id)] + inFlight[KPromise(id)];
    var row := s.promises[id];
    assert Owed(s)[KPromise(id)] >= RefsOfPromises(s.promises)[KPromise(id)] >= RefsOfRow(id, row)[KPromise(id)];
    assert row.queue != [] ==> KPromise(id) in RefsOfQueue(KPromise(id), row.queue);
  }

  /** What is collected is what the counts say, and a collection refused has collected soundly until then. */
  lemma CollectOneConserves(s: Store, k: KRef, inFlight: multiset<KRef>)
    requires Sound(s, inFlight)
    ensures Sound(CollectOne(s, k).store, inFlight)
    ensures CollectOne(s, k).Threw? <==> k.KPromise? && !Live(s, k.id)
  {
    if k.KPromise? && Live(s, k.id) && Count(s, k) == 0 {
      UnreferencedHasNoQueue(s, k.id, inFlight);
      CollectPromiseConserves(s, k.id, inFlight);
    } else if k.KObject? {
      CollectObjectConserves(s, k.id, inFlight);
    }
  }

  lemma CollectObjectConserves(s: Store, id: nat, inFlight: multiset<KRef>)
    requires Sound(s, inFlight)
    ensures CollectOne(s, KObject(id)).Done? && Sound(CollectOne(s, KObject(id)).store, inFlight)
  {
    hide Owed;
    var t := CollectOne(s, KObject(id)).store;
    SameRowsSameOwed(t, s);
    forall j: nat ensures KPromise(j) in t.counts <==> Live(t, j) { assert KPromise(j) in s.counts <==> Live(s, j); }
    StayTogether(s, t, inFlight);
  }

  lemma StayTogether(s: Store, t: Store, inFlight: multiset<KRef>)
    requires Sound(s, inFlight) && WellFormed(t) && Owed(t) == Owed(s)
    requires forall k :: Count(t, k) == Count(s, k)
    ensures Sound(t, inFlight)
  {
    forall k ensures Count(t, k) == Owed(t)[k] + inFlight[k] {
      assert Count(s, k) == Owed(s)[k] + inFlight[k];
    }
  }

  lemma CollectPromiseConserves(s: Store, id: nat, inFlight: multiset<KRef>)
    requires Sound(s, inFlight) && Live(s, id) && Count(s, KPromise(id)) == 0
    requires s.promises[id].queue == [] && s.promises[id].state.Settled?
    ensures CollectOne(s, KPromise(id)).Done? && Sound(CollectOne(s, KPromise(id)).store, inFlight)
  {
    hide Owed, RefsOfRow, RefsOfPromises;
    var slots := s.promises[id].state.value.slots;
    SlotsAreCounted(s, id, inFlight);
    ReleaseAllLowers(s, slots);
    var released := ReleaseAll(s, slots).store;
    var t := DeletePromise(released, id);
    OwedAfterDelete(s, id);
    SameRowsSameOwed(t, DeletePromise(s, id));
    DeleteLowers(s, released, id, multiset(slots));
    DeleteKeepsWellFormed(released, id);
    LowerTogether(s, t, multiset(slots), inFlight);
  }

  lemma DeleteLowers(s: Store, released: Store, id: nat, m: multiset<KRef>)
    requires Rose(released, s, m) && Count(s, KPromise(id)) == 0 && id < |released.promises|
    ensures Rose(DeletePromise(released, id), s, m)
  {
    var t := DeletePromise(released, id);
    forall k ensures Count(s, k) == Count(t, k) + m[k] {
      assert Count(s, k) == Count(released, k) + m[k];
    }
  }

  lemma DeleteKeepsWellFormed(s: Store, id: nat)
    requires WellFormed(s) && id < |s.promises|
    ensures WellFormed(DeletePromise(s, id))
  {
    var t := DeletePromise(s, id);
    forall j: nat ensures KPromise(j) in t.counts <==> Live(t, j) { assert KPromise(j) in s.counts <==> Live(s, j); }
  }

  lemma SlotsAreCounted(s: Store, id: nat, inFlight: multiset<KRef>)
    requires Sound(s, inFlight) && id < |s.promises| && s.promises[id].state.Settled?
    ensures forall k :: Count(s, k) >= multiset(s.promises[id].state.value.slots)[k]
  {
    PromisesHoldTheirRows(s.promises, id);
    var slots := multiset(s.promises[id].state.value.slots);
    forall k ensures Count(s, k) >= slots[k] {
      assert Count(s, k) == Owed(s)[k] + inFlight[k];
      assert Owed(s)[k] >= RefsOfPromises(s.promises)[k] >= RefsOfRow(id, s.promises[id])[k] >= slots[k];
    }
  }

  lemma OwedAfterDelete(s: Store, id: nat)
    requires id < |s.promises| && s.promises[id].queue == [] && s.promises[id].state.Settled?
    ensures Owed(DeletePromise(s, id)) + multiset(s.promises[id].state.value.slots) == Owed(s)
  {
    var gone := PromiseRow(Deleted, []);
    OwedAfterSetRow(s, id, gone);
    EmptyQueueRow(id, s.promises[id]);
    EmptyQueueRow(id, gone);
    assert Owed(DeletePromise(s, id)) == Owed(SetRow(s, id, gone));
  }

  lemma {:induction false} CollectConserves(s: Store, candidates: seq<KRef>, inFlight: multiset<KRef>)
    requires Sound(s, inFlight)
    ensures Sound(Collect(s, candidates).store, inFlight)
    decreases |candidates|
  {
    if candidates != [] {
      CollectOneConserves(s, candidates[0], inFlight);
      CollectConserves(CollectOne(s, candidates[0]).store, candidates[1..], inFlight);
    }
  }
}
