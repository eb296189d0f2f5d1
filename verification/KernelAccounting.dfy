/**
 * What the run queue does to the store: queueing sends and notifies, and settling promises
 * (packages/ocap-kernel/src/KernelQueue.ts), with the promise store's half of it
 * (packages/ocap-kernel/src/store/methods/promise.ts).
 */
module KernelAccounting {
  import opened KernelStore

  // ------------------------------------------------------------------ operations

  function Append(s: Store, item: Item, immediate: bool): Store {
    if immediate then s.(runQueue := s.runQueue + [item]) else s.(crankBuffer := s.crankBuffer + [item])
  }

  function EnqueueSend(s: Store, target: KRef, m: Message, immediate: bool): Outcome {
    match ChargeAll(s, SendRefs(target, m))
    case Threw(t) => Threw(t)
    case Done(t) => Done(Append(t, Send(target, m), immediate))
  }

  function EnqueueNotify(s: Store, endpoint: EndpointId, kpid: nat, immediate: bool): Outcome {
    match Increment(s, KPromise(kpid))
    case Threw(t) => Threw(t)
    case Done(t) => Done(Append(t, Notify(endpoint, kpid), immediate))
  }

  function EnqueueNotifies(s: Store, subscribers: seq<EndpointId>, kpid: nat, immediate: bool): Outcome
    decreases |subscribers|
  {
    if subscribers == [] then Done(s)
    else match EnqueueNotify(s, subscribers[0], kpid, immediate)
         case Threw(t) => Threw(t)
         case Done(t) => EnqueueNotifies(t, subscribers[1..], kpid, immediate)
  }

  function EnqueueSends(s: Store, target: KRef, messages: seq<Message>, immediate: bool): Outcome
    decreases |messages|
  {
    if messages == [] then Done(s)
    else match EnqueueSend(s, target, messages[0], immediate)
         case Threw(t) => Threw(t)
         case Done(t) => EnqueueSends(t, target, messages[1..], immediate)
  }

  /** Give up the references a promise's queue entries held. */
  function ReleaseQueue(s: Store, target: KRef, queue: seq<Message>): Outcome
    decreases |queue|
  {
    if queue == [] then Done(s)
    else match ReleaseAll(s, SendRefs(target, queue[0]))
         case Threw(t) => Threw(t)
         case Done(t) => ReleaseQueue(t, target, queue[1..])
  }

  function SetRow(s: Store, id: nat, row: PromiseRow): Store
    requires id < |s.promises|
  {
    s.(promises := s.promises[id := row])
  }

  /** Settle a promise: drain its queue, record the value, and release the decision it was owed. */
  function SettlePromise(s: Store, id: nat, rejected: bool, value: CapData): Outcome
    requires id < |s.promises|
  {
    var row := s.promises[id];
    match ReleaseQueue(SetRow(s, id, row.(queue := [])), KPromise(id), row.queue)
    case Threw(t) => Threw(t)
    case Done(t) =>
      ReleaseQueueKeepsRows(SetRow(s, id, row.(queue := [])), KPromise(id), row.queue);
      Decrement(SetRow(t, id, PromiseRow(Settled(rejected, value), [])), KPromise(id))
  }

  lemma {:induction false} ReleaseAllKeepsRows(s: Store, ks: seq<KRef>)
    ensures OnlyCountsMoved(s, ReleaseAll(s, ks).store)
    decreases |ks|
  {
    if ks != [] && Decrement(s, ks[0]).Done? { ReleaseAllKeepsRows(Decrement(s, ks[0]).store, ks[1..]); }
  }

  lemma {:induction false} ReleaseQueueKeepsRows(s: Store, target: KRef, queue: seq<Message>)
    ensures OnlyCountsMoved(s, ReleaseQueue(s, target, queue).store)
    decreases |queue|
  {
    if queue != [] {
      ReleaseAllKeepsRows(s, SendRefs(target, queue[0]));
      var first := ReleaseAll(s, SendRefs(target, queue[0]));
      if first.Done? { ReleaseQueueKeepsRows(first.store, target, queue[1..]); }
    }
  }

  datatype Resolution = Resolution(kpid: nat, rejected: bool, value: CapData)

  /** The promise awaits a decision, and it is `who`'s to make. */
  predicate MayResolve(s: Store, who: Agent, kpid: nat) {
    kpid < |s.promises| && s.promises[kpid].state.Unresolved? && s.promises[kpid].state.decider == who
  }

  function ResolveOne(s: Store, who: Agent, r: Resolution, immediate: bool): Outcome {
    if !MayResolve(s, who, r.kpid) then Threw(s)
    else
      match ChargeAll(s, r.value.slots)
      case Threw(t) => Threw(t)
      case Done(charged) => ResolveCharged(charged, s.promises[r.kpid].state.subscribers, s.promises[r.kpid].queue, r, immediate)
  }

  /** The rest of a resolution, the slots of its value charged: notifies, the settlement, the messages that waited. */
  function ResolveCharged(s: Store, subscribers: seq<EndpointId>, queue: seq<Message>, r: Resolution, immediate: bool): Outcome {
    match EnqueueNotifies(s, subscribers, r.kpid, immediate)
    case Threw(t) => Threw(t)
    case Done(notified) =>
      if r.kpid >= |notified.promises| then Threw(notified)
      else
        match SettlePromise(notified, r.kpid, r.rejected, r.value)
        case Threw(t) => Threw(t)
        case Done(settled) => EnqueueSends(settled, KPromise(r.kpid), queue, immediate)
  }

  function ResolvePromises(s: Store, who: Agent, rs: seq<Resolution>, immediate: bool): Outcome
    decreases |rs|
  {
    if rs == [] then Done(s)
    else match ResolveOne(s, who, rs[0], immediate)
         case Threw(t) => Threw(t)
         case Done(t) => ResolvePromises(t, who, rs[1..], immediate)
  }

  /** A new promise, owed a decision by nobody yet. */
  function InitPromise(s: Store): Store {
    s.(promises := s.promises + [PromiseRow(Unresolved(Nobody, []), [])],
       counts := s.counts[KPromise(|s.promises|) := 1])
  }

  function SetDecider(s: Store, kpid: nat, who: Agent): Store {
    if kpid < |s.promises| && s.promises[kpid].state.Unresolved?
    then SetRow(s, kpid, s.promises[kpid].(state := s.promises[kpid].state.(decider := who)))
    else s
  }

  /** Put a message on a promise's queue, the entry becoming the message's holder. */
  function EnqueuePromiseMessage(s: Store, kpid: nat, m: Message): Outcome {
    match ChargeAll(s, SendRefs(KPromise(kpid), m))
    case Threw(t) => Threw(t)
    case Done(t) =>
      if kpid >= |t.promises| then Threw(t)
      else Done(SetRow(t, kpid, t.promises[kpid].(queue := t.promises[kpid].queue + [m])))
  }

  // ------------------------------------------------------------------ each keeps the balance

  /** A store whose counts and promise rows agree. */
  ghost predicate Sound(s: Store, inFlight: multiset<KRef>) {
    Balanced(s, inFlight) && WellFormed(s)
  }

  lemma ChargeKeepsSound(s: Store, ks: seq<KRef>, inFlight: multiset<KRef>)
    requires Sound(s, inFlight)
    ensures ChargeAll(s, ks).Done? ==> Sound(ChargeAll(s, ks).store, inFlight + multiset(ks))
    ensures Sound(ChargeAll(s, ks).store, inFlight + multiset(ks[..ChargedPrefix(s, ks)]))
    ensures ChargeAll(s, ks).Done? <==> AllExist(s, ks)
    ensures OnlyCountsMoved(s, ChargeAll(s, ks).store)
  {
    ChargeAllRaises(s, ks);
    ChargeAllStops(s, ks);
  }

  lemma ReleaseKeepsSound(s: Store, ks: seq<KRef>, inFlight: multiset<KRef>)
    requires Sound(s, inFlight + multiset(ks))
    ensures ReleaseAll(s, ks).Done? && Sound(ReleaseAll(s, ks).store, inFlight)
    ensures OnlyCountsMoved(s, ReleaseAll(s, ks).store)
  {
    forall k ensures Count(s, k) >= multiset(ks)[k] {
      assert Count(s, k) == Owed(s)[k] + (inFlight + multiset(ks))[k];
    }
    ReleaseAllLowers(s, ks);
    var t := ReleaseAll(s, ks).store;
    assert Owed(t) == Owed(s);
    forall j: nat ensures Live(t, j) <==> Live(s, j) {}
    LandFlight(s, t, multiset(ks), inFlight);
  }

  /** References in flight that are given up, nothing owed changing. */
  lemma LandFlight(s: Store, t: Store, m: multiset<KRef>, inFlight: multiset<KRef>)
    requires Sound(s, inFlight + m) && WellFormed(t)
    requires Owed(t) == Owed(s) && Rose(t, s, m)
    ensures Sound(t, inFlight)
  {
    hide Owed;
    forall k ensures Count(t, k) == Owed(t)[k] + inFlight[k] {
      assert Count(s, k) == Owed(s)[k] + (inFlight + m)[k];
      assert Count(s, k) == Count(t, k) + m[k];
    }
  }

  lemma OwedAppend(s: Store, item: Item, immediate: bool)
    ensures Owed(Append(s, item, immediate)) == Owed(s) + RefsOfItem(item)
  {
    if immediate { RefsOfItemsAppend(s.runQueue, item); } else { RefsOfItemsAppend(s.crankBuffer, item); }
  }

  /** A queued send holds exactly what was charged for it. */
  lemma EnqueueSendKeepsSound(s: Store, target: KRef, m: Message, immediate: bool, inFlight: multiset<KRef>)
    requires Sound(s, inFlight)
    ensures EnqueueSend(s, target, m, immediate).Done? <==> AllExist(s, SendRefs(target, m))
    ensures EnqueueSend(s, target, m, immediate).Done? ==>
              var t := EnqueueSend(s, target, m, immediate).store;
              Sound(t, inFlight) && t.counts.Keys == s.counts.Keys && t.promises == s.promises && t.objects == s.objects && t.held == s.held
  {
    var refs := SendRefs(target, m);
    ChargeKeepsSound(s, refs, inFlight);
    if AllExist(s, refs) {
      var t := ChargeAll(s, refs).store;
      OwedAppend(t, Send(target, m), immediate);
      SendRefsAreItemRefs(target, m);
      MoveIntoOwed(t, Append(t, Send(target, m), immediate), multiset(refs), inFlight);
    }
  }

  /** References in flight that some row comes to hold are owed from then on. */
  lemma MoveIntoOwed(s: Store, t: Store, m: multiset<KRef>, inFlight: multiset<KRef>)
    requires Sound(s, inFlight + m)
    requires Owed(t) == Owed(s) + m && t.counts == s.counts
    requires t.objects == s.objects && forall id :: Live(t, id) <==> Live(s, id)
    ensures Sound(t, inFlight)
  {
    hide Owed;
    forall k ensures Count(t, k) == Owed(t)[k] + inFlight[k] {
      assert Count(s, k) == Owed(s)[k] + (inFlight + m)[k];
    }
  }

  /** References some row stops holding are in flight from then on. */
  lemma MoveOutOfOwed(s: Store, t: Store, m: multiset<KRef>, inFlight: multiset<KRef>)
    requires Sound(s, inFlight)
    requires Owed(t) + m == Owed(s) && t.counts == s.counts
    requires t.objects == s.objects && forall id :: Live(t, id) <==> Live(s, id)
    ensures Sound(t, inFlight + m)
  {
    hide Owed;
    forall k ensures Count(t, k) == Owed(t)[k] + (inFlight + m)[k] {
      assert Count(s, k) == Owed(s)[k] + inFlight[k];
      assert (Owed(t) + m)[k] == Owed(s)[k];
    }
  }

  lemma SameRowsSameLife(s: Store, t: Store)
    requires OnlyCountsMoved(s, t)
    ensures forall id :: Live(t, id) <==> Live(s, id)
  {
  }

  lemma IncrementKeepsSound(s: Store, k: KRef, inFlight: multiset<KRef>)
    requires Sound(s, inFlight) && k in s.counts
    ensures Increment(s, k).Done? && OnlyCountsMoved(s, Increment(s, k).store)
    ensures Sound(Increment(s, k).store, inFlight + multiset{k})
  {
    hide Owed, Live;
    var t := Increment(s, k).store;
    SameRowsSameOwed(t, s);
    SameRowsSameLife(s, t);
    forall j ensures Count(t, j) == Owed(t)[j] + (inFlight + multiset{k})[j] {
      assert Count(s, j) == Owed(s)[j] + inFlight[j];
    }
  }

  lemma DecrementKeepsSound(s: Store, k: KRef, inFlight: multiset<KRef>)
    requires Sound(s, inFlight + multiset{k})
    ensures Decrement(s, k).Done? && OnlyCountsMoved(s, Decrement(s, k).store)
    ensures Sound(Decrement(s, k).store, inFlight)
  {
    hide Owed, Live;
    assert Count(s, k) == Owed(s)[k] + (inFlight + multiset{k})[k];
    var t := Decrement(s, k).store;
    SameRowsSameOwed(t, s);
    SameRowsSameLife(s, t);
    forall j ensures Count(t, j) == Owed(t)[j] + inFlight[j] {
      assert Count(s, j) == Owed(s)[j] + (inFlight + multiset{k})[j];
    }
  }

  /** What is owed and what is counted change by the same references. */
  lemma RaiseTogether(s: Store, t: Store, m: multiset<KRef>, inFlight: multiset<KRef>)
    requires Sound(s, inFlight) && WellFormed(t)
    requires Owed(t) == Owed(s) + m && Rose(s, t, m)
    ensures Sound(t, inFlight)
  {
    hide Owed;
    forall k ensures Count(t, k) == Owed(t)[k] + inFlight[k] {
      assert Count(s, k) == Owed(s)[k] + inFlight[k];
      assert Count(t, k) == Count(s, k) + m[k];
    }
  }

  lemma LowerTogether(s: Store, t: Store, m: multiset<KRef>, inFlight: multiset<KRef>)
    requires Sound(s, inFlight) && WellFormed(t)
    requires Owed(t) + m == Owed(s) && Rose(t, s, m)
    ensures Sound(t, inFlight)
  {
    hide Owed;
    forall k ensures Count(t, k) == Owed(t)[k] + inFlight[k] {
      assert Count(s, k) == Owed(s)[k] + inFlight[k];
      assert Count(s, k) == Count(t, k) + m[k];
      assert (Owed(t) + m)[k] == Owed(s)[k];
    }
  }

  lemma EnqueueNotifyKeepsSound(s: Store, endpoint: EndpointId, kpid: nat, immediate: bool, inFlight: multiset<KRef>)
    requires Sound(s, inFlight) && KPromise(kpid) in s.counts
    ensures EnqueueNotify(s, endpoint, kpid, immediate).Done?
    ensures var t := EnqueueNotify(s, endpoint, kpid, immediate).store;
            Sound(t, inFlight) && t.counts.Keys == s.counts.Keys && t.promises == s.promises && t.objects == s.objects && t.held == s.held
  {
    var t := Increment(s, KPromise(kpid)).store;
    IncrementKeepsSound(s, KPromise(kpid), inFlight);
    OwedAppend(t, Notify(endpoint, kpid), immediate);
    MoveIntoOwed(t, Append(t, Notify(endpoint, kpid), immediate), multiset{KPromise(kpid)}, inFlight);
  }

  lemma {:induction false} EnqueueNotifiesKeepsSound(s: Store, subscribers: seq<EndpointId>, kpid: nat, immediate: bool, inFlight: multiset<KRef>)
    requires Sound(s, inFlight) && KPromise(kpid) in s.counts
    ensures EnqueueNotifies(s, subscribers, kpid, immediate).Done?
    ensures var t := EnqueueNotifies(s, subscribers, kpid, immediate).store;
            Sound(t, inFlight) && t.counts.Keys == s.counts.Keys && t.promises == s.promises && t.objects == s.objects && t.held == s.held
    decreases |subscribers|
  {
    if subscribers != [] {
      EnqueueNotifyKeepsSound(s, subscribers[0], kpid, immediate, inFlight);
      EnqueueNotifiesKeepsSound(EnqueueNotify(s, subscribers[0], kpid, immediate).store, subscribers[1..], kpid, immediate, inFlight);
    }
  }

  predicate AllSendsExist(s: Store, target: KRef, messages: seq<Message>) {
    forall i | 0 <= i < |messages| :: AllExist(s, SendRefs(target, messages[i]))
  }

  lemma {:induction false} EnqueueSendsKeepsSound(s: Store, target: KRef, messages: seq<Message>, immediate: bool, inFlight: multiset<KRef>)
    requires Sound(s, inFlight) && AllSendsExist(s, target, messages)
    ensures EnqueueSends(s, target, messages, immediate).Done?
    ensures var t := EnqueueSends(s, target, messages, immediate).store;
            Sound(t, inFlight) && t.counts.Keys == s.counts.Keys && t.promises == s.promises && t.objects == s.objects && t.held == s.held
    decreases |messages|
  {
    if messages != [] {
      EnqueueSendKeepsSound(s, target, messages[0], immediate, inFlight);
      var t := EnqueueSend(s, target, messages[0], immediate).store;
      forall i | 0 <= i < |messages[1..]| ensures AllExist(t, SendRefs(target, messages[1..][i])) {
        assert AllExist(s, SendRefs(target, messages[i + 1]));
      }
      EnqueueSendsKeepsSound(t, target, messages[1..], immediate, inFlight);
    }
  }

  /** A drained queue's entries release exactly what they held. */
  lemma {:induction false} ReleaseQueueKeepsSound(s: Store, target: KRef, queue: seq<Message>, inFlight: multiset<KRef>)
    requires Sound(s, inFlight + RefsOfQueue(target, queue))
    ensures ReleaseQueue(s, target, queue).Done? && Sound(ReleaseQueue(s, target, queue).store, inFlight)
    decreases |queue|
  {
    if queue == [] {
      assert inFlight + RefsOfQueue(target, queue) == inFlight;
    } else {
      var refs, later := SendRefs(target, queue[0]), RefsOfQueue(target, queue[1..]);
      SendRefsAreItemRefs(target, queue[0]);
      assert inFlight + RefsOfQueue(target, queue) == inFlight + later + multiset(refs);
      ReleaseKeepsSound(s, refs, inFlight + later);
      ReleaseQueueKeepsSound(ReleaseAll(s, refs).store, target, queue[1..], inFlight);
    }
  }

  /** Rewriting a promise row moves what the rows hold, and keeps every promise's existence. */
  lemma OwedAfterSetRow(s: Store, id: nat, row: PromiseRow)
    requires id < |s.promises|
    ensures Owed(SetRow(s, id, row)) + RefsOfRow(id, s.promises[id]) == Owed(s) + RefsOfRow(id, row)
  {
    RefsOfPromisesUpdate(s.promises, id, row);
    var before, after := RefsOfPromises(s.promises), RefsOfPromises(s.promises[id := row]);
    var queues := RefsOfItems(s.runQueue) + RefsOfItems(s.crankBuffer);
    forall k ensures (queues + after + s.held + RefsOfRow(id, s.promises[id]))[k] == (queues + before + s.held + RefsOfRow(id, row))[k] {
      assert (after + RefsOfRow(id, s.promises[id]))[k] == (before + RefsOfRow(id, row))[k];
    }
    assert queues + after + s.held + RefsOfRow(id, s.promises[id]) == queues + before + s.held + RefsOfRow(id, row);
  }

  lemma DrainKeepsSound(s: Store, id: nat, inFlight: multiset<KRef>)
    requires Sound(s, inFlight) && Live(s, id)
    ensures var t := SetRow(s, id, s.promises[id].(queue := []));
            Sound(t, inFlight + RefsOfQueue(KPromise(id), s.promises[id].queue))
  {
    hide Owed;
    var t := SetRow(s, id, s.promises[id].(queue := []));
    OwedAfterSetRow(s, id, s.promises[id].(queue := []));
    var queued, state := RefsOfQueue(KPromise(id), s.promises[id].queue), RefsOfState(id, s.promises[id].state);
    assert Owed(t) + (state + queued) == Owed(s) + (state + multiset{});
    Cancel(Owed(t), Owed(s), queued, multiset{}, state);
    MoveOutOfOwed(s, t, queued, inFlight);
  }

  lemma Cancel<T>(a: multiset<T>, b: multiset<T>, x: multiset<T>, y: multiset<T>, common: multiset<T>)
    requires a + (common + x) == b + (common + y)
    ensures a + x == b + y
  {
    forall k ensures (a + x)[k] == (b + y)[k] {
      assert (a + (common + x))[k] == (b + (common + y))[k];
    }
  }

  /** Settling with slots already charged: the row comes to hold them and the decision is released. */
  lemma SettleKeepsSound(s: Store, id: nat, rejected: bool, value: CapData, inFlight: multiset<KRef>)
    requires Sound(s, inFlight + multiset(value.slots))
    requires id < |s.promises| && s.promises[id].state.Unresolved?
    ensures SettlePromise(s, id, rejected, value).Done?
    ensures var t := SettlePromise(s, id, rejected, value).store;
            && Sound(t, inFlight) && t.counts.Keys == s.counts.Keys && t.held == s.held && t.objects == s.objects
            && t.promises == s.promises[id := PromiseRow(Settled(rejected, value), [])]
  {
    var row := s.promises[id];
    var drained := SetRow(s, id, row.(queue := []));
    var f := inFlight + multiset(value.slots);
    DrainKeepsSound(s, id, f);
    ReleaseQueueKeepsSound(drained, KPromise(id), row.queue, f);
    ReleaseQueueKeepsRows(drained, KPromise(id), row.queue);
    var released := ReleaseQueue(drained, KPromise(id), row.queue).store;
    RecordKeepsSound(released, id, rejected, value, inFlight);
  }

  lemma RecordKeepsSound(s: Store, id: nat, rejected: bool, value: CapData, inFlight: multiset<KRef>)
    requires Sound(s, inFlight + multiset(value.slots))
    requires id < |s.promises| && s.promises[id].state.Unresolved? && s.promises[id].queue == []
    ensures var settled := SetRow(s, id, PromiseRow(Settled(rejected, value), []));
            Decrement(settled, KPromise(id)).Done? && Sound(Decrement(settled, KPromise(id)).store, inFlight)
  {
    var row := PromiseRow(Settled(rejected, value), []);
    var slots, unit := multiset(value.slots), multiset{KPromise(id)};
    OwedAfterSetRow(s, id, row);
    EmptyQueueRow(id, s.promises[id]);
    EmptyQueueRow(id, row);
    forall k ensures Live(SetRow(s, id, row), k) <==> Live(s, k) {}
    MoveThrough(s, SetRow(s, id, row), slots, unit, inFlight);
    DecrementKeepsSound(SetRow(s, id, row), KPromise(id), inFlight);
  }

  lemma EmptyQueueRow(id: nat, row: PromiseRow)
    requires row.queue == []
    ensures RefsOfRow(id, row) == RefsOfState(id, row.state)
  {
  }

  /** References in flight that a row comes to hold, in exchange for those it held before. */
  lemma MoveThrough(s: Store, t: Store, gained: multiset<KRef>, lost: multiset<KRef>, inFlight: multiset<KRef>)
    requires Sound(s, inFlight + gained)
    requires Owed(t) + lost == Owed(s) + gained && t.counts == s.counts
    requires t.objects == s.objects && forall id :: Live(t, id) <==> Live(s, id)
    ensures Sound(t, inFlight + lost)
  {
    hide Owed;
    forall k ensures Count(t, k) == Owed(t)[k] + (inFlight + lost)[k] {
      assert Count(s, k) == Owed(s)[k] + (inFlight + gained)[k];
      assert (Owed(t) + lost)[k] == (Owed(s) + gained)[k];
    }
  }

  // ------------------------------------------------------------------ resolving a promise

  /** What a promise's subscribers are owed when it settles. */
  function NotifyItems(subscribers: seq<EndpointId>, kpid: nat): seq<Item> {
    seq(|subscribers|, i requires 0 <= i < |subscribers| => Notify(subscribers[i], kpid))
  }

  /** What was queued on the promise, on its way again. */
  function SendItems(kpid: nat, queue: seq<Message>): seq<Item> {
    seq(|queue|, i requires 0 <= i < |queue| => Send(KPromise(kpid), queue[i]))
  }

  function AppendAll(s: Store, items: seq<Item>, immediate: bool): Store {
    if immediate then s.(runQueue := s.runQueue + items) else s.(crankBuffer := s.crankBuffer + items)
  }

  /** The stores hold the same queues and rows, whatever their counts. */
  predicate SameButCounts(s: Store, t: Store) {
    t == s.(counts := t.counts)
  }

  lemma {:induction false} NotifiesAreQueued(s: Store, subscribers: seq<EndpointId>, kpid: nat, immediate: bool)
    requires KPromise(kpid) in s.counts
    ensures SameButCounts(AppendAll(s, NotifyItems(subscribers, kpid), immediate), EnqueueNotifies(s, subscribers, kpid, immediate).store)
    decreases |subscribers|
  {
    if subscribers != [] {
      var t := EnqueueNotify(s, subscribers[0], kpid, immediate).store;
      NotifiesAreQueued(t, subscribers[1..], kpid, immediate);
      assert NotifyItems(subscribers, kpid) == [Notify(subscribers[0], kpid)] + NotifyItems(subscribers[1..], kpid);
    }
  }

  lemma {:induction false} SendsAreQueued(s: Store, kpid: nat, queue: seq<Message>, immediate: bool)
    requires EnqueueSends(s, KPromise(kpid), queue, immediate).Done?
    ensures SameButCounts(AppendAll(s, SendItems(kpid, queue), immediate), EnqueueSends(s, KPromise(kpid), queue, immediate).store)
    decreases |queue|
  {
    hide ChargeAll;
    if queue != [] {
      ChargeAllRaises(s, SendRefs(KPromise(kpid), queue[0]));
      var t := EnqueueSend(s, KPromise(kpid), queue[0], immediate).store;
      SendsAreQueued(t, kpid, queue[1..], immediate);
      assert SendItems(kpid, queue) == [Send(KPromise(kpid), queue[0])] + SendItems(kpid, queue[1..]);
    }
  }

  lemma {:induction false} QueueHoldsItsMessages(target: KRef, queue: seq<Message>, i: nat)
    requires i < |queue|
    ensures RefsOfItem(Send(target, queue[i])) <= RefsOfQueue(target, queue)
    decreases |queue|
  {
    hide RefsOfItem;
    if i > 0 { QueueHoldsItsMessages(target, queue[1..], i - 1); }
  }

  lemma {:induction false} PromisesHoldTheirRows(rows: seq<PromiseRow>, id: nat)
    requires id < |rows|
    ensures RefsOfRow(id, rows[id]) <= RefsOfPromises(rows)
    decreases |rows|
  {
    if id < |rows| - 1 { PromisesHoldTheirRows(rows[..|rows| - 1], id); }
  }

  /** Everything a message waiting on a promise refers to exists. */
  lemma QueuedRefsExist(s: Store, id: nat, inFlight: multiset<KRef>)
    requires Sound(s, inFlight) && id < |s.promises|
    ensures AllSendsExist(s, KPromise(id), s.promises[id].queue)
  {
    var queue := s.promises[id].queue;
    forall i | 0 <= i < |queue| ensures AllExist(s, SendRefs(KPromise(id), queue[i])) {
      var refs := SendRefs(KPromise(id), queue[i]);
      SendRefsAreItemRefs(KPromise(id), queue[i]);
      QueueHoldsItsMessages(KPromise(id), queue, i);
      PromisesHoldTheirRows(s.promises, id);
      forall j | 0 <= j < |refs| ensures refs[j] in s.counts {
        assert refs[j] in multiset(refs);
        assert Owed(s)[refs[j]] >= RefsOfQueue(KPromise(id), queue)[refs[j]] >= multiset(refs)[refs[j]];
        OwedExists(s, inFlight, refs[j]);
      }
    }
  }

  /** The value's slots, if every one of them exists, are all that resolving needs beside the right to resolve. */
  predicate Resolves(s: Store, who: Agent, r: Resolution) {
    MayResolve(s, who, r.kpid) && AllExist(s, r.value.slots)
  }

  /** What resolving a promise does to the queues and the promise table. */
  predicate ResolvedInto(s: Store, r: Resolution, immediate: bool, t: Store)
    requires r.kpid < |s.promises| && s.promises[r.kpid].state.Unresolved?
  {
    var row := s.promises[r.kpid];
    SameButCounts(
      AppendAll(SetRow(s, r.kpid, PromiseRow(Settled(r.rejected, r.value), [])),
        NotifyItems(row.state.subscribers, r.kpid) + SendItems(r.kpid, row.queue), immediate),
      t)
  }

  /**
   * A legal resolution settles the promise with its value, queues a notify for each subscriber and then
   * every message that waited, and keeps every count equal to what is owed.
   */
  lemma ResolveOneConserves(s: Store, who: Agent, r: Resolution, immediate: bool, inFlight: multiset<KRef>)
    requires Sound(s, inFlight)
    ensures ResolveOne(s, who, r, immediate).Done? <==> Resolves(s, who, r)
    ensures ResolveOne(s, who, r, immediate).Done? ==>
              var t := ResolveOne(s, who, r, immediate).store;
              Sound(t, inFlight) && t.counts.Keys == s.counts.Keys && ResolvedInto(s, r, immediate, t)
  {
    if MayResolve(s, who, r.kpid) {
      ChargeKeepsSound(s, r.value.slots, inFlight);
      if AllExist(s, r.value.slots) {
        var charged := ChargeAll(s, r.value.slots).store;
        QueuedRefsExist(s, r.kpid, inFlight);
        forall i | 0 <= i < |s.promises[r.kpid].queue|
          ensures AllExist(charged, SendRefs(KPromise(r.kpid), s.promises[r.kpid].queue[i]))
        {
          assert AllExist(s, SendRefs(KPromise(r.kpid), s.promises[r.kpid].queue[i]));
        }
        ResolveChargedConserves(charged, r, immediate, inFlight);
      }
    }
  }

  lemma ResolveChargedConserves(s: Store, r: Resolution, immediate: bool, inFlight: multiset<KRef>)
    requires Sound(s, inFlight + multiset(r.value.slots))
    requires r.kpid < |s.promises| && s.promises[r.kpid].state.Unresolved?
    requires AllSendsExist(s, KPromise(r.kpid), s.promises[r.kpid].queue)
    ensures var row := s.promises[r.kpid];
            var outcome := ResolveCharged(s, row.state.subscribers, row.queue, r, immediate);
            outcome.Done? && Sound(outcome.store, inFlight) && outcome.store.counts.Keys == s.counts.Keys
            && ResolvedInto(s, r, immediate, outcome.store)
  {
    hide Owed;
    var row := s.promises[r.kpid];
    assert Live(s, r.kpid);
    EnqueueNotifiesKeepsSound(s, row.state.subscribers, r.kpid, immediate, inFlight + multiset(r.value.slots));
    NotifiesAreQueued(s, row.state.subscribers, r.kpid, immediate);
    var notified := EnqueueNotifies(s, row.state.subscribers, r.kpid, immediate).store;
    SettleKeepsSound(notified, r.kpid, r.rejected, r.value, inFlight);
    SettleMovesRowOnly(notified, r.kpid, r.rejected, r.value);
    var settled := SettlePromise(notified, r.kpid, r.rejected, r.value).store;
    forall i | 0 <= i < |row.queue| ensures AllExist(settled, SendRefs(KPromise(r.kpid), row.queue[i])) {
      assert AllExist(s, SendRefs(KPromise(r.kpid), row.queue[i]));
    }
    EnqueueSendsKeepsSound(settled, KPromise(r.kpid), row.queue, immediate, inFlight);
    SendsAreQueued(settled, r.kpid, row.queue, immediate);
    AppendTwice(SetRow(s, r.kpid, PromiseRow(Settled(r.rejected, r.value), [])),
      NotifyItems(row.state.subscribers, r.kpid), SendItems(r.kpid, row.queue), immediate);
  }

  lemma AppendTwice(s: Store, a: seq<Item>, b: seq<Item>, immediate: bool)
    ensures AppendAll(AppendAll(s, a, immediate), b, immediate) == AppendAll(s, a + b, immediate)
  {
    assert s.runQueue + a + b == s.runQueue + (a + b);
    assert s.crankBuffer + a + b == s.crankBuffer + (a + b);
  }

  lemma SettleMovesRowOnly(s: Store, id: nat, rejected: bool, value: CapData)
    requires id < |s.promises| && SettlePromise(s, id, rejected, value).Done?
    ensures SameButCounts(SetRow(s, id, PromiseRow(Settled(rejected, value), [])), SettlePromise(s, id, rejected, value).store)
  {
    ReleaseQueueKeepsRows(SetRow(s, id, s.promises[id].(queue := [])), KPromise(id), s.promises[id].queue);
  }

  // ------------------------------------------------------------------ what a refusal leaves behind

  /** What charging these references takes, if it is refused partway: nobody holds it. */
  function Unpaid(s: Store, refs: seq<KRef>): multiset<KRef> {
    multiset(refs[..ChargedPrefix(s, refs)])
  }

  function UnpaidByResolution(s: Store, who: Agent, r: Resolution): multiset<KRef> {
    if MayResolve(s, who, r.kpid) then Unpaid(s, r.value.slots) else multiset{}
  }

  /** Charging that is refused leaves the counts right exactly when it was refused at the first reference. */
  lemma RefusedChargeLeaks(s: Store, refs: seq<KRef>, inFlight: multiset<KRef>)
    requires Sound(s, inFlight) && ChargeAll(s, refs).Threw?
    ensures var t := ChargeAll(s, refs).store;
            OnlyCountsMoved(s, t) && Sound(t, inFlight + Unpaid(s, refs)) && (Sound(t, inFlight) <==> refs != [] && refs[0] !in s.counts)
  {
    ChargeKeepsSound(s, refs, inFlight);
    var t := ChargeAll(s, refs).store;
    var n := ChargedPrefix(s, refs);
    assert !AllExist(s, refs) && n < |refs|;
    if n > 0 {
      var k := refs[0];
      assert refs[..n][0] == k && k in multiset(refs[..n]);
      assert Count(t, k) == Owed(t)[k] + (inFlight + multiset(refs[..n]))[k];
    } else {
      assert refs[..n] == [];
      assert inFlight + multiset(refs[..n]) == inFlight;
    }
  }

  /**
   * A refused resolution. Nothing rolls it back outside a crank, and the counts still agree with what is held
   * exactly when it was refused before the first slot was charged: a value whose later slot is missing leaves
   * the slots ahead of it charged to nobody.
   */
  lemma RefusedResolutionLeaks(s: Store, who: Agent, r: Resolution, immediate: bool, inFlight: multiset<KRef>)
    requires Sound(s, inFlight) && ResolveOne(s, who, r, immediate).Threw?
    ensures var t := ResolveOne(s, who, r, immediate).store;
            && OnlyCountsMoved(s, t) && Sound(t, inFlight + UnpaidByResolution(s, who, r))
            && (Sound(t, inFlight) <==> !MayResolve(s, who, r.kpid) || (r.value.slots != [] && r.value.slots[0] !in s.counts))
  {
    ResolveOneConserves(s, who, r, immediate, inFlight);
    if MayResolve(s, who, r.kpid) {
      ChargeKeepsSound(s, r.value.slots, inFlight);
      RefusedChargeLeaks(s, r.value.slots, inFlight);
    } else {
      assert inFlight + multiset{} == inFlight;
    }
  }

  /** So does a refused send: the counts are right exactly when its target was what did not exist. */
  lemma RefusedSendLeaks(s: Store, target: KRef, m: Message, immediate: bool, inFlight: multiset<KRef>)
    requires Sound(s, inFlight) && EnqueueSend(s, target, m, immediate).Threw?
    ensures var t := EnqueueSend(s, target, m, immediate).store;
            && OnlyCountsMoved(s, t) && Sound(t, inFlight + Unpaid(s, SendRefs(target, m)))
            && (Sound(t, inFlight) <==> target !in s.counts)
  {
    RefusedChargeLeaks(s, SendRefs(target, m), inFlight);
  }

  lemma {:induction false} ResolvePromisesConserves(s: Store, who: Agent, rs: seq<Resolution>, immediate: bool, inFlight: multiset<KRef>)
    requires Sound(s, inFlight) && ResolvePromises(s, who, rs, immediate).Done?
    ensures Sound(ResolvePromises(s, who, rs, immediate).store, inFlight)
    ensures ResolvePromises(s, who, rs, immediate).store.counts.Keys == s.counts.Keys
    decreases |rs|
  {
    if rs != [] {
      ResolveOneConserves(s, who, rs[0], immediate, inFlight);
      ResolvePromisesConserves(ResolveOne(s, who, rs[0], immediate).store, who, rs[1..], immediate, inFlight);
    }
  }

  /** A promise is settled at most once, and keeps the value it was settled with through any later resolutions. */
  lemma {:induction false} SettledStaysSettled(s: Store, who: Agent, rs: seq<Resolution>, immediate: bool, id: nat, inFlight: multiset<KRef>)
    requires Sound(s, inFlight) && ResolvePromises(s, who, rs, immediate).Done?
    requires id < |s.promises| && s.promises[id].state.Settled?
    ensures var t := ResolvePromises(s, who, rs, immediate).store;
            id < |t.promises| && t.promises[id] == s.promises[id]
    decreases |rs|
  {
    if rs != [] {
      ResolveOneConserves(s, who, rs[0], immediate, inFlight);
      SettledStaysSettled(ResolveOne(s, who, rs[0], immediate).store, who, rs[1..], immediate, id, inFlight);
    }
  }
}
