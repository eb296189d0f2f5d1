/**
 * The kernel's run queue as the object it is (packages/ocap-kernel/src/KernelQueue.ts): fields updated in
 * place, loops over slots, subscribers, held requests and arrivals. Each method is proved to do to the
 * object's state what the run loop's step function does to its value.
 */
module RunQueue {
  import opened Prelude
  import opened KernelStore
  import opened KernelAccounting
  import opened KernelRouting
  import opened KernelLoop
  import opened LoopFrames
  import PeerArrivals

  // ------------------------------------------------------------------ how the loops meet their functions

  /** Answering a notify's subscriber looks at the promise table alone. */
  lemma AnsweringOneCommutes(q: Q, item: Item, db: Store, wakeSet: bool)
    requires db.promises == q.db.promises
    ensures AnswerOne(q.(db := db, wakeSet := wakeSet), item) == AnswerOne(q, item).(db := db, wakeSet := wakeSet)
  {
  }

  lemma {:induction false} NotifyingCommutes(q: Q, items: seq<Item>, db: Store, wakeSet: bool)
    requires db.promises == q.db.promises
    ensures AnswerNotified(q.(db := db, wakeSet := wakeSet), items) == AnswerNotified(q, items).(db := db, wakeSet := wakeSet)
    decreases |items|
  {
    hide AnswerOne;
    if items != [] {
      AnsweringOneCommutes(q, items[0], db, wakeSet);
      AnsweringOneFrame(q, items[0]);
      NotifyingCommutes(AnswerOne(q, items[0]), items[1..], db, wakeSet);
    }
  }

  lemma {:induction false} NotifyingOneMore(q: Q, items: seq<Item>, item: Item)
    ensures AnswerNotified(q, items + [item]) == AnswerOne(AnswerNotified(q, items), item)
    decreases |items|
  {
    hide AnswerOne;
    if items == [] {
      assert items + [item] == [item] && [item][1..] == [];
      assert AnswerNotified(q, [item]) == AnswerNotified(AnswerOne(q, item), []);
    } else {
      assert (items + [item])[0] == items[0] && (items + [item])[1..] == items[1..] + [item];
      NotifyingOneMore(AnswerOne(q, items[0]), items[1..], item);
    }
  }

  lemma {:induction false} KeptByPrefix(list: seq<PeerArrivals.Arrival>, i: nat, keep: PeerArrivals.Arrival -> bool)
    requires i < |list|
    ensures PeerArrivals.Select(list[..i + 1], keep)
            == PeerArrivals.Select(list[..i], keep) + if keep(list[i]) then [list[i]] else []
  {
    PeerArrivals.SelectConcat(list[..i], [list[i]], keep);
    assert list[..i + 1] == list[..i] + [list[i]];
    assert [list[i]][1..] == [];
  }

  lemma {:induction false} FirstRestart(list: seq<PeerArrivals.Arrival>, peer: PeerArrivals.PeerId, i: nat)
    requires i <= |list| && forall j | 0 <= j < i :: !PeerArrivals.IsRestartOf(list[j], peer)
    requires i < |list| ==> PeerArrivals.IsRestartOf(list[i], peer)
    ensures PeerArrivals.WaitingRestart(list, peer) == i
  {
    var r := PeerArrivals.WaitingRestart(list, peer);
    if r < |list| { assert PeerArrivals.IsRestartOf(list[r], peer); }
  }

  lemma HeldOnwards(held: seq<HeldRequest>, i: nat)
    requires i < |held|
    ensures HoldersOf(held[i..]) == (if held[i].HeldItem? then [] else [held[i].caller]) + HoldersOf(held[i + 1..])
  {
    assert held[i..][1..] == held[i + 1..];
  }

  /** What the run loop's state remembers of its past. */
  datatype Past = Past(rollbacks: nat, lost: multiset<KRef>, savedLost: multiset<KRef>, forsaken: set<nat>, savedListed: seq<Resolution>, torn: bool)

  /**
   * The methods with loops of their own reach the state function's value some other way than it is defined:
   * `ResolvePromises`, `EnqueueSend` and the others that charge, notify or send each of a sequence, `PerformOps`,
   * `WriteHeldRequests`, `DiscardHeldRequests`, `AbandonSubscriptions` and `FailRunLoop`, which answer each of a
   * sequence, `FlushCrankBuffer`, `FindWaitingRestart` and `AcceptRemoteInbound`. The rest make their updates in the
   * source's order, and are here so that every step of the loop is one the object takes: `CallIn`, and `Perform` of
   * the router.
   */
  class KernelQueue {
    // The store, and the savepoint the open crank may be rolled back to.
    var db: Store
    var saved: Store
    var phase: Phase
    var rollbackAllowed: bool
    var subscriptions: seq<Subscription>
    var resolvedInCrank: seq<Resolution>
    var waiters: seq<Caller>
    var held: seq<HeldRequest>
    var controls: seq<ControlRequest>
    var controlInFlight: Option<ControlRequest>
    var ending: Ending
    var wakeSet: bool
    var arrivals: seq<PeerArrivals.Arrival>
    var tookArrivalLast: bool
    // The callbacks called, in order.
    var told: seq<Told>
    ghost var issued: seq<Caller>
    ghost var past: Past

    ghost function View(): Q
      reads this
    {
      Q(db, saved, phase, rollbackAllowed, subscriptions, resolvedInCrank, waiters, held, controls, controlInFlight, ending, wakeSet,
        arrivals, tookArrivalLast, told, issued, past.rollbacks, past.lost, past.savedLost, past.forsaken, past.savedListed, past.torn)
    }

    constructor (store: Store)
      ensures View() == Init(store)
    {
      db, saved, phase, rollbackAllowed := store, store, Idle, true;
      subscriptions, resolvedInCrank, waiters, held, controls, controlInFlight := [], [], [], [], [], None;
      ending, wakeSet, arrivals, tookArrivalLast, told := NotEnding, false, [], false, [];
      issued, past := [], Past(0, multiset{}, multiset{}, {}, [], false);
    }

    // ---------------------------------------------------------------- answering

    method AnswerCaller(caller: Caller, answer: Answer)
      modifies `told
      ensures told == old(told) + [Told(caller, answer)]
    {
      told := told + [Told(caller, answer)];
    }

    method SettleKernelSubscription(kpid: nat, answer: Answer)
      modifies `subscriptions, `told
      ensures View() == AnswerSubscriber(old(View()), kpid, answer)
    {
      var i := FindSubscription(subscriptions, kpid);
      if i < |subscriptions| {
        var caller := subscriptions[i].caller;
        subscriptions := subscriptions[..i] + subscriptions[i + 1..];
        AnswerCaller(caller, answer);
      }
    }

    /** Answer the promise's subscriber with what the store says of it. */
    method InvokeKernelSubscription(kpid: nat)
      modifies `subscriptions, `told
      ensures forall endpoint :: View() == AnswerOne(old(View()), Notify(endpoint, kpid))
    {
      if kpid < |db.promises| && db.promises[kpid].state.Settled? {
        var state := db.promises[kpid].state;
        SettleKernelSubscription(kpid, if state.rejected then RejectedWith(state.value) else Resolved(state.value));
      }
    }

    // ---------------------------------------------------------------- queueing

    /** The run queue has not shrunk, and the loop sleeps on only if it has not grown. */
    twostate predicate Queued()
      reads this
    {
      |old(db).runQueue| <= |db.runQueue| && wakeSet == (old(wakeSet) && |db.runQueue| <= |old(db).runQueue|)
    }

    method EnqueueRun(item: Item)
      modifies `db, `wakeSet
      ensures db == Append(old(db), item, true) && !wakeSet
    {
      db := Append(db, item, true);
      wakeSet := false;
    }

    method ChargeEach(ks: seq<KRef>) returns (threw: bool)
      modifies `db
      ensures db == ChargeAll(old(db), ks).store && (threw <==> ChargeAll(old(db), ks).Threw?)
    {
      threw := false;
      var i := 0;
      while i < |ks| && !threw
        modifies `db
        invariant 0 <= i <= |ks|
        invariant !threw ==> ChargeAll(old(db), ks) == ChargeAll(db, ks[i..])
        invariant threw ==> ChargeAll(old(db), ks) == Threw(db)
      {
        var charged := Increment(db, ks[i]);
        assert ks[i..][1..] == ks[i + 1..];
        db, threw, i := charged.store, charged.Threw?, i + 1;
      }
    }

    method ReleaseEach(ks: seq<KRef>) returns (threw: bool)
      modifies `db
      ensures db == ReleaseAll(old(db), ks).store && (threw <==> ReleaseAll(old(db), ks).Threw?)
    {
      threw := false;
      var i := 0;
      while i < |ks| && !threw
        modifies `db
        invariant 0 <= i <= |ks|
        invariant !threw ==> ReleaseAll(old(db), ks) == ReleaseAll(db, ks[i..])
        invariant threw ==> ReleaseAll(old(db), ks) == Threw(db)
      {
        var released := Decrement(db, ks[i]);
        assert ks[i..][1..] == ks[i + 1..];
        db, threw, i := released.store, released.Threw?, i + 1;
      }
    }

    /** Queue a send: a unit of the target, of the result if there is one, and of each slot. */
    method EnqueueSend(target: KRef, message: KernelStore.Message, immediate: bool) returns (threw: bool)
      modifies `db, `wakeSet
      ensures db == KernelAccounting.EnqueueSend(old(db), target, message, immediate).store
      ensures threw <==> KernelAccounting.EnqueueSend(old(db), target, message, immediate).Threw?
      ensures Queued() && db.promises == old(db).promises
    {
      ghost var refs := SendRefs(target, message);
      ChargeAllRaises(db, refs);
      threw := ChargeEach(SendRefs(target, message));
      if !threw {
        if immediate { EnqueueRun(Send(target, message)); } else { db := Append(db, Send(target, message), false); }
      }
    }

    method EnqueueNotify(endpoint: EndpointId, kpid: nat, immediate: bool) returns (threw: bool)
      modifies `db, `wakeSet
      ensures db == KernelAccounting.EnqueueNotify(old(db), endpoint, kpid, immediate).store
      ensures threw <==> KernelAccounting.EnqueueNotify(old(db), endpoint, kpid, immediate).Threw?
      ensures Queued() && db.promises == old(db).promises
    {
      var charged := Increment(db, KPromise(kpid));
      db, threw := charged.store, charged.Threw?;
      if !threw {
        if immediate { EnqueueRun(Notify(endpoint, kpid)); } else { db := Append(db, Notify(endpoint, kpid), false); }
      }
    }

    method NotifyEach(subscribers: seq<EndpointId>, kpid: nat, immediate: bool) returns (threw: bool)
      modifies `db, `wakeSet
      ensures db == EnqueueNotifies(old(db), subscribers, kpid, immediate).store
      ensures threw <==> EnqueueNotifies(old(db), subscribers, kpid, immediate).Threw?
      ensures Queued() && db.promises == old(db).promises
    {
      threw := false;
      var i := 0;
      while i < |subscribers| && !threw
        modifies `db, `wakeSet
        invariant 0 <= i <= |subscribers| && Queued() && db.promises == old(db).promises
        invariant !threw ==> EnqueueNotifies(old(db), subscribers, kpid, immediate) == EnqueueNotifies(db, subscribers[i..], kpid, immediate)
        invariant threw ==> EnqueueNotifies(old(db), subscribers, kpid, immediate) == Threw(db)
      {
        threw := EnqueueNotify(subscribers[i], kpid, immediate);
        assert subscribers[i..][1..] == subscribers[i + 1..];
        i := i + 1;
      }
    }

    method SendEach(target: KRef, messages: seq<KernelStore.Message>, immediate: bool) returns (threw: bool)
      modifies `db, `wakeSet
      ensures db == EnqueueSends(old(db), target, messages, immediate).store
      ensures threw <==> EnqueueSends(old(db), target, messages, immediate).Threw?
      ensures Queued() && db.promises == old(db).promises
    {
      threw := false;
      var i := 0;
      while i < |messages| && !threw
        modifies `db, `wakeSet
        invariant 0 <= i <= |messages| && Queued() && db.promises == old(db).promises
        invariant !threw ==> EnqueueSends(old(db), target, messages, immediate) == EnqueueSends(db, target, messages[i..], immediate)
        invariant threw ==> EnqueueSends(old(db), target, messages, immediate) == Threw(db)
      {
        threw := EnqueueSend(target, messages[i], immediate);
        assert messages[i..][1..] == messages[i + 1..];
        i := i + 1;
      }
    }
  
    // ---------------------------------------------------------------- resolving

    /** Settle one promise in the store: check, charge, notify, record, and send on what waited. */
    method SettleInStore(who: Agent, r: Resolution, immediate: bool) returns (threw: bool)
      modifies `db, `wakeSet
      ensures var o := ResolveOne(old(db), who, r, immediate); db == o.store && (threw <==> o.Threw?)
      ensures Queued()
      ensures !threw ==> r.kpid < |db.promises| && db.promises[r.kpid].state == Settled(r.rejected, r.value)
    {
      hide ChargeAll, EnqueueNotifies, EnqueueSends, SettlePromise;
      if r.kpid >= |db.promises| || !db.promises[r.kpid].state.Unresolved? || db.promises[r.kpid].state.decider != who {
        return true;
      }
      var subscribers, queue := db.promises[r.kpid].state.subscribers, db.promises[r.kpid].queue;
      threw := ChargeEach(r.value.slots);
      ChargeAllRaises(old(db), r.value.slots);
      if threw { return; }
      threw := NotifyEach(subscribers, r.kpid, immediate);
      if threw { return; }
      SettledRow(db, r);
      var settled := SettlePromise(db, r.kpid, r.rejected, r.value);
      db, threw := settled.store, settled.Threw?;
      if threw { return; }
      threw := SendEach(KPromise(r.kpid), queue, immediate);
    }

    method StoreResolution(who: Agent, r: Resolution, immediate: bool) returns (threw: bool)
      modifies this
      ensures var e := ChargingEffect(old(View()), ResolveOne(old(db), who, r, immediate), UnpaidByResolution(old(db), who, r));
              View() == e.q && threw == e.threw
      ensures !threw ==> r.kpid < |db.promises| && db.promises[r.kpid].state == Settled(r.rejected, r.value)
    {
      hide ResolveOne, UnpaidByResolution;
      threw := SettleInStore(who, r, immediate);
      if threw { past := past.(lost := past.lost + UnpaidByResolution(old(db), who, r)); }
    }

    /** And answer whoever the kernel promised, at once or when the crank is flushed. */
    method ResolveOnePromise(who: Agent, r: Resolution, immediate: bool) returns (threw: bool)
      modifies this
      ensures var e := ResolveStep(old(View()), who, r, immediate); View() == e.q && threw == e.threw
    {
      hide ResolveOne, Settle, FindSubscription, ChargingEffect, AnswerOne, UnpaidByResolution;
      ChargingFrame(View(), ResolveOne(db, who, r, immediate), UnpaidByResolution(db, who, r));
      threw := StoreResolution(who, r, immediate);
      if !threw {
        if immediate {
          SettlingIsInvoking(View(), r);
          label stored:
          InvokeKernelSubscription(r.kpid);
          assert View() == AnswerOne(old@stored(View()), Notify(0, r.kpid));
        } else if FindSubscription(subscriptions, r.kpid) < |subscriptions| {
          resolvedInCrank := resolvedInCrank + [r];
        }
      }
    }

    /** Settle a group of promises, stopping at the first refused. */
    method ResolvePromises(who: Agent, resolutions: seq<Resolution>, immediate: bool) returns (threw: bool)
      modifies this
      ensures var e := ResolveSteps(old(View()), who, resolutions, immediate); View() == e.q && threw == e.threw
    {
      hide ResolveStep;
      threw := false;
      var i := 0;
      while i < |resolutions| && !threw
        invariant 0 <= i <= |resolutions|
        invariant !threw ==> ResolveSteps(old(View()), who, resolutions, immediate) == ResolveSteps(View(), who, resolutions[i..], immediate)
        invariant threw ==> ResolveSteps(old(View()), who, resolutions, immediate) == Effect(View(), true)
      {
        threw := ResolveOnePromise(who, resolutions[i], immediate);
        assert resolutions[i..][1..] == resolutions[i + 1..];
        i := i + 1;
      }
    }

    method SendFrom(target: KRef, message: KernelStore.Message, immediate: bool) returns (threw: bool)
      modifies this
      ensures var e := SendOp(old(View()), target, message, immediate); View() == e.q && threw == e.threw
    {
      hide KernelAccounting.EnqueueSend, Unpaid;
      threw := EnqueueSend(target, message, immediate);
      if threw { past := past.(lost := past.lost + Unpaid(old(db), SendRefs(target, message))); }
    }

    /** A settled promise's subscriber is notified of it, and any other's is remembered. */
    method SubscribeTo(endpoint: EndpointId, kpid: nat, immediate: bool) returns (threw: bool)
      modifies this
      ensures var e := StoreEffect(old(View()), Subscribe(old(db), endpoint, kpid, immediate)); View() == e.q && threw == e.threw
    {
      if kpid >= |db.promises| || db.promises[kpid].state.Deleted? { return true; }
      if db.promises[kpid].state.Settled? {
        threw := EnqueueNotify(endpoint, kpid, immediate);
      } else {
        threw := Adopt(Subscribe(db, endpoint, kpid, immediate));
      }
    }

    /** Everything else an endpoint does is the store's alone. */
    method StoreOp(op: Op) returns (threw: bool)
      modifies this
      ensures var e := StoreEffect(old(View()), ApplyOp(old(db), op)); View() == e.q && threw == e.threw
    {
      hide ApplyOp, StoreEffect;
      threw := Adopt(ApplyOp(db, op));
    }

    /** One thing an endpoint, or a write, makes the kernel do. */
    method PerformOp(op: Op) returns (threw: bool)
      modifies this
      ensures var e := OpStep(old(View()), op); View() == e.q && threw == e.threw
    {
      hide ResolveSteps, StoreEffect, SendOp, Subscribe;
      var isInCrank := phase.InCrank?;
      match op
      case OpResolve(who, rs, immediate) => threw := ResolvePromises(who, rs, immediate || !isInCrank);
      case OpSend(target, message, immediate) => threw := SendFrom(target, message, immediate || !isInCrank);
      case OpSubscribe(endpoint, kpid, immediate) => threw := SubscribeTo(endpoint, kpid, immediate || !isInCrank);
      case _ => threw := StoreOp(op);
    }

    method PerformOps(ops: seq<Op>) returns (threw: bool)
      modifies this
      ensures var e := OpSteps(old(View()), ops); View() == e.q && threw == e.threw
    {
      hide OpStep;
      threw := false;
      var i := 0;
      while i < |ops| && !threw
        invariant 0 <= i <= |ops|
        invariant !threw ==> OpSteps(old(View()), ops) == OpSteps(View(), ops[i..])
        invariant threw ==> OpSteps(old(View()), ops) == Effect(View(), true)
      {
        threw := PerformOp(ops[i]);
        assert ops[i..][1..] == ops[i + 1..];
        i := i + 1;
      }
    }

    // ---------------------------------------------------------------- requests

    /** Whether the store has everything a message refers to. */
    method AllThere(refs: seq<KRef>) returns (there: bool)
      ensures there == AllExist(db, refs)
    {
      var i := 0;
      while i < |refs| && refs[i] in db.counts
        invariant 0 <= i <= |refs| && forall j | 0 <= j < i :: refs[j] in db.counts
      {
        i := i + 1;
      }
      there := i == |refs|;
    }

    /** Send a message whose result is a new promise. */
    method SendFresh(target: KRef, methargs: CapData) returns (threw: bool)
      modifies this
      ensures var e := StoreEffect(old(View()), KernelAccounting.EnqueueSend(InitPromise(old(db)), target,
                                                  KernelStore.Message(methargs, Some(|old(db).promises|)), true));
              View() == e.q && threw == e.threw
    {
      hide KernelAccounting.EnqueueSend;
      var kpid := |db.promises|;
      db := InitPromise(db);
      threw := EnqueueSend(target, KernelStore.Message(methargs, Some(kpid)), true);
    }

    /** Write a message, unless the store no longer has something it refers to. */
    method WriteQueuedMessage(caller: Caller, target: KRef, methargs: CapData) returns (threw: bool)
      modifies this
      ensures var e := WriteMessage(old(View()), caller, target, methargs); View() == e.q && threw == e.threw
    {
      hide KernelAccounting.EnqueueSend, AllExist, InitPromise, StoreEffect;
      threw := false;
      var there := AllThere([target] + methargs.slots);
      if !there {
        AnswerCaller(caller, ObjectDeleted);
        return;
      }
      var kpid := |db.promises|;
      threw := SendFresh(target, methargs);
      // Last: a write that threw leaves no subscription behind.
      if !threw { subscriptions := subscriptions + [Subscription(kpid, caller)]; }
    }

    method WriteOneRequest(h: HeldRequest) returns (threw: bool)
      modifies this
      ensures var e := WriteRequest(old(View()), h); View() == e.q && threw == e.threw
    {
      hide WriteMessage, OpSteps;
      threw := false;
      match h
      case HeldMessage(caller, target, methargs) => threw := WriteQueuedMessage(caller, target, methargs);
      case HeldWrite(caller, ops) =>
        var refused := PerformOps(ops);
        AnswerCaller(caller, if refused then WriteFailed else Performed);
      case HeldItem(item) => EnqueueRun(item);
    }

    /** Hold a request while a crank is open, and write it otherwise. */
    method EnqueueRequest(h: HeldRequest)
      modifies this
      ensures View() == Request(old(View()), h)
    {
      hide WriteRequest;
      if phase.InCrank? {
        held := held + [h];
      } else {
        var threw := WriteOneRequest(h);
        if threw && !h.HeldItem? { AnswerCaller(h.caller, WriteFailed); }
      }
    }

    /** Write what was held, each request taken off the list only once written. */
    method WriteHeldRequests(fault: Option<nat>) returns (threw: bool)
      modifies this
      ensures var e := WriteHeld(old(View()), fault); View() == e.q && threw == e.threw
    {
      hide WriteRequest;
      threw := false;
      var left := fault;
      while held != [] && !threw
        invariant !threw ==> WriteHeld(old(View()), fault) == WriteHeld(View(), left)
        invariant threw ==> WriteHeld(old(View()), fault) == Effect(View(), true)
        decreases |held|, !threw
      {
        if left == Some(0) {
          threw := true;
        } else {
          ghost var before := View();
          WritingFrame(before, held[0]);
          threw := WriteOneRequest(held[0]);
          if !threw {
            held := held[1..];
            left := if left.Some? && left.value > 0 then Some(left.value - 1) else None;
          }
        }
      }
    }

    /** Send a message for a caller outside, who awaits its result. */
    method EnqueueMessage(caller: Caller, target: KRef, methargs: CapData) returns (refused: bool)
      modifies this
      ensures View() == Outside(old(View()), EvMessage(caller, target, methargs)) && refused == Refused(old(View()))
    {
      hide Request;
      refused := phase.Dead? || phase.Ended?;
      if !refused {
        issued := issued + [caller];
        EnqueueRequest(HeldMessage(caller, target, methargs));
      }
    }

    method WriteOutsideCrank(caller: Caller, ops: seq<Op>) returns (refused: bool)
      modifies this
      ensures View() == Outside(old(View()), EvWrite(caller, ops)) && refused == Refused(old(View()))
    {
      hide Request;
      refused := phase.Dead? || phase.Ended?;
      if !refused {
        issued := issued + [caller];
        EnqueueRequest(HeldWrite(caller, ops));
      }
    }

    /** Ask for a vat to be restarted or terminated. */
    method EnqueueVatRequest(item: Item) returns (refused: bool)
      requires IsRequest(item)
      modifies this
      ensures View() == Outside(old(View()), EvRequest(item)) && refused == Refused(old(View()))
    {
      hide Request;
      refused := phase.Dead? || phase.Ended?;
      if !refused { EnqueueRequest(HeldItem(item)); }
    }

    method EnqueueControl(caller: Caller, operation: nat) returns (refused: bool)
      modifies this
      ensures View() == Outside(old(View()), EvControl(caller, operation))
      ensures refused <==> old(phase).Idle? || Refused(old(View())) || !old(ending).NotEnding?
    {
      refused := phase.Idle? || phase.Dead? || phase.Ended? || !ending.NotEnding?;
      if !refused {
        issued := issued + [caller];
        controls := controls + [ControlRequest(caller, operation)];
        wakeSet := false;
      }
    }

    method EndRunLoop()
      modifies this
      ensures View() == Outside(old(View()), EvEnd)
    {
      if phase.Idle? || phase.Dead? || phase.Ended? { return; }
      if ending.NotEnding? { ending := EndAsked; }
      wakeSet := false;
    }

    /** Tell a caller waiting on queued work of the loop's death, or tell it at once. */
    method OnRunLoopDeath(caller: Caller)
      modifies this
      ensures View() == Outside(old(View()), EvRegister(caller))
    {
      issued := issued + [caller];
      if phase.Dead? { AnswerCaller(caller, LoopDied); } else { waiters := waiters + [caller]; }
    }

    // ---------------------------------------------------------------- arrivals from peers

    method FindWaitingRestart(peer: PeerArrivals.PeerId) returns (i: nat)
      ensures i == PeerArrivals.WaitingRestart(arrivals, peer)
    {
      i := 0;
      while i < |arrivals| && !PeerArrivals.IsRestartOf(arrivals[i], peer)
        invariant 0 <= i <= |arrivals|
        invariant forall j | 0 <= j < i :: !PeerArrivals.IsRestartOf(arrivals[j], peer)
      {
        i := i + 1;
      }
      FirstRestart(arrivals, peer, i);
    }

    /** What the remote holds that no committed crank has taken. */
    method UncommittedArrivals(a: PeerArrivals.Message, mark: nat) returns (waiting: seq<PeerArrivals.Arrival>)
      ensures waiting == PeerArrivals.Uncommitted(arrivals, a.remote, a.peer, mark)
    {
      waiting := [];
      ghost var keep := PeerArrivals.UncommittedOf(a.remote, a.peer, mark);
      for i := 0 to |arrivals|
        invariant waiting == PeerArrivals.Select(arrivals[..i], keep)
      {
        KeptByPrefix(arrivals, i, keep);
        if PeerArrivals.IsUncommitted(arrivals[i], a.remote, a.peer, mark) {
          waiting := waiting + [arrivals[i]];
        }
      }
      assert arrivals[..|arrivals|] == arrivals;
    }

    /** Take in a peer's message, unless it is a copy, or the remote or a waiting restart has its share already. */
    method AcceptRemoteInbound(a: PeerArrivals.Message, mark: nat) returns (refused: bool, accepted: bool)
      modifies this
      ensures View() == Outside(old(View()), EvArrival(PeerArrivals.AcceptMessage(a, mark))) && refused == Refused(old(View()))
      ensures !refused ==> (accepted <==> !PeerArrivals.Accept(old(arrivals), a, mark).Refused?)
    {
      hide PeerArrivals.Uncommitted, PeerArrivals.WaitingRestart;
      refused, accepted := phase.Dead? || phase.Ended?, true;
      if refused || a.number <= mark { return; }
      var waiting := UncommittedArrivals(a, mark);
      if PeerArrivals.HoldsNumber(waiting, a.number) { return; }
      if |waiting| >= PeerArrivals.MAX_ARRIVALS_PER_REMOTE { return false, false; }
      hide PeerArrivals.RoomAhead, PeerArrivals.Place, PeerArrivals.HoldsNumber;
      accepted := PlaceArrival(a);
      if accepted { wakeSet := false; }
    }

    /** Put the message last, or ahead of its peer's waiting restart unless that has had its share. */
    method PlaceArrival(a: PeerArrivals.Message) returns (placed: bool)
      modifies `arrivals
      ensures placed == PeerArrivals.RoomAhead(old(arrivals), a.peer)
      ensures arrivals == if placed then PeerArrivals.Place(old(arrivals), a) else old(arrivals)
    {
      var i := FindWaitingRestart(a.peer);
      if i == |arrivals| {
        arrivals := arrivals + [a];
      } else {
        var ahead := arrivals[i].takenAhead + 1;
        if ahead > PeerArrivals.MAX_ARRIVALS_PER_REMOTE { return false; }
        arrivals := arrivals[..i] + [a, arrivals[i].(takenAhead := ahead)] + arrivals[i + 1..];
      }
      placed := true;
    }

    /** Take in a peer's change of incarnation, in place of a restart of the peer that waits already. */
    method AcceptPeerIncarnation(peer: PeerArrivals.PeerId, incarnation: nat, restart: bool) returns (refused: bool)
      modifies this
      ensures View() == Outside(old(View()), EvArrival(PeerArrivals.AcceptChange(peer, incarnation, restart)))
      ensures refused == Refused(old(View()))
    {
      hide PeerArrivals.WaitingRestart;
      refused := phase.Dead? || phase.Ended?;
      if refused { return; }
      var i := FindWaitingRestart(peer);
      if restart && i < |arrivals| {
        arrivals := arrivals[i := arrivals[i].(incarnation := incarnation)];
      } else {
        arrivals := arrivals + [PeerArrivals.Incarnation(peer, incarnation, restart, 0)];
      }
      wakeSet := false;
    }

    method DiscardArrivals()
      modifies this
      ensures View() == Outside(old(View()), EvDiscardArrivals)
    {
      arrivals := [];
    }

    // ---------------------------------------------------------------- the end of the loop

    method AnswerEach(callers: seq<Caller>, answer: Answer)
      modifies `told
      ensures told == TellAll(old(told), callers, answer)
    {
      var i := 0;
      while i < |callers|
        modifies `told
        invariant 0 <= i <= |callers| && TellAll(old(told), callers, answer) == TellAll(told, callers[i..], answer)
      {
        AnswerCaller(callers[i], answer);
        assert callers[i..][1..] == callers[i + 1..];
        i := i + 1;
      }
    }

    method AbandonSubscriptions(answer: Answer)
      modifies `subscriptions, `resolvedInCrank, `told
      ensures View() == KernelLoop.AbandonSubscriptions(old(View()), answer)
    {
      var orphaned := SubscribersOf(subscriptions);
      subscriptions, resolvedInCrank := [], [];
      AnswerEach(orphaned, answer);
    }

    /** Reject the caller of each held message and write; a restart's or a termination's is told elsewhere. */
    method DiscardHeldRequests(answer: Answer)
      modifies `held, `told
      ensures View() == DiscardHeld(old(View()), answer)
    {
      var forgotten := held;
      held := [];
      var i := 0;
      while i < |forgotten|
        modifies `told
        invariant 0 <= i <= |forgotten|
        invariant TellAll(old(told), HoldersOf(forgotten), answer) == TellAll(told, HoldersOf(forgotten[i..]), answer)
      {
        HeldOnwards(forgotten, i);
        if !forgotten[i].HeldItem? { AnswerCaller(forgotten[i].caller, answer); }
        i := i + 1;
      }
    }

    method DismissWaiters()
      modifies `waiters, `told
      ensures waiters == [] && told == TellAll(old(told), old(waiters), LoopDied)
    {
      var abandoned := waiters;
      waiters := [];
      AnswerEach(abandoned, LoopDied);
    }

    method RejectControls()
      modifies `controls, `controlInFlight, `told
      ensures controls == [] && controlInFlight.None?
      ensures told == TellAll(FailControl(old(told), old(controlInFlight)), ControllersOf(old(controls)), LoopDied)
    {
      if controlInFlight.Some? { AnswerCaller(controlInFlight.value.caller, LoopFailure); }
      controlInFlight := None;
      var abandoned := ControllersOf(controls);
      controls := [];
      AnswerEach(abandoned, LoopDied);
    }

    method AnswerEverybody()
      modifies `subscriptions, `resolvedInCrank, `held, `waiters, `controls, `controlInFlight, `told
      ensures View() == old(View()).(subscriptions := [], resolvedInCrank := [], held := [], waiters := [], controls := [],
                                     controlInFlight := None, told := ToldOfDeath(old(View())))
    {
      hide TellAll, SubscribersOf, HoldersOf, ControllersOf;
      AbandonSubscriptions(LoopDied);
      DiscardHeldRequests(LoopDied);
      DismissWaiters();
      RejectControls();
    }

    /** Record the loop's death, and fail everyone who would otherwise wait forever. */
    method FailRunLoop()
      modifies this
      ensures View() == KernelLoop.FailRunLoop(old(View()))
    {
      hide ToldOfDeath;
      MarkDead();
      SameDeath(old(View()), View());
      AnswerEverybody();
    }

    method MarkDead()
      modifies `phase, `ending
      ensures View() == old(View()).(phase := Dead, ending := if old(ending).EndAsked? then EndAnswered else old(ending))
    {
      phase := Dead;
      if ending.EndAsked? { ending := EndAnswered; }
    }

    // ---------------------------------------------------------------- opening a crank

    /** Started, or woken: the loop goes on to look for an item. */
    method GoToTop()
      modifies `phase
      ensures View() == old(View()).(phase := Top)
    {
      phase := Top;
    }

    method TakeOldestArrival() returns (item: Option<LoopItem>)
      modifies `arrivals, `tookArrivalLast
      ensures var taken := TakeArrival(old(View())); View() == taken.q && item == taken.item
    {
      tookArrivalLast := arrivals != [];
      if arrivals == [] { return None; }
      item := Some(ArrivalItem(arrivals[0]));
      arrivals := arrivals[1..];
    }

    method GetNextRunQueueItem(priority: Priority) returns (item: Option<LoopItem>)
      modifies this
      ensures var taken := GetNext(old(View()), priority); View() == taken.q && item == taken.item
    {
      if controls != [] {
        controlInFlight := Some(controls[0]);
        item := Some(ControlItem(controls[0]));
        controls := controls[1..];
        return;
      }
      if priority.GCFirst? { return Some(GCItem); }
      if priority.ReapFirst? { return Some(ReapItem); }
      var arrivalFirst := !tookArrivalLast;
      tookArrivalLast := false;
      if arrivalFirst && arrivals != [] {
        item := TakeOldestArrival();
        return;
      }
      if db.runQueue != [] {
        item := Some(RunItem(db.runQueue[0]));
        db := Dequeue(db);
        return;
      }
      item := TakeOldestArrival();
    }

    method RollbackCrank()
      modifies `db, `past
      ensures View() == RollBack(old(View()))
    {
      db := saved.(crankBuffer := []);
      past := past.(lost := past.savedLost + RefsOfItems(saved.crankBuffer), rollbacks := past.rollbacks + 1);
    }

    /** The database refuses the commit, and is as the crank found it. */
    method LoseCrank()
      modifies `db, `past
      ensures View() == Uncommitted(old(View()))
    {
      past := past.(torn := past.torn || db.crankBuffer != [], lost := past.savedLost + RefsOfItems(saved.crankBuffer));
      db := saved.(crankBuffer := db.crankBuffer);
    }

    method OpenSavepoint()
      modifies `saved, `rollbackAllowed, `past
      ensures View() == Savepoint(old(View()))
    {
      saved, rollbackAllowed := db, true;
      past := past.(savedLost := past.lost, savedListed := resolvedInCrank, rollbacks := 0);
    }

    method BeginCrank(priority: Priority, endFault: bool, heldFault: Option<nat>)
      requires phase.Top?
      modifies this
      ensures View() == Begin(old(View()), priority, endFault, heldFault)
    {
      hide GetNext, KernelLoop.Park, Savepoint;
      if ending.EndAsked? && controls == [] {
        phase, ending := Ended, EndAnswered;
        return;
      }
      OpenSavepoint();
      var item := GetNextRunQueueItem(priority);
      if item.Some? {
        phase := InCrank(item.value, Waiting);
      } else {
        Park(endFault, heldFault);
      }
    }

    /** With nothing to take, wait to be woken. */
    method Park(endFault: bool, heldFault: Option<nat>)
      modifies this
      ensures View() == KernelLoop.Park(old(View()), endFault, heldFault)
    {
      hide KernelLoop.FailRunLoop, WriteHeld, RollBack, Uncommitted;
      if wakeSet {
        RollbackCrank();
        FailRunLoop();
        return;
      }
      wakeSet, phase := true, Parked;
      if endFault {
        LoseCrank();
        FailRunLoop();
        return;
      }
      var threw := WriteHeldRequests(heldFault);
      if threw { FailRunLoop(); }
    }

    // ---------------------------------------------------------------- closing a crank

    method CrankFails(env: Env)
      modifies this
      ensures View() == CrankFailed(old(View()), env)
    {
      hide KernelLoop.FailRunLoop;
      if rollbackAllowed { RollbackCrank(); }
      if env.endFault { LoseCrank(); }
      FailRunLoop();
    }

    /** The vat of an aborted delivery will not handle a retry: reject whoever awaits its message's result. */
    method TellOfVatEnd()
      requires phase.InCrank?
      modifies `subscriptions, `told
      ensures View() == TellOfTermination(old(View()))
    {
      if phase.item.RunItem? && phase.item.item.Send? && phase.item.item.message.result.Some? {
        SettleKernelSubscription(phase.item.item.message.result.value, VatEnded);
      }
    }

    method AbortIfAsked(result: CrankResult, env: Env) returns (threw: bool)
      requires phase.InCrank?
      modifies this
      ensures var e := AbortStep(old(View()), result, env); View() == e.q && threw == e.threw
    {
      hide AnswerSubscriber, LostByReturning, PromisesOf;
      threw := false;
      if result.abort {
        RollbackCrank();
        rollbackAllowed := false;
        if env.rollbackFault { return true; }
        resolvedInCrank := [];
        past := past.(forsaken := past.forsaken + PromisesOf(past.savedListed));
        if result.terminate { TellOfVatEnd(); }
      }
    }

    /** Take what a store operation leaves, waking the loop if the run queue grew. */
    method Adopt(o: Outcome) returns (threw: bool)
      modifies this
      ensures var e := StoreEffect(old(View()), o); View() == e.q && threw == e.threw
    {
      wakeSet := wakeSet && |o.store.runQueue| <= |db.runQueue|;
      db, threw := o.store, o.Threw?;
    }

    method CollectGarbage(env: Env) returns (threw: bool)
      modifies this
      ensures var e := CollectStep(old(View()), env); View() == e.q && threw == e.threw
    {
      hide Collect, StoreEffect;
      threw := Adopt(Collect(db, env.candidates));
      threw := threw || env.collectFault;
    }

    /** Put one buffered item on the run queue, and answer whoever the kernel promised, if it is a notify. */
    method FlushOne(item: Item)
      modifies `db, `wakeSet, `subscriptions, `told
      ensures View() == AnswerOne(old(View()).(db := Append(old(db), item, true), wakeSet := false), item)
    {
      EnqueueRun(item);
      if item.Notify? { InvokeKernelSubscription(item.kpid); }
    }

    /** Move the crank's output to the run queue. A store that refuses one item loses it and what follows. */
    method MoveOutput(fault: Option<nat>) returns (threw: bool)
      modifies this
      ensures var q, items := old(View()), old(db).crankBuffer;
              var n := if fault.Some? && fault.value < |items| then fault.value else |items|;
              var moved := AnswerNotified(WithStore(q, q.db.(runQueue := q.db.runQueue + items[..n], crankBuffer := [])), items[..n]);
              threw == (n < |items|) && View() == if threw then moved.(lost := q.lost + RefsOfItems(items[n..])) else moved
    {
      hide AnswerNotified, Moved, WithStore, RefsOfItems;
      ghost var q := View();
      var items := db.crankBuffer;
      var n := if fault.Some? && fault.value < |items| then fault.value else |items|;
      TakenOff(q);
      db := db.(crankBuffer := []);
      MoveItems(q, items, n);
      AllMoved(q, items, n);
      threw := n < |items|;
      if threw { past := past.(lost := q.lost + RefsOfItems(items[n..])); }
    }

    method MoveItems(ghost q: Q, items: seq<Item>, n: nat)
      requires n <= |items| && View() == Moved(q, items, 0)
      modifies `db, `wakeSet, `subscriptions, `told
      ensures View() == Moved(q, items, n)
    {
      hide AnswerOne, Moved;
      var i := 0;
      while i < n
        modifies `db, `wakeSet, `subscriptions, `told
        invariant 0 <= i <= n && View() == Moved(q, items, i)
      {
        MovedOneMore(q, items, i);
        FlushOne(items[i]);
        i := i + 1;
      }
    }

    /** Answer the callers of promises settled in this crank, each with the value it was settled with. */
    method SettleResolved()
      modifies this
      ensures View() == SettleEach(old(View()), old(resolvedInCrank)).(resolvedInCrank := [])
    {
      hide Settle;
      var resolved := resolvedInCrank;
      var i := 0;
      while i < |resolved|
        modifies `subscriptions, `told
        invariant 0 <= i <= |resolved|
        invariant SettleEach(old(View()), resolved) == SettleEach(View(), resolved[i..])
      {
        assert resolved[i..][1..] == resolved[i + 1..];
        SettleOne(resolved[i]);
        i := i + 1;
      }
      resolvedInCrank := [];
    }

    method SettleOne(r: Resolution)
      modifies `subscriptions, `told
      ensures View() == Settle(old(View()), r)
    {
      hide AnswerSubscriber;
      SettleKernelSubscription(r.kpid, if r.rejected then RejectedWith(r.value) else Resolved(r.value));
    }

    method FlushCrankBuffer(env: Env) returns (threw: bool)
      modifies this
      ensures var e := FlushStep(old(View()), env); View() == e.q && threw == e.threw
    {
      hide AnswerNotified, SettleEach, WithStore, RefsOfItems;
      WholeBuffer(View());
      threw := MoveOutput(env.flushFault);
      if !threw { SettleResolved(); }
    }

    method FlushAndCheck(result: CrankResult, env: Env) returns (threw: bool)
      modifies this
      ensures var e := FlushAndAudit(old(View()), result, env); View() == e.q && threw == e.threw
    {
      hide FlushStep;
      ghost var q := View();
      FlushingFrame(q, env);
      var auditBeforeFlush := rollbackAllowed;
      if auditBeforeFlush && env.auditFault { return true; }
      threw := false;
      if !result.abort { threw := FlushCrankBuffer(env); }
      if !auditBeforeFlush && env.auditFault { threw := true; }
    }

    method AnswerControlled()
      modifies `controlInFlight, `told
      ensures View() == AnswerControl(old(View()))
    {
      if controlInFlight.Some? {
        var caller := controlInFlight.value.caller;
        controlInFlight := None;
        AnswerCaller(caller, Performed);
      }
    }

    /** After a commit: answer the control operation's caller before any held request's failure is thrown. */
    method GoOn(heldFailed: bool)
      modifies this
      ensures View() == Resume(old(View()), heldFailed)
    {
      hide KernelLoop.FailRunLoop, AnswerControl;
      AnswerControlled();
      if heldFailed { FailRunLoop(); } else { phase := Top; }
    }

    method CommitCrank(result: CrankResult, env: Env)
      modifies this
      ensures View() == Commit(old(View()), result, env)
    {
      hide WriteHeld, Resume;
      phase := Top;
      var heldFailed := WriteHeldRequests(env.heldFault);
      if result.afterCommit && !result.abort { phase := AfterCommit(heldFailed); } else { GoOn(heldFailed); }
    }

    /** Collect, audit, flush and commit. */
    method CloseCrank(result: CrankResult, env: Env)
      modifies this
      ensures View() == Close(old(View()), result, env)
    {
      hide KernelLoop.Closing, Commit, CrankFailed, KernelLoop.FailRunLoop, Uncommitted;
      var threw := BringToCommit(result, env);
      if threw {
        CrankFails(env);
      } else if env.endFault {
        LoseCrank();
        FailRunLoop();
      } else {
        CommitCrank(result, env);
      }
    }

    method BringToCommit(result: CrankResult, env: Env) returns (threw: bool)
      modifies this
      ensures var e := KernelLoop.Closing(old(View()), result, env); View() == e.q && threw == e.threw
    {
      hide CollectStep, FlushAndAudit;
      if result.irrevocable { rollbackAllowed := false; }
      threw := CollectGarbage(env);
      if !threw { threw := FlushAndCheck(result, env); }
    }

    /** The delivery has ended, well or badly. */
    method FinishDelivery(end: DeliverEnd, env: Env)
      requires phase.InCrank?
      modifies this
      ensures View() == Finish(old(View()), end, env)
    {
      hide Close, AbortStep, CrankFailed, LostByReturning, PromisesOf;
      if end.DeliverThrew? {
        CrankFails(env);
        return;
      }
      var item := phase.item;
      var result := ResultOf(item, end.result);
      AbortingFrame(View(), result, env);
      var threw := AbortIfAsked(result, env);
      if threw {
        CrankFails(env);
      } else if result.terminate {
        phase := InCrank(item, Terminating(result));
      } else {
        CloseCrank(result, env);
      }
    }

    method VatTerminated(env: Env)
      requires phase.InCrank? && phase.stage.Terminating?
      modifies this
      ensures View() == Terminated(old(View()), env)
    {
      hide Close, CrankFailed;
      var outcome := phase.stage.outcome;
      rollbackAllowed := false;
      if env.terminateFault { CrankFails(env); } else { CloseCrank(outcome, env); }
    }

    method AfterCommitEnded(throws: bool)
      requires phase.AfterCommit?
      modifies this
      ensures View() == Reported(old(View()), throws)
    {
      hide KernelLoop.FailRunLoop, Resume;
      if throws { FailRunLoop(); } else { GoOn(phase.heldFailed); }
    }

    /** A control operation wipes the store, and abandons everybody waiting on what was in it. */
    method WipeStore()
      modifies this
      ensures View() == Wipe(old(View()))
    {
      hide TellAll, HoldersOf, SubscribersOf, EMPTY_STORE;
      AbandonSubscriptions(Discarded);
      DiscardHeldRequests(Discarded);
      db, arrivals := EMPTY_STORE, [];
      past := past.(lost := multiset{}, forsaken := {});
    }

    // ---------------------------------------------------------------- callers, as events

    method Unregister(caller: Caller)
      modifies this
      ensures View() == Outside(old(View()), EvUnregister(caller))
    {
      if caller in waiters {
        waiters := RemoveFirst(waiters, caller);
        AnswerCaller(caller, Withdrawn);
      }
    }

    /** Whatever a caller outside the loop does at one of its waits is a call of one of these methods. */
    method CallIn(e: Event)
      modifies this
      ensures View() == Outside(old(View()), e)
    {
      hide Request, OpSteps, AcceptArrival, KernelLoop.AbandonSubscriptions, DiscardHeld, QueueControl, AskToEnd, Register, Withdraw, IsRequest;
      match e
      case EvMessage(caller, target, methargs) => var _ := EnqueueMessage(caller, target, methargs);
      case EvWrite(caller, ops) => var _ := WriteOutsideCrank(caller, ops);
      case EvRequest(item) => if IsRequest(item) { var _ := EnqueueVatRequest(item); }
      case EvControl(caller, operation) => var _ := EnqueueControl(caller, operation);
      case EvEnd => EndRunLoop();
      case EvArrival(event) => Arrive(event);
      case EvDiscardArrivals => DiscardArrivals();
      case EvDiscardHeld => DiscardHeldRequests(Discarded);
      case EvAbandonSubscriptions => AbandonSubscriptions(Discarded);
      case EvRegister(caller) => OnRunLoopDeath(caller);
      case EvUnregister(caller) => Unregister(caller);
      case EvOps(ops) => var _ := PerformOps(ops);
      case _ =>
    }

    method Arrive(event: PeerArrivals.Accepting)
      modifies this
      ensures View() == Outside(old(View()), EvArrival(event))
    {
      hide AcceptArrival, Outside;
      match event
      case AcceptMessage(a, mark) => var _, _ := AcceptRemoteInbound(a, mark);
      case AcceptChange(peer, incarnation, restart) => var _ := AcceptPeerIncarnation(peer, incarnation, restart);
    }
  }

  /** The queue with `i` of the buffered items moved, and their notifies answered. */
  function Moved(q: Q, items: seq<Item>, i: nat): Q
    requires i <= |items|
  {
    AnswerNotified(q, items[..i]).(db := q.db.(runQueue := q.db.runQueue + items[..i], crankBuffer := []), wakeSet := q.wakeSet && i == 0)
  }

  /** Before anything has moved, only the buffer has been taken. */
  lemma TakenOff(q: Q)
    ensures Moved(q, q.db.crankBuffer, 0) == q.(db := q.db.(crankBuffer := []))
  {
    assert q.db.crankBuffer[..0] == [];
    assert q.db.runQueue + [] == q.db.runQueue;
  }

  lemma MovedOneMore(q: Q, items: seq<Item>, i: nat)
    requires i < |items|
    ensures var before := Moved(q, items, i);
            Moved(q, items, i + 1) == AnswerOne(before.(db := Append(before.db, items[i], true), wakeSet := false), items[i])
  {
    hide AnswerOne, AnswerNotified;
    var answered := AnswerNotified(q, items[..i]);
    assert items[..i + 1] == items[..i] + [items[i]];
    assert q.db.runQueue + items[..i + 1] == q.db.runQueue + items[..i] + [items[i]];
    NotifyingFrame(q, items[..i]);
    NotifyingOneMore(q, items[..i], items[i]);
    AnsweringOneCommutes(answered, items[i], q.db.(runQueue := q.db.runQueue + items[..i + 1], crankBuffer := []), false);
    AnsweringOneFrame(answered, items[i]);
  }

  lemma AllMoved(q: Q, items: seq<Item>, n: nat)
    requires n <= |items|
    ensures Moved(q, items, n)
            == AnswerNotified(WithStore(q, q.db.(runQueue := q.db.runQueue + items[..n], crankBuffer := [])), items[..n])
  {
    hide AnswerOne, AnswerNotified;
    NotifyingFrame(q, items[..n]);
    NotifyingCommutes(q, items[..n], q.db.(runQueue := q.db.runQueue + items[..n], crankBuffer := []), q.wakeSet && n == 0);
  }

  lemma WholeBuffer(q: Q)
    ensures q.db.crankBuffer[..|q.db.crankBuffer|] == q.db.crankBuffer
    ensures Flush(q.db) == q.db.(runQueue := q.db.runQueue + q.db.crankBuffer, crankBuffer := [])
  {
  }

  /** Whom the death of the loop tells depends on who waits, and on nothing else. */
  lemma SameDeath(q: Q, r: Q)
    requires r == q.(phase := r.phase, ending := r.ending)
    ensures ToldOfDeath(r) == ToldOfDeath(q)
  {
  }

  /** A settlement puts its value in the promise's row. */
  lemma SettledRow(s: Store, r: Resolution)
    requires r.kpid < |s.promises|
    ensures var o := SettlePromise(s, r.kpid, r.rejected, r.value);
            && o.store.runQueue == s.runQueue
            && (o.Done? ==> r.kpid < |o.store.promises| && o.store.promises[r.kpid].state == Settled(r.rejected, r.value))
  {
    ReleaseQueueKeepsRows(SetRow(s, r.kpid, s.promises[r.kpid].(queue := [])), KPromise(r.kpid), s.promises[r.kpid].queue);
  }

  /** Answering out of the store is answering with the value just settled. */
  lemma SettlingIsInvoking(q: Q, r: Resolution)
    requires r.kpid < |q.db.promises| && q.db.promises[r.kpid].state == Settled(r.rejected, r.value)
    ensures forall endpoint :: AnswerOne(q, Notify(endpoint, r.kpid)) == Settle(q, r)
  {
    hide Settle;
  }
}
