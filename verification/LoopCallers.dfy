/**
 * No caller of the kernel's queue is lost, and none is answered twice.
 *
 * Whoever sends a message, asks for a write, queues a control operation or waits for queued work is in one
 * of five places until told: the subscriptions, the held requests, the waiters, the control queue, or the
 * control operation in flight. `Account` adds those places up with the callers already told, and every step
 * keeps the account equal to the callers taken in.
 */
module LoopCallers {
  import opened Prelude
  import opened KernelStore
  import opened KernelAccounting
  import opened KernelRouting
  import opened KernelLoop
  import opened LoopFrames
  import PeerArrivals

  function ToldCallers(told: seq<Told>): seq<Caller> {
    seq(|told|, i requires 0 <= i < |told| => told[i].caller)
  }

  function InFlightCaller(control: Option<ControlRequest>): multiset<Caller> {
    if control.Some? then multiset{control.value.caller} else multiset{}
  }

  function Subscribed(q: Q): multiset<Caller> {
    multiset(SubscribersOf(q.subscriptions))
  }

  /** Callers who wait for something other than a message's result. */
  function Elsewhere(q: Q): multiset<Caller> {
    multiset(HoldersOf(q.held)) + multiset(q.waiters) + multiset(ControllersOf(q.controls)) + InFlightCaller(q.controlInFlight)
  }

  /** Callers the queue still owes an answer. */
  function Pending(q: Q): multiset<Caller> {
    Subscribed(q) + Elsewhere(q)
  }

  function Account(q: Q): multiset<Caller> {
    Pending(q) + multiset(ToldCallers(q.told))
  }

  predicate Accounted(q: Q) {
    multiset(q.issued) == Account(q)
  }

  /** Nothing a caller waits in differs but the subscriptions, from which some have been told. */
  predicate OnlyAnswered(q: Q, r: Q) {
    && r.issued == q.issued && r.held == q.held && r.waiters == q.waiters && r.controls == q.controls
    && r.controlInFlight == q.controlInFlight && r.phase == q.phase && r.ending == q.ending
    && Account(r) == Account(q) && Subscribed(r) <= Subscribed(q)
  }

  // ------------------------------------------------------------------ answering subscribers

  lemma ToldOne(told: seq<Told>, t: Told)
    ensures multiset(ToldCallers(told + [t])) == multiset(ToldCallers(told)) + multiset{t.caller}
  {
    assert ToldCallers(told + [t]) == ToldCallers(told) + [t.caller];
  }

  lemma {:induction false} TellAllTells(told: seq<Told>, callers: seq<Caller>, answer: Answer)
    ensures multiset(ToldCallers(TellAll(told, callers, answer))) == multiset(ToldCallers(told)) + multiset(callers)
    decreases |callers|
  {
    if callers != [] {
      ToldOne(told, Told(callers[0], answer));
      TellAllTells(told + [Told(callers[0], answer)], callers[1..], answer);
      assert callers == [callers[0]] + callers[1..];
    }
  }

  lemma SubscriptionRemoved(subs: seq<Subscription>, i: nat)
    requires i < |subs|
    ensures multiset(SubscribersOf(subs)) == multiset(SubscribersOf(subs[..i] + subs[i + 1..])) + multiset{subs[i].caller}
  {
    var callers := SubscribersOf(subs);
    assert callers == callers[..i] + [callers[i]] + callers[i + 1..];
    assert SubscribersOf(subs[..i] + subs[i + 1..]) == callers[..i] + callers[i + 1..];
  }

  lemma AnsweringKeeps(q: Q, kpid: nat, answer: Answer)
    ensures OnlyAnswered(q, AnswerSubscriber(q, kpid, answer))
  {
    var i := FindSubscription(q.subscriptions, kpid);
    if i < |q.subscriptions| {
      AnsweringMoves(q, i, kpid, answer);
    }
  }

  /** The caller answered moves from those subscribed to those told. */
  lemma AnsweringMoves(q: Q, i: nat, kpid: nat, answer: Answer)
    requires i == FindSubscription(q.subscriptions, kpid) && i < |q.subscriptions|
    ensures OnlyAnswered(q, AnswerSubscriber(q, kpid, answer))
  {
    hide SubscribersOf, ToldCallers, OnlyAnswered, FindSubscription;
    var caller, rest := q.subscriptions[i].caller, q.subscriptions[..i] + q.subscriptions[i + 1..];
    SubscriptionRemoved(q.subscriptions, i);
    ToldOne(q.told, Told(caller, answer));
    AnsweredOne(q, rest, q.told + [Told(caller, answer)], caller);
  }

  lemma AnsweredOne(q: Q, subs: seq<Subscription>, told: seq<Told>, caller: Caller)
    requires multiset(SubscribersOf(q.subscriptions)) == multiset(SubscribersOf(subs)) + multiset{caller}
    requires multiset(ToldCallers(told)) == multiset(ToldCallers(q.told)) + multiset{caller}
    ensures OnlyAnswered(q, q.(subscriptions := subs, told := told))
  {
    hide SubscribersOf, ToldCallers, HoldersOf, ControllersOf;
    var r := q.(subscriptions := subs, told := told);
    assert Elsewhere(r) == Elsewhere(q);
    MovedOver(Subscribed(r), Subscribed(q), multiset{caller}, Elsewhere(q), multiset(ToldCallers(q.told)));
  }

  lemma MovedOver<T>(after: multiset<T>, before: multiset<T>, m: multiset<T>, rest: multiset<T>, told: multiset<T>)
    requires before == after + m
    ensures after + rest + (told + m) == before + rest + told
  {
  }

  lemma StoringKeeps(q: Q, o: Outcome)
    ensures OnlyAnswered(q, StoreEffect(q, o).q)
  {
  }

  lemma ChargingKeeps(q: Q, o: Outcome, unpaid: multiset<KRef>)
    ensures OnlyAnswered(q, ChargingEffect(q, o, unpaid).q)
  {
  }

  lemma SettleKeeps(q: Q, r: Resolution)
    ensures OnlyAnswered(q, Settle(q, r))
  {
    AnsweringKeeps(q, r.kpid, if r.rejected then RejectedWith(r.value) else Resolved(r.value));
  }

  lemma {:induction false} SettlingKeeps(q: Q, rs: seq<Resolution>)
    ensures OnlyAnswered(q, SettleEach(q, rs))
    decreases |rs|
  {
    if rs != [] {
      SettleKeeps(q, rs[0]);
      SettlingKeeps(Settle(q, rs[0]), rs[1..]);
    }
  }

  lemma ResolveStepKeeps(q: Q, who: Agent, r: Resolution, immediate: bool)
    ensures OnlyAnswered(q, ResolveStep(q, who, r, immediate).q)
  {
    var o := ResolveOne(q.db, who, r, immediate);
    ChargingKeeps(q, o, UnpaidByResolution(q.db, who, r));
    SettleKeeps(ChargingEffect(q, o, UnpaidByResolution(q.db, who, r)).q, r);
  }

  lemma {:induction false} ResolvingKeeps(q: Q, who: Agent, rs: seq<Resolution>, immediate: bool)
    ensures OnlyAnswered(q, ResolveSteps(q, who, rs, immediate).q)
    decreases |rs|
  {
    if rs != [] {
      ResolveStepKeeps(q, who, rs[0], immediate);
      ResolvingKeeps(ResolveStep(q, who, rs[0], immediate).q, who, rs[1..], immediate);
    }
  }

  lemma OpKeeps(q: Q, op: Op)
    ensures OnlyAnswered(q, OpStep(q, op).q)
  {
    match op
    case OpResolve(who, rs, immediate) => ResolvingKeeps(q, who, rs, AtOnce(q, immediate));
    case OpSend(target, message, immediate) =>
      ChargingKeeps(q, EnqueueSend(q.db, target, message, AtOnce(q, immediate)), Unpaid(q.db, SendRefs(target, message)));
    case OpSubscribe(endpoint, kpid, immediate) => StoringKeeps(q, Subscribe(q.db, endpoint, kpid, AtOnce(q, immediate)));
    case _ => StoringKeeps(q, ApplyOp(q.db, op));
  }

  lemma {:induction false} OpsKeep(q: Q, ops: seq<Op>)
    ensures OnlyAnswered(q, OpSteps(q, ops).q)
    decreases |ops|
  {
    if ops != [] {
      OpKeeps(q, ops[0]);
      OpsKeep(OpStep(q, ops[0]).q, ops[1..]);
    }
  }

  lemma {:induction false} NotifiedKeeps(q: Q, items: seq<Item>)
    ensures OnlyAnswered(q, AnswerNotified(q, items))
    decreases |items|
  {
    if items != [] {
      if items[0].Notify? && items[0].kpid < |q.db.promises| && q.db.promises[items[0].kpid].state.Settled? {
        var state := q.db.promises[items[0].kpid].state;
        SettleKeeps(q, Resolution(items[0].kpid, state.rejected, state.value));
      }
      NotifiedKeeps(AnswerOne(q, items[0]), items[1..]);
    }
  }

  // ------------------------------------------------------------------ requests

  /** A request about to be written or held: its caller, if it has one here. */
  function CallerOf(h: HeldRequest): multiset<Caller> {
    if h.HeldItem? then multiset{} else multiset{h.caller}
  }

  lemma HoldersFirst(held: seq<HeldRequest>)
    requires held != []
    ensures multiset(HoldersOf(held)) == CallerOf(held[0]) + multiset(HoldersOf(held[1..]))
  {
  }

  lemma {:induction false} HoldersLast(held: seq<HeldRequest>, h: HeldRequest)
    ensures multiset(HoldersOf(held + [h])) == multiset(HoldersOf(held)) + CallerOf(h)
    decreases |held|
  {
    if held == [] {
      assert held + [h] == [h] && [h][1..] == [];
      HoldersFirst([h]);
    } else {
      HoldersLast(held[1..], h);
      assert (held + [h])[1..] == held[1..] + [h];
      HoldersFirst(held + [h]);
      HoldersFirst(held);
    }
  }

  /** The account and the places `held` aside. */
  predicate Moved(q: Q, r: Q, caller: multiset<Caller>) {
    && r.issued == q.issued && r.held == q.held && r.waiters == q.waiters && r.controls == q.controls
    && r.controlInFlight == q.controlInFlight && r.phase == q.phase && r.ending == q.ending
    && Account(r) == Account(q) + caller
  }

  lemma TellingPlaces(q: Q, caller: Caller, answer: Answer)
    ensures Moved(q, Tell(q, caller, answer), multiset{caller})
  {
    ToldOne(q.told, Told(caller, answer));
    assert Elsewhere(Tell(q, caller, answer)) == Elsewhere(q);
  }

  lemma SubscribingPlaces(q: Q, s: Subscription)
    ensures Moved(q, q.(subscriptions := q.subscriptions + [s]), multiset{s.caller})
  {
    var r := q.(subscriptions := q.subscriptions + [s]);
    assert SubscribersOf(r.subscriptions) == SubscribersOf(q.subscriptions) + [s.caller];
    assert Elsewhere(r) == Elsewhere(q);
  }

  lemma MovedAfter(q: Q, r: Q, t: Q, caller: multiset<Caller>)
    requires OnlyAnswered(q, r) && Moved(r, t, caller)
    ensures Moved(q, t, caller)
  {
  }

  lemma WritingMessagePlaces(q: Q, caller: Caller, target: KRef, methargs: CapData)
    ensures var w := WriteMessage(q, caller, target, methargs); Moved(q, w.q, if w.threw then multiset{} else multiset{caller})
  {
    if SomeMissing(q.db, target, methargs) {
      TellingPlaces(q, caller, ObjectDeleted);
    } else {
      var o := EnqueueSend(InitPromise(q.db), target, KernelStore.Message(methargs, Some(|q.db.promises|)), true);
      StoringKeeps(q, o);
      var s := StoreEffect(q, o);
      if !s.threw {
        SubscribingPlaces(s.q, Subscription(|q.db.promises|, caller));
        MovedAfter(q, s.q, WriteMessage(q, caller, target, methargs).q, multiset{caller});
      }
    }
  }

  /** Writing a request subscribes or answers its caller, unless the store refuses it. */
  lemma WritingPlaces(q: Q, h: HeldRequest)
    ensures var w := WriteRequest(q, h); Moved(q, w.q, if w.threw then multiset{} else CallerOf(h))
  {
    match h
    case HeldMessage(caller, target, methargs) => WritingMessagePlaces(q, caller, target, methargs);
    case HeldWrite(caller, ops) =>
      OpsKeep(q, ops);
      var done := OpSteps(q, ops);
      TellingPlaces(done.q, caller, if done.threw then WriteFailed else Performed);
      MovedAfter(q, done.q, WriteRequest(q, h).q, multiset{caller});
    case HeldItem(item) => StoringKeeps(q, Done(Append(q.db, item, true)));
  }

  /** Writing what was held answers or subscribes each holder, and empties the list unless a write throws. */
  lemma {:induction false} WritingHeldKeeps(q: Q, fault: Option<nat>)
    ensures var w := WriteHeld(q, fault);
            && w.q.issued == q.issued && w.q.waiters == q.waiters && w.q.controls == q.controls
            && w.q.controlInFlight == q.controlInFlight && w.q.phase == q.phase && w.q.ending == q.ending
            && Account(w.q) == Account(q) && (!w.threw ==> w.q.held == [])
    decreases |q.held|
  {
    if q.held != [] && fault != Some(0) {
      var h := q.held[0];
      WritingPlaces(q, h);
      var first := WriteRequest(q, h);
      if !first.threw {
        HoldersFirst(q.held);
        var next := first.q.(held := q.held[1..]);
        assert Account(next) + CallerOf(h) == Account(first.q);
        SameLeft(Account(next), Account(q), CallerOf(h));
        WritingHeldKeeps(next, if fault.Some? && fault.value > 0 then Some(fault.value - 1) else None);
      }
    }
  }

  lemma SameLeft<T>(a: multiset<T>, b: multiset<T>, c: multiset<T>)
    requires a + c == b + c
    ensures a == b
  {
    forall k ensures a[k] == b[k] { assert (a + c)[k] == (b + c)[k]; }
  }

  /** The places callers wait in are the same, whatever else differs. */
  predicate SamePlaces(q: Q, r: Q) {
    && r.issued == q.issued && r.told == q.told && r.subscriptions == q.subscriptions && r.held == q.held
    && r.waiters == q.waiters && r.controls == q.controls && r.controlInFlight == q.controlInFlight
  }

  lemma SamePlacesAccount(q: Q, r: Q)
    requires SamePlaces(q, r)
    ensures Account(r) == Account(q)
  {
    assert Elsewhere(r) == Elsewhere(q);
  }

  // ------------------------------------------------------------------ the end of the loop

  lemma AbandoningKeeps(q: Q, answer: Answer)
    ensures Account(AbandonSubscriptions(q, answer)) == Account(q)
  {
    TellAllTells(q.told, SubscribersOf(q.subscriptions), answer);
  }

  lemma DiscardingKeeps(q: Q, answer: Answer)
    ensures Account(DiscardHeld(q, answer)) == Account(q)
  {
    TellAllTells(q.told, HoldersOf(q.held), answer);
  }

  lemma DismissingKeeps(q: Q)
    ensures Account(q.(told := TellAll(q.told, q.waiters, LoopDied), waiters := [])) == Account(q)
  {
    TellAllTells(q.told, q.waiters, LoopDied);
  }

  lemma FailingControlKeeps(q: Q)
    ensures Account(q.(told := FailControl(q.told, q.controlInFlight), controlInFlight := None)) == Account(q)
  {
    var r := q.(told := FailControl(q.told, q.controlInFlight), controlInFlight := None);
    if q.controlInFlight.Some? {
      var caller := q.controlInFlight.value.caller;
      ToldOne(q.told, Told(caller, LoopFailure));
      assert Elsewhere(r) + multiset{caller} == Elsewhere(q);
      MovedOver(Elsewhere(r), Elsewhere(q), multiset{caller}, Subscribed(q), multiset(ToldCallers(q.told)));
    }
  }

  lemma DroppingControlsKeeps(q: Q)
    ensures Account(q.(told := TellAll(q.told, ControllersOf(q.controls), LoopDied), controls := [])) == Account(q)
  {
    TellAllTells(q.told, ControllersOf(q.controls), LoopDied);
  }

  /** The death of the loop answers everybody who waits on it. */
  lemma FailingSettlesAll(q: Q)
    ensures Pending(FailRunLoop(q)) == multiset{} && Account(FailRunLoop(q)) == Account(q)
  {
    hide Account, TellAll, HoldersOf;
    var a := AbandonSubscriptions(q, LoopDied);
    AbandoningKeeps(q, LoopDied);
    var b := DiscardHeld(a, LoopDied);
    DiscardingKeeps(a, LoopDied);
    var c := b.(told := TellAll(b.told, b.waiters, LoopDied), waiters := []);
    DismissingKeeps(b);
    var d := c.(told := FailControl(c.told, c.controlInFlight), controlInFlight := None);
    FailingControlKeeps(c);
    var e := d.(told := TellAll(d.told, ControllersOf(d.controls), LoopDied), controls := []);
    DroppingControlsKeeps(d);
    SamePlacesAccount(e, FailRunLoop(q));
    FailingFrame(q);
    NobodyPending(FailRunLoop(q));
  }

  lemma NobodyPending(q: Q)
    requires q.subscriptions == [] && q.held == [] && q.waiters == [] && q.controls == [] && q.controlInFlight.None?
    ensures Pending(q) == multiset{}
  {
  }

  // ------------------------------------------------------------------ the invariant

  /** Where callers can be, by where the loop stands. */
  predicate Placed(q: Q) {
    && (q.controlInFlight.Some? <==> q.phase.InCrank? && q.phase.item.ControlItem?)
    && (q.held != [] ==> q.phase.InCrank? || q.phase == AfterCommit(true))
    && (q.phase.Dead? ==> Pending(q) == multiset{})
    && (q.phase.Ended? ==> q.controls == [])
    && (q.ending.EndAsked? ==> !Refused(q))
    && (q.ending.EndAnswered? ==> Refused(q))
  }

  predicate Ledger(q: Q) {
    Accounted(q) && Placed(q)
  }

  lemma InitHasLedger(db: Store)
    ensures Ledger(Init(db))
  {
  }

  lemma FailingKeeps(q: Q)
    requires Accounted(q)
    ensures Ledger(FailRunLoop(q)) && FailRunLoop(q).phase.Dead?
  {
    hide Account, FailRunLoop;
    FailingSettlesAll(q);
    FailingFrame(q);
  }

  /** Answering subscribers moves nobody else, wherever the loop stands. */
  lemma AnsweredKeepsLedger(q: Q, r: Q)
    requires Ledger(q) && OnlyAnswered(q, r)
    ensures Ledger(r)
  {
    assert Elsewhere(r) == Elsewhere(q);
  }

  // ------------------------------------------------------------------ the loop's own steps

  lemma TakingControlKeeps(q: Q)
    requires q.controlInFlight.None? && q.controls != []
    ensures Account(q.(controls := q.controls[1..], controlInFlight := Some(q.controls[0]))) == Account(q)
  {
    var r := q.(controls := q.controls[1..], controlInFlight := Some(q.controls[0]));
    assert ControllersOf(q.controls) == [q.controls[0].caller] + ControllersOf(q.controls[1..]);
    assert Elsewhere(r) == Elsewhere(q);
  }

  lemma TakingKeeps(q: Q, priority: Priority)
    requires q.controlInFlight.None?
    ensures var taken := GetNext(q, priority);
            && Account(taken.q) == Account(q) && taken.q.issued == q.issued && taken.q.held == q.held
            && taken.q.ending == q.ending && taken.q.phase == q.phase
            && (taken.q.controlInFlight.Some? <==> taken.item.Some? && taken.item.value.ControlItem?)
            && (taken.item.None? ==> q.controls == [])
  {
    hide GetNext, Account;
    TakingFrame(q, priority);
    if q.controls != [] { TakingControlKeeps(q); } else { SamePlacesAccount(q, GetNext(q, priority).q); }
  }

  /** An open crank with nothing to take: the loop parks, or dies trying. */
  lemma ParkingKeeps(q: Q, endFault: bool, heldFault: Option<nat>)
    requires Accounted(q) && q.controlInFlight.None? && q.held == [] && !Refused(q) && !q.ending.EndAnswered?
    ensures Ledger(FailRunLoop(RollBack(q)))
    ensures var parked := q.(wakeSet := true, phase := Parked);
            var written := WriteHeld(parked, heldFault);
            && Ledger(FailRunLoop(Uncommitted(parked))) && Ledger(FailRunLoop(written.q)) && (!written.threw ==> Ledger(written.q))
  {
    hide Account, FailRunLoop, WriteHeld;
    SamePlacesAccount(q, RollBack(q));
    FailingKeeps(RollBack(q));
    var parked := q.(wakeSet := true, phase := Parked);
    SamePlacesAccount(q, parked);
    SamePlacesAccount(q, Uncommitted(parked));
    FailingKeeps(Uncommitted(parked));
    WritingHeldKeeps(parked, heldFault);
    FailingKeeps(WriteHeld(parked, heldFault).q);
  }

  lemma BeginKeeps(q: Q, priority: Priority, endFault: bool, heldFault: Option<nat>)
    requires Ledger(q) && q.phase.Top?
    ensures Ledger(Begin(q, priority, endFault, heldFault))
  {
    hide Account, FailRunLoop, WriteHeld, GetNext;
    if q.ending.EndAsked? && q.controls == [] {
      SamePlacesAccount(q, Begin(q, priority, endFault, heldFault));
    } else {
      var open := Savepoint(q);
      SamePlacesAccount(q, open);
      TakingKeeps(open, priority);
      var taken := GetNext(open, priority);
      if taken.item.Some? {
        SamePlacesAccount(taken.q, Begin(q, priority, endFault, heldFault));
      } else {
        ParkingKeeps(taken.q, endFault, heldFault);
      }
    }
  }

  lemma OnlyAnsweredThrough(q: Q, r: Q, t: Q)
    requires OnlyAnswered(q, r) && OnlyAnswered(r, t)
    ensures OnlyAnswered(q, t)
  {
    hide Account, Subscribed;
  }

  lemma NobodyAnswered(q: Q)
    ensures OnlyAnswered(q, q)
  {
    hide Account, Subscribed;
  }

  lemma RejectingKeeps(q: Q, result: Option<nat>, error: CapData, refs: seq<KRef>)
    ensures OnlyAnswered(q, RejectAndRelease(q, result, error, refs).q)
  {
    hide OnlyAnswered, ResolveSteps, StoreEffect, ReleaseAll;
    NobodyAnswered(q);
    var rejected := RejectResultStep(q, result, error);
    if result.Some? && Live(q.db, result.value) {
      ResolvingKeeps(q, Decider(q.db, result.value), [Resolution(result.value, true, error)], true);
    }
    StoringKeeps(rejected.q, ReleaseAll(rejected.q.db, refs));
    OnlyAnsweredThrough(q, rejected.q, StoreEffect(rejected.q, ReleaseAll(rejected.q.db, refs)).q);
  }

  lemma SamePlacesKeep(q: Q, r: Q)
    requires Ledger(q) && SamePlaces(q, r) && r.ending == q.ending
    requires q.phase.InCrank? && r.phase.InCrank? && r.phase.item == q.phase.item
    ensures Ledger(r)
  {
    SamePlacesAccount(q, r);
    assert Pending(r) == Pending(q);
  }

  lemma StartingKeeps(q: Q, item: LoopItem, running: set<EndpointId>)
    ensures OnlyAnswered(q, StartEffect(q, item, running).0.q)
  {
    hide OnlyAnswered, RejectAndRelease, StoreEffect, HandOver, DeliverRequeue, Decrement;
    NobodyAnswered(q);
    match item
    case RunItem(Send(target, m)) =>
      match RouteOf(q.db, target) {
        case Splat(error) => RejectingKeeps(q, m.result, error, SendRefs(target, m));
        case ToAgent(who, _) =>
          RejectingKeeps(q, m.result, KERNEL_ERROR, ResultRef(m) + [target] + m.methargs.slots);
          StoringKeeps(q, HandOver(q.db, who, m));
        case Requeue(kpid) => StoringKeeps(q, DeliverRequeue(q.db, target, m, kpid));
        case _ =>
      }
    case RunItem(Notify(_, kpid)) => StoringKeeps(q, Decrement(q.db, KPromise(kpid)));
    case _ =>
  }

  lemma ServedKeeps(q: Q, refs: seq<KRef>, who: Agent, result: Option<nat>, failed: bool)
    ensures OnlyAnswered(q, ServedEffect(q, refs, who, result, failed).q)
  {
    hide OnlyAnswered, ResolveSteps, StoreEffect, ReleaseAll;
    NobodyAnswered(q);
    var told := if failed then RejectIfPendingStep(q, who, result, KERNEL_ERROR) else Effect(q, false);
    if result.Some? { ResolvingKeeps(q, who, [Resolution(result.value, true, KERNEL_ERROR)], true); }
    StoringKeeps(told.q, ReleaseAll(told.q.db, refs));
    OnlyAnsweredThrough(q, told.q, StoreEffect(told.q, ReleaseAll(told.q.db, refs)).q);
  }

  lemma ReachingKeeps(q: Q, done: Effect, stage: Stage)
    requires Ledger(q) && q.phase.InCrank? && OnlyAnswered(q, done.q)
    ensures Ledger(Reached(q, done, stage))
  {
    hide Account, Subscribed, Elsewhere, InFlight;
    AnsweredKeepsLedger(q, done.q);
    SamePlacesKeep(done.q, Reached(q, done, stage));
  }

  lemma DeliveringKeeps(q: Q, running: set<EndpointId>)
    requires Ledger(q) && q.phase.InCrank?
    ensures Ledger(DeliverStep(q, running))
  {
    hide Ledger, OnlyAnswered, StartEffect, Reached;
    StartingKeeps(q, q.phase.item, running);
    var (done, stage) := StartEffect(q, q.phase.item, running);
    ReachingKeeps(q, done, stage);
  }

  lemma ServingKeeps(q: Q, failed: bool)
    requires Ledger(q) && q.phase.InCrank? && q.phase.stage.Serving?
    ensures Ledger(ServedStep(q, failed))
  {
    hide Ledger, OnlyAnswered, ServedEffect, Reached;
    var stage := q.phase.stage;
    ServedKeeps(q, stage.refs, stage.who, stage.result, failed);
    ReachingKeeps(q, ServedEffect(q, stage.refs, stage.who, stage.result, failed), Delivered);
  }

  lemma CrankFailedKeeps(q: Q, env: Env)
    requires Accounted(q)
    ensures Ledger(CrankFailed(q, env)) && CrankFailed(q, env).phase.Dead?
  {
    hide Account, FailRunLoop;
    var undone := if q.rollbackAllowed then RollBack(q) else q;
    SamePlacesAccount(q, if env.endFault then Uncommitted(undone) else undone);
    FailingKeeps(if env.endFault then Uncommitted(undone) else undone);
  }

  lemma AbortingKeeps(q: Q, result: CrankResult, env: Env)
    requires Ledger(q) && q.phase.InCrank?
    ensures Ledger(AbortStep(q, result, env).q) && AbortStep(q, result, env).q.phase == q.phase
  {
    if result.abort {
      var back := RollBack(q).(rollbackAllowed := false);
      var cleared := back.(resolvedInCrank := [], forsaken := back.forsaken + PromisesOf(back.savedListed));
      SamePlacesKeep(q, back);
      SamePlacesKeep(q, cleared);
      match q.phase.item {
        case RunItem(Send(_, m)) =>
          if m.result.Some? {
            AnsweringKeeps(cleared, m.result.value, VatEnded);
            AnsweredKeepsLedger(cleared, AnswerSubscriber(cleared, m.result.value, VatEnded));
          }
        case _ =>
      }
    }
  }

  /** Some of the crank's output has moved to the run queue, and its notifies answer subscribers. */
  lemma MovingOutputKeeps(q: Q, moved: seq<Item>, db: Store, lost: multiset<KRef>)
    requires Ledger(q) && q.phase.InCrank?
    ensures var r := AnswerNotified(WithStore(q, db), moved); Ledger(r) && Ledger(r.(lost := lost)) && r.phase == q.phase
  {
    hide Account, Elsewhere, Subscribed, AnswerNotified;
    var before := WithStore(q, db);
    SamePlacesKeep(q, before);
    NotifiedKeeps(before, moved);
    AnsweredKeepsLedger(before, AnswerNotified(before, moved));
    SamePlacesKeep(AnswerNotified(before, moved), AnswerNotified(before, moved).(lost := lost));
  }

  lemma SettlingResolvedKeeps(q: Q)
    requires Ledger(q) && q.phase.InCrank?
    ensures var r := SettleEach(q, q.resolvedInCrank).(resolvedInCrank := []); Ledger(r) && r.phase == q.phase
  {
    hide Account, Elsewhere, Subscribed, SettleEach;
    SettlingKeeps(q, q.resolvedInCrank);
    AnsweredKeepsLedger(q, SettleEach(q, q.resolvedInCrank));
    SamePlacesKeep(SettleEach(q, q.resolvedInCrank), SettleEach(q, q.resolvedInCrank).(resolvedInCrank := []));
  }

  lemma FlushingKeeps(q: Q, env: Env)
    requires Ledger(q) && q.phase.InCrank?
    ensures Ledger(FlushStep(q, env).q) && FlushStep(q, env).q.phase == q.phase
  {
    hide Ledger, AnswerNotified, SettleEach, WithStore, RefsOfItems;
    var items := q.db.crankBuffer;
    if env.flushFault.Some? && env.flushFault.value < |items| {
      var moved := items[..env.flushFault.value];
      MovingOutputKeeps(q, moved, q.db.(runQueue := q.db.runQueue + moved, crankBuffer := []), q.lost + RefsOfItems(items[env.flushFault.value..]));
    } else {
      MovingOutputKeeps(q, items, Flush(q.db), q.lost);
      SettlingResolvedKeeps(AnswerNotified(WithStore(q, Flush(q.db)), items));
    }
  }

  lemma AuditingKeeps(q: Q, result: CrankResult, env: Env)
    requires Ledger(q) && q.phase.InCrank?
    ensures Ledger(FlushAndAudit(q, result, env).q) && FlushAndAudit(q, result, env).q.phase == q.phase
  {
    hide Ledger, FlushStep;
    FlushingKeeps(q, env);
  }

  lemma ResumeKeeps(q: Q, heldFailed: bool)
    requires Accounted(q) && !q.ending.EndAnswered? && (!heldFailed ==> q.held == [])
    ensures Ledger(Resume(q, heldFailed)) && !Resume(q, heldFailed).phase.InCrank?
  {
    var answered := AnswerControl(q);
    if q.controlInFlight.Some? {
      var caller := q.controlInFlight.value.caller;
      ToldOne(q.told, Told(caller, Performed));
      assert Elsewhere(answered) + multiset{caller} == Elsewhere(q);
      MovedOver(Elsewhere(answered), Elsewhere(q), multiset{caller}, Subscribed(q), multiset(ToldCallers(q.told)));
      assert Account(answered) == Account(q);
    }
    if heldFailed { FailingKeeps(answered); }
  }

  lemma CommittingKeeps(q: Q, result: CrankResult, env: Env)
    requires Ledger(q) && q.phase.InCrank? && (q.phase.item.ControlItem? ==> !result.afterCommit)
    ensures Ledger(Commit(q, result, env)) && !Commit(q, result, env).phase.InCrank?
  {
    SamePlacesAccount(q, q.(phase := Top));
    WritingHeldKeeps(q.(phase := Top), env.heldFault);
    var written := WriteHeld(q.(phase := Top), env.heldFault);
    ResumeKeeps(written.q, written.threw);
  }

  lemma CollectingKeeps(q: Q, env: Env)
    requires Ledger(q) && q.phase.InCrank?
    ensures Ledger(CollectStep(q, env).q) && CollectStep(q, env).q.phase == q.phase
  {
    hide Account, Elsewhere, Subscribed, Collect;
    StoringKeeps(q, Collect(q.db, env.candidates));
    AnsweredKeepsLedger(q, CollectStep(q, env).q);
  }

  lemma ClosingKeeps(q: Q, result: CrankResult, env: Env)
    requires Ledger(q) && q.phase.InCrank? && (q.phase.item.ControlItem? ==> !result.afterCommit)
    ensures Ledger(Close(q, result, env)) && !Close(q, result, env).phase.InCrank?
  {
    hide Account, Placed, FailRunLoop, CrankFailed, Closing, Commit;
    ClosingStoreKeeps(q, result, env);
    var closed := Closing(q, result, env);
    CrankFailedKeeps(closed.q, env);
    SamePlacesAccount(closed.q, Uncommitted(closed.q));
    FailingKeeps(Uncommitted(closed.q));
    CommittingKeeps(closed.q, result, env);
  }

  lemma ClosingStoreKeeps(q: Q, result: CrankResult, env: Env)
    requires Ledger(q) && q.phase.InCrank?
    ensures Ledger(Closing(q, result, env).q) && Closing(q, result, env).q.phase == q.phase
  {
    hide Account, Placed, FlushAndAudit, CollectStep;
    var bound := q.(rollbackAllowed := q.rollbackAllowed && !result.irrevocable);
    SamePlacesKeep(q, bound);
    CollectingKeeps(bound, env);
    AuditingKeeps(CollectStep(bound, env).q, result, env);
  }

  /** A vat's death is never awaited after a control operation, which returns no result. */
  predicate EndsVat(q: Q) {
    q.phase.InCrank? && q.phase.stage.Terminating? && q.phase.item.ControlItem? ==> !q.phase.stage.outcome.afterCommit
  }

  lemma FinishingKeeps(q: Q, end: DeliverEnd, env: Env)
    requires Ledger(q) && q.phase.InCrank?
    ensures Ledger(Finish(q, end, env)) && EndsVat(Finish(q, end, env))
  {
    hide Account, CrankFailed, Close, AbortStep;
    CrankFailedKeeps(q, env);
    if end.Returned? {
      var result := ResultOf(q.phase.item, end.result);
      AbortingKeeps(q, result, env);
      var aborted := AbortStep(q, result, env);
      CrankFailedKeeps(aborted.q, env);
      if !aborted.threw {
        if result.terminate {
          SamePlacesKeep(aborted.q, Finish(q, end, env));
        } else {
          ClosingKeeps(aborted.q, result, env);
        }
      }
    }
  }

  lemma TerminatingKeeps(q: Q, env: Env)
    requires Ledger(q) && q.phase.InCrank? && q.phase.stage.Terminating? && EndsVat(q)
    ensures Ledger(Terminated(q, env)) && !Terminated(q, env).phase.InCrank?
  {
    hide Account, Placed, CrankFailed, Close;
    var recorded := q.(rollbackAllowed := false);
    SamePlacesKeep(q, recorded);
    CrankFailedKeeps(recorded, env);
    ClosingKeeps(recorded, q.phase.stage.outcome, env);
  }

  lemma WipingKeeps(q: Q)
    requires Ledger(q) && q.phase.InCrank?
    ensures Ledger(Wipe(q))
  {
    AbandoningKeeps(q, Discarded);
    var a := AbandonSubscriptions(q, Discarded);
    DiscardingKeeps(a, Discarded);
    SamePlacesAccount(DiscardHeld(a, Discarded), Wipe(q));
  }

  // ------------------------------------------------------------------ callers outside the loop

  /** A request's caller waits among the held, or is subscribed or answered. */
  lemma RequestPlaces(q: Q, h: HeldRequest)
    ensures var r := Request(q, h);
            && Account(r) == Account(q) + CallerOf(h) && r.issued == q.issued && r.controlInFlight == q.controlInFlight
            && r.phase == q.phase && r.ending == q.ending && (r.held != [] ==> r.held == q.held || q.phase.InCrank?)
            && r.controls == q.controls
  {
    if q.phase.InCrank? {
      HoldingPlaces(q, h);
    } else {
      hide Account, WriteRequest;
      WritingPlaces(q, h);
      var written := WriteRequest(q, h);
      if written.threw && !h.HeldItem? { TellingPlaces(written.q, h.caller, WriteFailed); }
    }
  }

  lemma HoldingPlaces(q: Q, h: HeldRequest)
    ensures Account(q.(held := q.held + [h])) == Account(q) + CallerOf(h)
  {
    HoldersLast(q.held, h);
    var r := q.(held := q.held + [h]);
    assert Elsewhere(r) == Elsewhere(q) + CallerOf(h);
  }

  /** A caller taken in once it has its place. */
  lemma TakenIn(q: Q, r: Q, caller: Caller)
    requires Ledger(q) && !q.phase.Dead? && r.issued == q.issued + [caller] && Account(r) == Account(q) + multiset{caller}
    requires r.controlInFlight == q.controlInFlight && r.phase == q.phase && r.ending == q.ending
    requires r.held != [] ==> r.held == q.held || q.phase.InCrank?
    requires q.phase.Ended? ==> r.controls == q.controls
    ensures Ledger(r)
  {
    hide Account;
    assert multiset(q.issued + [caller]) == multiset(q.issued) + multiset{caller};
  }

  lemma IssuingPlaces(q: Q, caller: Caller)
    ensures Account(Issue(q, caller)) == Account(q)
  {
    assert Elsewhere(Issue(q, caller)) == Elsewhere(q);
  }

  lemma IssuingRequestKeeps(q: Q, caller: Caller, h: HeldRequest)
    requires Ledger(q) && !Refused(q) && CallerOf(h) == multiset{caller}
    ensures Ledger(Request(Issue(q, caller), h))
  {
    hide Account, Accounted, Request;
    IssuingPlaces(q, caller);
    RequestPlaces(Issue(q, caller), h);
    TakenIn(q, Request(Issue(q, caller), h), caller);
  }

  lemma PlainRequestKeeps(q: Q, item: Item)
    requires Ledger(q) && !Refused(q)
    ensures Ledger(Request(q, HeldItem(item)))
  {
    hide Account, Request;
    RequestPlaces(q, HeldItem(item));
  }

  lemma ControlPlaces(q: Q, caller: Caller, operation: nat)
    ensures Account(QueueControl(q, caller, operation)) == Account(q) + multiset{caller}
  {
    hide HoldersOf, SubscribersOf, ToldCallers, InFlightCaller;
    var r := QueueControl(q, caller, operation);
    assert ControllersOf(r.controls) == ControllersOf(q.controls) + [caller];
    assert Elsewhere(r) == Elsewhere(q) + multiset{caller};
  }

  lemma ControlKeeps(q: Q, caller: Caller, operation: nat)
    requires Ledger(q) && !q.phase.Idle? && !Refused(q)
    ensures Ledger(QueueControl(q, caller, operation))
  {
    hide Account;
    ControlPlaces(q, caller, operation);
    TakenIn(q, QueueControl(q, caller, operation), caller);
  }

  lemma WaitingPlaces(q: Q, r: Q, caller: Caller)
    requires SamePlaces(q.(waiters := r.waiters, issued := r.issued), r)
    requires multiset(r.waiters) == multiset(q.waiters) + multiset{caller}
    ensures Elsewhere(r) == Elsewhere(q) + multiset{caller}
    ensures Account(r) == Account(q) + multiset{caller}
  {
    assert Elsewhere(r) == Elsewhere(q) + multiset{caller};
  }

  lemma DeadRegisteringKeeps(q: Q, caller: Caller)
    requires Ledger(q) && q.phase.Dead?
    ensures Ledger(Register(q, caller))
  {
    hide Account, ToldCallers;
    var r := Register(q, caller);
    TellingPlaces(Issue(q, caller), caller, LoopDied);
    IssuingPlaces(q, caller);
    assert r == Tell(Issue(q, caller), caller, LoopDied);
    assert multiset(r.issued) == multiset(q.issued) + multiset{caller};
    assert Pending(r) == Pending(q);
  }

  lemma RegisteringKeeps(q: Q, caller: Caller)
    requires Ledger(q)
    ensures Ledger(Register(q, caller))
  {
    hide Account, Ledger;
    if q.phase.Dead? {
      DeadRegisteringKeeps(q, caller);
    } else {
      WaitingPlaces(q, Register(q, caller), caller);
      TakenIn(q, Register(q, caller), caller);
    }
  }

  lemma {:induction false} RemovedOnce(callers: seq<Caller>, c: Caller)
    requires c in callers
    ensures multiset(callers) == multiset(RemoveFirst(callers, c)) + multiset{c}
    decreases |callers|
  {
    assert callers == [callers[0]] + callers[1..];
    if callers[0] != c { RemovedOnce(callers[1..], c); }
  }

  lemma UnregisteringKeeps(q: Q, caller: Caller)
    requires Ledger(q) && caller in q.waiters
    ensures Ledger(Withdraw(q, caller))
  {
    hide Account, Elsewhere;
    var gone := q.(waiters := RemoveFirst(q.waiters, caller));
    RemovedOnce(q.waiters, caller);
    WaitingPlaces(gone, q, caller);
    TellingPlaces(gone, caller, Withdrawn);
    assert Withdraw(q, caller) == Tell(gone, caller, Withdrawn);
    assert caller in Pending(q);
  }

  /** What a wait lets in keeps every caller accounted for. */
  lemma OutsideKeeps(q: Q, e: Event)
    requires Ledger(q)
    ensures Ledger(Outside(q, e))
  {
    hide Ledger, Request, OpSteps, AcceptArrival, DiscardHeld, AbandonSubscriptions, QueueControl, AskToEnd, Register, Withdraw;
    match e
    case EvMessage(caller, target, methargs) =>
      if !Refused(q) { IssuingRequestKeeps(q, caller, HeldMessage(caller, target, methargs)); }
    case EvWrite(caller, ops) =>
      if !Refused(q) { IssuingRequestKeeps(q, caller, HeldWrite(caller, ops)); }
    case EvRequest(item) =>
      if !Refused(q) { PlainRequestKeeps(q, item); }
    case EvControl(caller, operation) =>
      if !q.phase.Idle? && !Refused(q) { ControlKeeps(q, caller, operation); }
    case EvEnd => if !Refused(q) { EndingKeeps(q); }
    case EvArrival(event) => ArrivingKeeps(q, event);
    case EvDiscardArrivals => ElseSame(q, q.(arrivals := []));
    case EvDiscardHeld => DiscardingHeldKeeps(q);
    case EvAbandonSubscriptions => AbandoningSubscriptionsKeeps(q);
    case EvRegister(caller) => RegisteringKeeps(q, caller);
    case EvUnregister(caller) => if caller in q.waiters { UnregisteringKeeps(q, caller); }
    case EvOps(ops) => OpsKeepLedger(q, ops);
    case _ =>
  }

  lemma OpsKeepLedger(q: Q, ops: seq<Op>)
    requires Ledger(q)
    ensures Ledger(OpSteps(q, ops).q)
  {
    hide Ledger, OpSteps, OnlyAnswered;
    OpsKeep(q, ops);
    AnsweredKeepsLedger(q, OpSteps(q, ops).q);
  }

  lemma EndingKeeps(q: Q)
    requires Ledger(q) && !Refused(q)
    ensures Ledger(AskToEnd(q))
  {
    hide Ledger;
    NotAnswered(q);
    ElseSame(q, AskToEnd(q));
  }

  lemma NotAnswered(q: Q)
    requires Ledger(q) && !Refused(q)
    ensures !q.ending.EndAnswered?
  {
  }

  lemma ArrivingKeeps(q: Q, event: PeerArrivals.Accepting)
    requires Ledger(q)
    ensures Ledger(AcceptArrival(q, event))
  {
    hide Ledger, AcceptArrival;
    ArrivingFrame(q, event);
    ElseSame(q, AcceptArrival(q, event));
  }

  /** Steps that leave every caller where it was, whatever becomes of `ending` and the rest. */
  lemma ElseSame(q: Q, r: Q)
    requires Ledger(q) && r.issued == q.issued && r.told == q.told && r.subscriptions == q.subscriptions && r.held == q.held
    requires r.waiters == q.waiters && r.controls == q.controls && r.controlInFlight == q.controlInFlight
    requires r.phase == q.phase && (r.ending == q.ending || (r.ending.EndAsked? && !Refused(q)))
    ensures Ledger(r)
  {
    assert Elsewhere(r) == Elsewhere(q);
  }

  lemma DiscardingHeldKeeps(q: Q)
    requires Ledger(q)
    ensures Ledger(DiscardHeld(q, Discarded))
  {
    hide Account, TellAll;
    DiscardingKeeps(q, Discarded);
    var r := DiscardHeld(q, Discarded);
    assert Elsewhere(r) <= Elsewhere(q);
  }

  lemma AbandoningSubscriptionsKeeps(q: Q)
    requires Ledger(q)
    ensures Ledger(AbandonSubscriptions(q, Discarded))
  {
    hide Account, TellAll;
    AbandoningKeeps(q, Discarded);
    var r := AbandonSubscriptions(q, Discarded);
    assert Elsewhere(r) == Elsewhere(q);
  }

  // ------------------------------------------------------------------ every run

  predicate CallersKept(q: Q) {
    Ledger(q) && EndsVat(q)
  }

  /** Every step keeps every caller accounted for. */
  lemma StepKeepsCallers(q: Q, e: Event)
    requires CallersKept(q)
    ensures CallersKept(Step(q, e))
  {
    hide Ledger, Begin, DeliverStep, ServedStep, Finish, Terminated, Wipe, Outside, Reported, Operated;
    match e
    case EvStart => if q.phase.Idle? { TopKeeps(q); }
    case EvBegin(priority, endFault, heldFault) =>
      if q.phase.Top? { BeginKeeps(q, priority, endFault, heldFault); BeginStage(q, priority, endFault, heldFault); }
    case EvDeliver(running) => if InStage(q, true) { DeliveringKeeps(q, running); DeliveringFrame(q, running); }
    case EvServed(failed) => if InStage(q, false) { ServingKeeps(q, failed); ServingFrame(q, failed); }
    case EvWipe => if InStage(q, false) { WipingKeeps(q); WipingStage(q); }
    case EvFinish(end, env) => if MayFinish(q, end) { FinishingKeeps(q, end, env); }
    case EvTerminated(env) =>
      if q.phase.InCrank? && q.phase.stage.Terminating? { TerminatingKeeps(q, env); }
    case EvAfterCommit(throws) => if q.phase.AfterCommit? { ReportingKeeps(q, throws); }
    case EvWake => if q.phase.Parked? { TopKeeps(q); }
    case _ => OutsideKeeps(q, e); OutsideStage(q, e);
  }

  lemma TopKeeps(q: Q)
    requires Ledger(q) && (q.phase.Idle? || q.phase.Parked?)
    ensures Ledger(q.(phase := Top))
  {
    hide Account;
    SamePlacesAccount(q, q.(phase := Top));
  }

  lemma ReportingKeeps(q: Q, throws: bool)
    requires Ledger(q) && q.phase.AfterCommit?
    ensures Ledger(Reported(q, throws)) && !Reported(q, throws).phase.InCrank?
  {
    hide Account, FailRunLoop, Resume;
    FailingKeeps(q);
    ResumeKeeps(q, q.phase.heldFailed);
  }

  lemma ParkingStage(q: Q, heldFault: Option<nat>)
    ensures var parked := q.(wakeSet := true, phase := Parked);
            && FailRunLoop(RollBack(q)).phase.Dead? && FailRunLoop(Uncommitted(parked)).phase.Dead?
            && FailRunLoop(WriteHeld(parked, heldFault).q).phase.Dead? && WriteHeld(parked, heldFault).q.phase.Parked?
  {
    hide FailRunLoop, WriteHeld;
    var parked := q.(wakeSet := true, phase := Parked);
    FailingFrame(RollBack(q));
    FailingFrame(Uncommitted(parked));
    FailingFrame(WriteHeld(parked, heldFault).q);
    WritingHeldFrame(parked, heldFault);
  }

  lemma BeginStage(q: Q, priority: Priority, endFault: bool, heldFault: Option<nat>)
    requires q.phase.Top?
    ensures EndsVat(Begin(q, priority, endFault, heldFault))
  {
    hide GetNext, FailRunLoop, WriteHeld, RollBack, Uncommitted;
    ParkingStage(GetNext(Savepoint(q), priority).q, heldFault);
  }

  lemma WipingStage(q: Q)
    ensures Wipe(q).phase == q.phase
  {
    hide TellAll, HoldersOf, SubscribersOf;
  }

  lemma OutsideStage(q: Q, e: Event)
    ensures Outside(q, e).phase == q.phase
  {
    hide Outside;
    if Quiet(e) { QuietFrame(q, e); } else { ReachingStoreFrame(q, e); }
  }

  lemma {:induction false} RunKeepsCallers(q: Q, events: seq<Event>)
    requires CallersKept(q)
    ensures CallersKept(Run(q, events))
    decreases |events|
  {
    if events != [] {
      StepKeepsCallers(q, events[0]);
      RunKeepsCallers(Step(q, events[0]), events[1..]);
    }
  }

  /**
   * No caller is lost or answered twice, over every run from a new queue, whatever the interleaving and
   * whatever throws: a caller taken in once has either been told, once, or waits in exactly one place.
   * Once the loop has died everybody has been told.
   */
  lemma EveryCallerOnce(db: Store, events: seq<Event>, c: Caller)
    ensures var q := Run(Init(db), events);
            && multiset(q.issued)[c] == Pending(q)[c] + multiset(ToldCallers(q.told))[c]
            && (multiset(q.issued)[c] == 1 ==> (Pending(q)[c] == 1 <==> multiset(ToldCallers(q.told))[c] == 0))
            && (q.phase.Dead? ==> multiset(q.issued) == multiset(ToldCallers(q.told)))
  {
    InitHasLedger(db);
    RunKeepsCallers(Init(db), events);
  }

  /**
   * Outside a crank a live loop holds no request, unless one it is writing has just killed it: so stopping
   * the kernel has none to discard. A stopped loop has no control operation left either.
   */
  lemma NothingHeldOutsideACrank(db: Store, events: seq<Event>)
    ensures var q := Run(Init(db), events);
            && (!q.phase.InCrank? && q.phase != AfterCommit(true) ==> q.held == [])
            && (q.phase.Ended? ==> q.controls == [] && q.controlInFlight.None? && HoldersOf(q.held) == [])
            && (q.controlInFlight.Some? <==> q.phase.InCrank? && q.phase.item.ControlItem?)
  {
    InitHasLedger(db);
    RunKeepsCallers(Init(db), events);
  }

  // ------------------------------------------------------------------ control operations

  /** The closing of a crank reaches its commit point: nothing before it throws. */
  predicate Commits(q: Q, result: CrankResult, env: Env) {
    !Closing(q, result, env).threw && !env.endFault
  }

  predicate ToldSuccess(q: Q, caller: Caller) {
    Told(caller, Performed) in q.told
  }

  lemma {:induction false} TellAllKeeps(told: seq<Told>, callers: seq<Caller>, answer: Answer, t: Told)
    requires answer != t.answer
    ensures t in TellAll(told, callers, answer) <==> t in told
    decreases |callers|
  {
    if callers != [] {
      TellAllKeeps(told + [Told(callers[0], answer)], callers[1..], answer, t);
    }
  }

  lemma FailingTellsNoSuccess(q: Q, caller: Caller)
    ensures ToldSuccess(FailRunLoop(q), caller) <==> ToldSuccess(q, caller)
  {
    hide TellAll, HoldersOf;
    var t := Told(caller, Performed);
    var a := TellAll(q.told, SubscribersOf(q.subscriptions), LoopDied);
    TellAllKeeps(q.told, SubscribersOf(q.subscriptions), LoopDied, t);
    var b := TellAll(a, HoldersOf(q.held), LoopDied);
    TellAllKeeps(a, HoldersOf(q.held), LoopDied, t);
    var c := FailControl(TellAll(b, q.waiters, LoopDied), q.controlInFlight);
    TellAllKeeps(b, q.waiters, LoopDied, t);
    TellAllKeeps(c, ControllersOf(q.controls), LoopDied, t);
  }

  lemma SettlingTellsNoSuccess(q: Q, r: Resolution, caller: Caller)
    ensures ToldSuccess(Settle(q, r), caller) <==> ToldSuccess(q, caller)
  {
  }

  lemma {:induction false} SettlingEachTellsNoSuccess(q: Q, rs: seq<Resolution>, caller: Caller)
    ensures ToldSuccess(SettleEach(q, rs), caller) <==> ToldSuccess(q, caller)
    decreases |rs|
  {
    hide ToldSuccess, Settle;
    if rs != [] {
      SettlingTellsNoSuccess(q, rs[0], caller);
      SettlingEachTellsNoSuccess(Settle(q, rs[0]), rs[1..], caller);
    }
  }

  lemma {:induction false} NotifyingTellsNoSuccess(q: Q, items: seq<Item>, caller: Caller)
    ensures ToldSuccess(AnswerNotified(q, items), caller) <==> ToldSuccess(q, caller)
    decreases |items|
  {
    hide ToldSuccess, Settle;
    if items != [] {
      if items[0].Notify? && items[0].kpid < |q.db.promises| && q.db.promises[items[0].kpid].state.Settled? {
        var state := q.db.promises[items[0].kpid].state;
        SettlingTellsNoSuccess(q, Resolution(items[0].kpid, state.rejected, state.value), caller);
      }
      NotifyingTellsNoSuccess(AnswerOne(q, items[0]), items[1..], caller);
    }
  }

  lemma FlushingTellsNoSuccess(q: Q, result: CrankResult, env: Env, caller: Caller)
    ensures ToldSuccess(FlushAndAudit(q, result, env).q, caller) <==> ToldSuccess(q, caller)
  {
    hide AnswerNotified, SettleEach;
    var items := q.db.crankBuffer;
    if env.flushFault.Some? && env.flushFault.value < |items| {
      var moved := items[..env.flushFault.value];
      NotifyingTellsNoSuccess(WithStore(q, q.db.(runQueue := q.db.runQueue + moved, crankBuffer := [])), moved, caller);
    } else {
      var before := WithStore(q, Flush(q.db));
      NotifyingTellsNoSuccess(before, items, caller);
      var answered := AnswerNotified(before, items);
      SettlingEachTellsNoSuccess(answered, answered.resolvedInCrank, caller);
    }
  }

  lemma CrankFailedTellsNoSuccess(q: Q, env: Env, caller: Caller)
    ensures ToldSuccess(CrankFailed(q, env), caller) <==> ToldSuccess(q, caller)
  {
    hide FailRunLoop;
    var undone := if q.rollbackAllowed then RollBack(q) else q;
    FailingTellsNoSuccess(if env.endFault then Uncommitted(undone) else undone, caller);
  }

  lemma SuccessCounts(q: Q, caller: Caller)
    requires ToldSuccess(q, caller)
    ensures multiset(ToldCallers(q.told))[caller] >= 1
  {
    var i :| 0 <= i < |q.told| && q.told[i] == Told(caller, Performed);
    assert ToldCallers(q.told)[i] == caller;
  }

  /** A crank that does not reach its commit tells nobody of success. */
  lemma UncommittedTellsNoSuccess(q: Q, result: CrankResult, env: Env, caller: Caller)
    requires !Commits(q, result, env)
    ensures Close(q, result, env).phase.Dead?
    ensures ToldSuccess(Close(q, result, env), caller) <==> ToldSuccess(q, caller)
  {
    hide ToldSuccess, FailRunLoop, CrankFailed, Closing;
    var closed := Closing(q, result, env);
    ClosingTellsNoSuccess(q, result, env, caller);
    CrankFailedTellsNoSuccess(closed.q, env, caller);
    SameTold(closed.q, Uncommitted(closed.q), caller);
    FailingTellsNoSuccess(Uncommitted(closed.q), caller);
    DiesOf(closed.q, env);
    FailingFrame(Uncommitted(closed.q));
  }

  lemma ClosingTellsNoSuccess(q: Q, result: CrankResult, env: Env, caller: Caller)
    ensures ToldSuccess(Closing(q, result, env).q, caller) <==> ToldSuccess(q, caller)
  {
    hide ToldSuccess, FlushAndAudit, CollectStep;
    var bound := q.(rollbackAllowed := q.rollbackAllowed && !result.irrevocable);
    SameTold(q, bound, caller);
    CollectingTells(bound, env);
    SameTold(bound, CollectStep(bound, env).q, caller);
    FlushingTellsNoSuccess(CollectStep(bound, env).q, result, env, caller);
  }

  lemma DiesOf(q: Q, env: Env)
    ensures CrankFailed(q, env).phase.Dead?
  {
  }

  lemma CollectingTells(q: Q, env: Env)
    ensures CollectStep(q, env).q.told == q.told
  {
  }

  lemma SameTold(q: Q, r: Q, caller: Caller)
    requires q.told == r.told
    ensures ToldSuccess(q, caller) <==> ToldSuccess(r, caller)
  {
  }

  /** A crank that commits tells the caller of its control operation so. */
  lemma CommittedTellsSuccess(q: Q, env: Env)
    requires q.controlInFlight.Some?
    ensures ToldSuccess(Commit(q, NO_RESULT, env), q.controlInFlight.value.caller)
  {
    hide FailRunLoop, WriteHeld;
    WritingHeldKeeps(q.(phase := Top), env.heldFault);
    var written := WriteHeld(q.(phase := Top), env.heldFault);
    FailingTellsNoSuccess(AnswerControl(written.q), q.controlInFlight.value.caller);
  }

  lemma ClosingTellsSuccess(q: Q, env: Env)
    requires q.controlInFlight.Some? && Commits(q, NO_RESULT, env)
    ensures ToldSuccess(Close(q, NO_RESULT, env), q.controlInFlight.value.caller)
  {
    hide Closing, Commit, ToldSuccess;
    ClosingKeepsControl(q, env);
    CommittedTellsSuccess(Closing(q, NO_RESULT, env).q, env);
  }

  lemma ClosingKeepsControl(q: Q, env: Env)
    ensures Closing(q, NO_RESULT, env).q.controlInFlight == q.controlInFlight
  {
    hide FlushAndAudit, CollectStep, Closed, Collect, LostByFlush;
    var bound := q.(rollbackAllowed := q.rollbackAllowed && !NO_RESULT.irrevocable);
    CollectingFrame(bound, env);
    AuditingFrame(CollectStep(bound, env).q, NO_RESULT, env);
  }

  /**
   * A control operation's caller is told once, and told of success exactly when the operation's crank
   * commits, even if a request held meanwhile then kills the loop.
   */
  lemma ControlAnsweredByItsCommit(q: Q, end: DeliverEnd, env: Env)
    requires CallersKept(q) && MayFinish(q, end) && q.phase.item.ControlItem?
    requires multiset(q.issued)[q.controlInFlight.value.caller] == 1
    ensures var c, r := q.controlInFlight.value.caller, Finish(q, end, env);
            && multiset(ToldCallers(r.told))[c] == 1
            && (ToldSuccess(r, c) <==> end.Returned? && Commits(q, NO_RESULT, env))
  {
    hide ToldSuccess, FailRunLoop, CrankFailed, Close, Commits;
    var c := q.controlInFlight.value.caller;
    assert Pending(q)[c] >= 1;
    assert !ToldSuccess(q, c) by { if ToldSuccess(q, c) { SuccessCounts(q, c); } }
    StepKeepsCallers(q, EvFinish(end, env));
    var r := Finish(q, end, env);
    if end.DeliverThrew? {
      CrankFailedTellsNoSuccess(q, env, c);
      DiesOf(q, env);
    } else if !Commits(q, NO_RESULT, env) {
      UncommittedTellsNoSuccess(q, NO_RESULT, env, c);
    } else {
      ClosingTellsSuccess(q, env);
      SuccessCounts(r, c);
    }
    FinishingFrame(q, end, env);
  }
}
