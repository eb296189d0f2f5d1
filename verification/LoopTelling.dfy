/**
 * What callers are told (packages/ocap-kernel/src/KernelQueue.ts:420-453, 700-850, 1083-1110): of a write, how it
 * went; of a message, what its result settled with; of an end, which it was.
 */
module LoopTelling {
  import opened Prelude
  import opened KernelStore
  import opened KernelAccounting
  import opened KernelRouting
  import opened KernelLoop
  import opened LoopFrames
  import LoopConservation
  import LoopAnswers

  // ------------------------------------------------------------------ operations made at once

  /** The operation with its output queued at once, as it is whenever no crank is open. */
  function MadeAtOnce(op: Op): Op {
    match op
    case OpSend(target, m, _) => OpSend(target, m, true)
    case OpResolve(who, rs, _) => OpResolve(who, rs, true)
    case OpSubscribe(endpoint, kpid, _) => OpSubscribe(endpoint, kpid, true)
    case _ => op
  }

  function AllMadeAtOnce(ops: seq<Op>): seq<Op> {
    if ops == [] then [] else [MadeAtOnce(ops[0])] + AllMadeAtOnce(ops[1..])
  }

  /** Answers are only added, each of them the value of a promise, told to somebody who awaited one. */
  predicate OnlyAnswers(q: Q, r: Q) {
    && |q.told| <= |r.told| && r.told[..|q.told|] == q.told
    && (forall i | |q.told| <= i < |r.told| :: r.told[i].answer.Resolved? || r.told[i].answer.RejectedWith?)
    && (forall i | |q.told| <= i < |r.told| :: Awaited(q, r.told[i].caller))
    && (forall i | 0 <= i < |r.subscriptions| :: r.subscriptions[i] in q.subscriptions)
  }

  predicate Awaited(q: Q, caller: Caller) {
    exists i | 0 <= i < |q.subscriptions| :: q.subscriptions[i].caller == caller
  }

  lemma OnlyAnswersSelf(q: Q, r: Q)
    requires r.told == q.told && r.subscriptions == q.subscriptions
    ensures OnlyAnswers(q, r)
  {
  }

  lemma OnlyAnswersThrough(q: Q, r: Q, t: Q)
    requires OnlyAnswers(q, r) && OnlyAnswers(r, t)
    ensures OnlyAnswers(q, t)
  {
    forall i | |q.told| <= i < |t.told|
      ensures t.told[i].answer.Resolved? || t.told[i].answer.RejectedWith?
      ensures Awaited(q, t.told[i].caller)
    {
      if i < |r.told| {
        assert t.told[i] == r.told[i];
      } else {
        var j :| 0 <= j < |r.subscriptions| && r.subscriptions[j].caller == t.told[i].caller;
        var k :| 0 <= k < |q.subscriptions| && q.subscriptions[k] == r.subscriptions[j];
      }
    }
    assert forall i | 0 <= i < |q.told| :: t.told[i] == r.told[i];
  }

  lemma SettlingAnswers(q: Q, r: Resolution)
    ensures OnlyAnswers(q, Settle(q, r))
  {
    hide FindSubscription;
    var i := FindSubscription(q.subscriptions, r.kpid);
    if i < |q.subscriptions| { assert Awaited(q, q.subscriptions[i].caller); }
  }

  lemma ResolveStepAnswers(q: Q, who: Agent, r: Resolution, immediate: bool)
    ensures OnlyAnswers(q, ResolveStep(q, who, r, immediate).q)
  {
    hide ResolveOne, ChargingEffect, Settle, UnpaidByResolution, OnlyAnswers, FindSubscription;
    var o, unpaid := ResolveOne(q.db, who, r, immediate), UnpaidByResolution(q.db, who, r);
    ChargingFrame(q, o, unpaid);
    var stored := ChargingEffect(q, o, unpaid).q;
    OnlyAnswersSelf(q, stored);
    OnlyAnswersSelf(q, stored.(resolvedInCrank := stored.resolvedInCrank + [r]));
    SettlingAnswers(stored, r);
    OnlyAnswersThrough(q, stored, Settle(stored, r));
  }

  lemma {:induction false} ResolvingIsRun(q: Q, who: Agent, rs: seq<Resolution>, immediate: bool)
    ensures var e, o := ResolveSteps(q, who, rs, immediate), ResolvePromises(q.db, who, rs, immediate);
            e.q.db == o.store && (e.threw <==> o.Threw?) && OnlyAnswers(q, e.q)
    decreases |rs|
  {
    hide ResolveStep, ResolveOne, OnlyAnswers;
    OnlyAnswersSelf(q, q);
    if rs != [] {
      var first := ResolveStep(q, who, rs[0], immediate);
      ResolvingOneFrame(q, who, rs[0], immediate);
      ResolveStepAnswers(q, who, rs[0], immediate);
      ResolvingIsRun(first.q, who, rs[1..], immediate);
      if !first.threw { OnlyAnswersThrough(q, first.q, ResolveSteps(q, who, rs, immediate).q); }
    }
  }

  lemma OpIsRun(q: Q, op: Op)
    ensures var e, o := OpStep(q, op), ApplyOp(q.db, if q.phase.InCrank? then op else MadeAtOnce(op));
            e.q.db == o.store && (e.threw <==> o.Threw?) && OnlyAnswers(q, e.q)
  {
    hide ResolveSteps, ResolvePromises, EnqueueSend, Subscribe, StoreEffect, ChargingEffect, Unpaid, OnlyAnswers, Hold, Drop, Revoke, Orphan, InitPromise,
         NewObject, SetDecider;
    match op
    case OpResolve(who, rs, immediate) => ResolvingIsRun(q, who, rs, AtOnce(q, immediate));
    case OpSend(target, m, immediate) =>
      ChargingFrame(q, EnqueueSend(q.db, target, m, AtOnce(q, immediate)), Unpaid(q.db, SendRefs(target, m)));
      OnlyAnswersSelf(q, OpStep(q, op).q);
    case OpSubscribe(endpoint, kpid, immediate) =>
      StoringFrame(q, Subscribe(q.db, endpoint, kpid, AtOnce(q, immediate)));
      OnlyAnswersSelf(q, OpStep(q, op).q);
    case _ =>
      StoringFrame(q, ApplyOp(q.db, op));
      OnlyAnswersSelf(q, OpStep(q, op).q);
  }

  lemma {:induction false} OpsAreRun(q: Q, ops: seq<Op>)
    ensures var e, o := OpSteps(q, ops), RunOps(q.db, if q.phase.InCrank? then ops else AllMadeAtOnce(ops));
            e.q.db == o.store && (e.threw <==> o.Threw?) && OnlyAnswers(q, e.q)
    decreases |ops|
  {
    hide OpStep, ApplyOp, MadeAtOnce, OnlyAnswers;
    OnlyAnswersSelf(q, q);
    if ops != [] {
      var first, all := OpStep(q, ops[0]), AllMadeAtOnce(ops);
      assert all[0] == MadeAtOnce(ops[0]) && all[1..] == AllMadeAtOnce(ops[1..]);
      OpIsRun(q, ops[0]);
      OperatingFrame(q, ops[0]);
      OpsAreRun(first.q, ops[1..]);
      if !first.threw { OnlyAnswersThrough(q, first.q, OpSteps(q, ops).q); }
    }
  }

  /**
   * Work on the store does what its operations do, one after the other up to the first that throws: within a crank as
   * they ask, outside of any at once. It tells nobody but those who await what it resolves, and of nothing else.
   */
  lemma WorkIsDone(q: Q, ops: seq<Op>)
    ensures var r := Step(q, EvOps(ops));
            && r.db == RunOps(q.db, if q.phase.InCrank? then ops else AllMadeAtOnce(ops)).store
            && OnlyAnswers(q, r)
  {
    hide OpSteps, RunOps, OnlyAnswers;
    OpsAreRun(q, ops);
  }

  // ------------------------------------------------------------------ requests

  /** Everything the message names exists. */
  predicate NamesExist(s: Store, target: KRef, slots: seq<KRef>) {
    target in s.counts && forall i | 0 <= i < |slots| :: slots[i] in s.counts
  }

  /** A message written: sent with a new promise for its result, which its caller awaits. */
  predicate MessageSent(q: Q, caller: Caller, target: KRef, methargs: CapData, r: Q) {
    var kpid := |q.db.promises|;
    && r.told == q.told && r.subscriptions == q.subscriptions + [Subscription(kpid, caller)]
    && r.db.promises == q.db.promises + [PromiseRow(Unresolved(Nobody, []), [])]
    && r.db.runQueue == q.db.runQueue + [Send(target, KernelStore.Message(methargs, Some(kpid)))] && r.db.crankBuffer == q.db.crankBuffer
  }

  /** A write made: its caller is told last, and told that it was performed exactly if the store took all of it. */
  predicate WriteMade(q: Q, caller: Caller, ops: seq<Op>, r: Q) {
    && r.db == RunOps(q.db, AllMadeAtOnce(ops)).store
    && |r.told| > |q.told| && r.told[..|q.told|] == q.told
    && r.told[|r.told| - 1] == Told(caller, if RunOps(q.db, AllMadeAtOnce(ops)).Done? then Performed else WriteFailed)
    && (forall i | |q.told| <= i < |r.told| - 1 :: (r.told[i].answer.Resolved? || r.told[i].answer.RejectedWith?) && Awaited(q, r.told[i].caller))
  }

  /** What writing a request makes of the queue. */
  predicate Written(q: Q, h: HeldRequest, r: Q) {
    match h
    case HeldMessage(caller, target, methargs) =>
      if NamesExist(q.db, target, methargs.slots) then MessageSent(q, caller, target, methargs, r)
      else r == q.(told := q.told + [Told(caller, ObjectDeleted)])
    case HeldWrite(caller, ops) => WriteMade(q, caller, ops, r)
    case HeldItem(item) => r.told == q.told && r.subscriptions == q.subscriptions && r.db == q.db.(runQueue := q.db.runQueue + [item])
  }

  lemma MissingMeans(s: Store, target: KRef, methargs: CapData)
    ensures SomeMissing(s, target, methargs) <==> !NamesExist(s, target, methargs.slots)
  {
    var all := [target] + methargs.slots;
    if NamesExist(s, target, methargs.slots) {
      forall i | 0 <= i < |all| ensures all[i] in s.counts { if i > 0 { assert all[i] == methargs.slots[i - 1]; } }
    }
    if AllExist(s, all) {
      assert all[0] == target;
      forall i | 0 <= i < |methargs.slots| ensures methargs.slots[i] in s.counts { assert methargs.slots[i] == all[i + 1]; }
    }
  }

  lemma FreshSend(s: Store, target: KRef, methargs: CapData, f: multiset<KRef>)
    requires Sound(s, f) && !SomeMissing(s, target, methargs)
    ensures var m := KernelStore.Message(methargs, Some(|s.promises|));
            var o := EnqueueSend(InitPromise(s), target, m, true);
            && o.Done? && o.store.promises == s.promises + [PromiseRow(Unresolved(Nobody, []), [])]
            && o.store.runQueue == s.runQueue + [Send(target, m)] && o.store.crankBuffer == s.crankBuffer
  {
    hide Sound, ChargeAll;
    LoopConservation.FreshSendSucceeds(s, target, methargs, f);
    ChargeAllRaises(InitPromise(s), SendRefs(target, KernelStore.Message(methargs, Some(|s.promises|))));
  }

  lemma MessageIsWritten(q: Q, caller: Caller, target: KRef, methargs: CapData)
    requires !q.torn && LoopConservation.Balances(q, multiset{})
    ensures var e := WriteMessage(q, caller, target, methargs); !e.threw && Written(q, HeldMessage(caller, target, methargs), e.q)
  {
    hide Sound, EnqueueSend, SomeMissing, InitPromise, NamesExist;
    MissingMeans(q.db, target, methargs);
    if !SomeMissing(q.db, target, methargs) { FreshSend(q.db, target, methargs, q.lost + multiset{}); }
  }

  lemma WriteIsMade(q: Q, caller: Caller, ops: seq<Op>)
    requires !q.phase.InCrank?
    ensures var e := WriteRequest(q, HeldWrite(caller, ops)); !e.threw && Written(q, HeldWrite(caller, ops), e.q)
  {
    hide OpSteps, RunOps;
    OpsAreRun(q, ops);
  }

  /** No request written throws, and each comes to what it should. */
  lemma RequestIsWritten(q: Q, h: HeldRequest)
    requires !q.phase.InCrank? && !q.torn && LoopConservation.Balances(q, multiset{})
    ensures var e := WriteRequest(q, h); !e.threw && Written(q, h, e.q)
  {
    hide WriteMessage, OpSteps, LoopConservation.Balances, MessageSent, WriteMade;
    match h
    case HeldMessage(caller, target, methargs) => MessageIsWritten(q, caller, target, methargs);
    case HeldWrite(caller, ops) => WriteIsMade(q, caller, ops);
    case HeldItem(_) =>
  }

  /** The request an event makes, and who makes it. */
  function RequestOf(e: Event): HeldRequest
    requires e.EvMessage? || e.EvWrite?
  {
    if e.EvMessage? then HeldMessage(e.caller, e.target, e.methargs) else HeldWrite(e.caller, e.ops)
  }

  /**
   * A message or a write comes to what it should: nothing but held while a crank is open, written at once and its
   * caller told while none is, and refused, with nothing changed, once the loop has died or ended.
   */
  lemma RequestsAreAnswered(q: Q, e: Event)
    requires LoopConservation.Conserved(q) && (e.EvMessage? || e.EvWrite?)
    ensures var r := Step(q, e);
            if q.phase.Dead? || q.phase.Ended? then r == q
            else if q.phase.InCrank? then r == q.(issued := q.issued + [e.caller], held := q.held + [RequestOf(e)])
            else Written(q.(issued := q.issued + [e.caller]), RequestOf(e), r) && r.issued == q.issued + [e.caller]
  {
    hide WriteRequest, Written;
    if !q.phase.Dead? && !q.phase.Ended? && !q.phase.InCrank? {
      var issued := q.(issued := q.issued + [e.caller]);
      IssuedBalances(q, issued);
      RequestIsWritten(issued, RequestOf(e));
      WritingFrame(issued, RequestOf(e));
    }
  }

  /** A vat's restart or termination goes last into the run queue, or is held while a crank is open, and wakes the loop. */
  lemma RequestedIsQueued(q: Q, item: Item)
    requires item.RestartVat? || item.TerminateVat?
    ensures var r := Step(q, EvRequest(item));
            if q.phase.Dead? || q.phase.Ended? then r == q
            else if q.phase.InCrank? then r == q.(held := q.held + [HeldItem(item)])
            else r == q.(db := q.db.(runQueue := q.db.runQueue + [item]), wakeSet := false)
  {
  }

  lemma IssuedBalances(q: Q, r: Q)
    requires LoopConservation.Conserved(q) && !q.phase.InCrank? && !q.phase.Dead? && r == q.(issued := r.issued)
    ensures !r.torn && LoopConservation.Balances(r, multiset{})
  {
    hide Sound;
  }

  /**
   * What was held is written in the order it was held, each request coming to what it should on the store the ones
   * before it left, unless the store refuses one: that one and the rest stay held.
   */
  lemma HeldAreWrittenInTurn(q: Q, fault: Option<nat>)
    requires !q.phase.InCrank? && !q.torn && LoopConservation.Balances(q, multiset{}) && LoopConservation.ProperHeld(q.held)
    ensures q.held == [] || fault == Some(0) ==> WriteHeld(q, fault).q == q && (WriteHeld(q, fault).threw <==> q.held != [])
    ensures q.held != [] && fault != Some(0) ==>
              exists mid :: Written(q, q.held[0], mid) && WriteHeld(q, fault) == WriteHeld(mid.(held := q.held[1..]), Sooner(fault))
  {
    hide WriteRequest, Written, LoopConservation.Balances;
    if q.held != [] && fault != Some(0) {
      RequestIsWritten(q, q.held[0]);
      var mid := WriteRequest(q, q.held[0]).q;
      assert WriteHeld(q, fault) == WriteHeld(mid.(held := q.held[1..]), Sooner(fault));
    }
  }

  /** Only a refusal of the store keeps what was held from being written, all of it from the one refused on. */
  lemma {:induction false} HeldStaysExactly(q: Q, fault: Option<nat>)
    requires !q.phase.InCrank? && !q.torn && LoopConservation.Balances(q, multiset{}) && LoopConservation.ProperHeld(q.held)
    ensures var e := WriteHeld(q, fault);
            if fault.Some? && fault.value < |q.held| then e.threw && e.q.held == q.held[fault.value..] else !e.threw && e.q.held == []
    decreases |q.held|
  {
    hide WriteRequest, Written, LoopConservation.Balances;
    if q.held != [] && fault != Some(0) {
      RequestIsWritten(q, q.held[0]);
      WritingFrame(q, q.held[0]);
      LoopConservation.WritingBalances(q, q.held[0]);
      var next := WriteRequest(q, q.held[0]).q.(held := q.held[1..]);
      LoopConservation.SameBalance(WriteRequest(q, q.held[0]).q, next, multiset{});
      HeldStaysExactly(next, Sooner(fault));
    }
  }

  function Sooner(fault: Option<nat>): Option<nat> {
    if fault.Some? && fault.value > 0 then Some(fault.value - 1) else None
  }

  // ------------------------------------------------------------------ answers at the flush

  /** Exactly the subscribers of these promises have been told these answers, and are subscribers no more. */
  predicate Given(q: Q, r: Q, answers: map<nat, Answer>) {
    && |q.told| <= |r.told| && r.told[..|q.told|] == q.told
    && |r.told| - |q.told| == |q.subscriptions| - |r.subscriptions|
    && (forall i | 0 <= i < |q.subscriptions| ::
          if q.subscriptions[i].kpid in answers then Told(q.subscriptions[i].caller, answers[q.subscriptions[i].kpid]) in r.told[|q.told|..]
          else q.subscriptions[i] in r.subscriptions)
    && (forall i | 0 <= i < |r.subscriptions| :: r.subscriptions[i] in q.subscriptions && r.subscriptions[i].kpid !in answers)
    && LoopAnswers.OncePerPromise(r.subscriptions)
  }

  lemma OneGiven(q: Q, kpid: nat, answer: Answer)
    requires LoopAnswers.OncePerPromise(q.subscriptions)
    ensures Given(q, AnswerSubscriber(q, kpid, answer), map[kpid := answer])
  {
    hide FindSubscription;
    var i := FindSubscription(q.subscriptions, kpid);
    if i < |q.subscriptions| { OneAnswered(q, i, answer); }
  }

  lemma OneAnswered(q: Q, i: nat, answer: Answer)
    requires LoopAnswers.OncePerPromise(q.subscriptions) && i < |q.subscriptions|
    ensures Given(q, q.(subscriptions := q.subscriptions[..i] + q.subscriptions[i + 1..], told := q.told + [Told(q.subscriptions[i].caller, answer)]),
              map[q.subscriptions[i].kpid := answer])
  {
    var rest, told := q.subscriptions[..i] + q.subscriptions[i + 1..], q.told + [Told(q.subscriptions[i].caller, answer)];
    assert told[|q.told|..] == [Told(q.subscriptions[i].caller, answer)];
    forall j | 0 <= j < |q.subscriptions| && j != i ensures q.subscriptions[j] in rest {
      assert q.subscriptions[j] == rest[if j < i then j else j - 1];
    }
    forall j | 0 <= j < |rest| ensures rest[j] == q.subscriptions[if j < i then j else j + 1] {}
  }

  lemma NoneGiven(q: Q)
    requires LoopAnswers.OncePerPromise(q.subscriptions)
    ensures Given(q, q, map[])
  {
  }

  /** Those answered first are not answered again. */
  lemma GivenThrough(q: Q, r: Q, t: Q, a: map<nat, Answer>, b: map<nat, Answer>)
    requires Given(q, r, a) && Given(r, t, b)
    ensures Given(q, t, b + a)
  {
    var all := b + a;
    assert t.told[..|q.told|] == q.told by { assert t.told[..|r.told|][..|q.told|] == t.told[..|q.told|]; }
    assert t.told[|q.told|..] == r.told[|q.told|..] + t.told[|r.told|..] by {
      assert t.told == r.told + t.told[|r.told|..];
    }
    forall i | 0 <= i < |q.subscriptions|
      ensures if q.subscriptions[i].kpid in all then Told(q.subscriptions[i].caller, all[q.subscriptions[i].kpid]) in t.told[|q.told|..]
              else q.subscriptions[i] in t.subscriptions
    {
      if q.subscriptions[i].kpid !in a {
        var j :| 0 <= j < |r.subscriptions| && r.subscriptions[j] == q.subscriptions[i];
      }
    }
    forall i | 0 <= i < |t.subscriptions| ensures t.subscriptions[i] in q.subscriptions && t.subscriptions[i].kpid !in all {
      var j :| 0 <= j < |r.subscriptions| && r.subscriptions[j] == t.subscriptions[i];
    }
  }

  /** What the rows say of a settled promise. */
  function RowAnswer(state: PromiseState): Answer
    requires state.Settled?
  {
    if state.rejected then RejectedWith(state.value) else Resolved(state.value)
  }

  predicate Notifies(item: Item, kpid: nat) {
    item.Notify? && item.kpid == kpid
  }

  /** The answers of settled promises that something in the buffer notifies somebody of. */
  function Notified(s: Store, items: seq<Item>): (answers: map<nat, Answer>)
    ensures forall kpid: nat :: kpid in answers <==>
              kpid < |s.promises| && s.promises[kpid].state.Settled? && exists i | 0 <= i < |items| :: Notifies(items[i], kpid)
    ensures forall kpid | kpid in answers :: answers[kpid] == RowAnswer(s.promises[kpid].state)
  {
    map kpid | 0 <= kpid < |s.promises| && s.promises[kpid].state.Settled? && (exists i | 0 <= i < |items| :: Notifies(items[i], kpid))
      :: RowAnswer(s.promises[kpid].state)
  }

  function FirstListed(rs: seq<Resolution>, kpid: nat): (r: Option<Resolution>)
    ensures r.None? <==> forall i | 0 <= i < |rs| :: rs[i].kpid != kpid
    ensures r.Some? ==> r.value in rs && r.value.kpid == kpid
  {
    if rs == [] then None else if rs[0].kpid == kpid then Some(rs[0]) else
      var later := FirstListed(rs[1..], kpid);
      assert forall i | 0 <= i < |rs[1..]| :: rs[1..][i] == rs[i + 1];
      later
  }

  /** The answers listed, the first for each promise. */
  function Listed(rs: seq<Resolution>): (answers: map<nat, Answer>)
  {
    if rs == [] then map[]
    else Listed(rs[1..])[rs[0].kpid := if rs[0].rejected then RejectedWith(rs[0].value) else Resolved(rs[0].value)]
  }

  lemma {:induction false} ListedMeans(rs: seq<Resolution>, kpid: nat)
    ensures kpid in Listed(rs) <==> FirstListed(rs, kpid).Some?
    ensures kpid in Listed(rs) ==>
              Listed(rs)[kpid] == (if FirstListed(rs, kpid).value.rejected then RejectedWith(FirstListed(rs, kpid).value.value)
                                   else Resolved(FirstListed(rs, kpid).value.value))
    decreases |rs|
  {
    if rs != [] { ListedMeans(rs[1..], kpid); }
  }

  lemma {:induction false} ListedAreGiven(q: Q, rs: seq<Resolution>)
    requires LoopAnswers.OncePerPromise(q.subscriptions)
    ensures Given(q, SettleEach(q, rs), Listed(rs))
    decreases |rs|
  {
    hide AnswerSubscriber, Given, LoopAnswers.OncePerPromise;
    if rs == [] {
      NoneGiven(q);
    } else {
      var answer := if rs[0].rejected then RejectedWith(rs[0].value) else Resolved(rs[0].value);
      var first := Settle(q, rs[0]);
      OneGiven(q, rs[0].kpid, answer);
      GivenOnce(q, first, map[rs[0].kpid := answer]);
      ListedAreGiven(first, rs[1..]);
      GivenThrough(q, first, SettleEach(q, rs), map[rs[0].kpid := answer], Listed(rs[1..]));
      assert Listed(rs[1..]) + map[rs[0].kpid := answer] == Listed(rs);
    }
  }

  lemma GivenOnce(q: Q, r: Q, answers: map<nat, Answer>)
    requires Given(q, r, answers)
    ensures LoopAnswers.OncePerPromise(r.subscriptions)
  {
  }

  lemma AnswerOneGiven(q: Q, item: Item)
    requires LoopAnswers.OncePerPromise(q.subscriptions)
    ensures Given(q, AnswerOne(q, item), Notified(q.db, [item])) && AnswerOne(q, item).db == q.db
  {
    hide AnswerSubscriber, Given, LoopAnswers.OncePerPromise;
    AnsweringOneFrame(q, item);
    if item.Notify? && item.kpid < |q.db.promises| && q.db.promises[item.kpid].state.Settled? {
      OneGiven(q, item.kpid, RowAnswer(q.db.promises[item.kpid].state));
      assert Notifies([item][0], item.kpid);
      assert Notified(q.db, [item]) == map[item.kpid := RowAnswer(q.db.promises[item.kpid].state)];
    } else {
      NoneGiven(q);
      assert Notified(q.db, [item]) == map[];
    }
  }

  lemma NotifiedFirst(s: Store, items: seq<Item>)
    requires items != []
    ensures Notified(s, items[1..]) + Notified(s, [items[0]]) == Notified(s, items)
  {
    var both, all := Notified(s, items[1..]) + Notified(s, [items[0]]), Notified(s, items);
    forall kpid: nat ensures kpid in both <==> kpid in all { NotifiesFirstOrLater(items, kpid); }
    assert both.Keys == all.Keys;
  }

  lemma NotifiesFirstOrLater(items: seq<Item>, kpid: nat)
    requires items != []
    ensures (exists i | 0 <= i < |items| :: Notifies(items[i], kpid)) <==>
              (exists i | 0 <= i < |items[1..]| :: Notifies(items[1..][i], kpid)) || (exists i | 0 <= i < |[items[0]]| :: Notifies([items[0]][i], kpid))
  {
    if i :| 0 <= i < |items| && Notifies(items[i], kpid) {
      if i > 0 { assert Notifies(items[1..][i - 1], kpid); } else { assert Notifies([items[0]][0], kpid); }
    }
    if i :| 0 <= i < |items[1..]| && Notifies(items[1..][i], kpid) { assert Notifies(items[i + 1], kpid); }
    if i :| 0 <= i < |[items[0]]| && Notifies([items[0]][i], kpid) { assert Notifies(items[0], kpid); }
  }

  lemma {:induction false} NotifiedAreGiven(q: Q, items: seq<Item>)
    requires LoopAnswers.OncePerPromise(q.subscriptions)
    ensures Given(q, AnswerNotified(q, items), Notified(q.db, items)) && AnswerNotified(q, items).db == q.db
    decreases |items|
  {
    hide AnswerOne, Given, LoopAnswers.OncePerPromise, Notified;
    NotifyingFrame(q, items);
    if items == [] {
      NoneGiven(q);
      NobodyNotified(q.db);
    } else {
      var first := AnswerOne(q, items[0]);
      AnswerOneGiven(q, items[0]);
      GivenOnce(q, first, Notified(q.db, [items[0]]));
      NotifiedAreGiven(first, items[1..]);
      GivenThrough(q, first, AnswerNotified(q, items), Notified(q.db, [items[0]]), Notified(q.db, items[1..]));
      NotifiedFirst(q.db, items);
    }
  }

  lemma NobodyNotified(s: Store)
    ensures Notified(s, []) == map[]
  {
  }

  /** What a flush tells: every notified promise's subscriber what its row says, and every listed one's what is listed. */
  function DueAtFlush(q: Q): map<nat, Answer> {
    Listed(q.resolvedInCrank) + Notified(q.db, q.db.crankBuffer)
  }

  /** A flush that goes through moves the output behind what is queued, tells those answers and no others, and to nobody else. */
  lemma FlushTells(q: Q, env: Env)
    requires LoopAnswers.OncePerPromise(q.subscriptions) && !FlushStep(q, env).threw
    ensures var r := FlushStep(q, env).q;
            Given(q, r, DueAtFlush(q)) && r.resolvedInCrank == [] && r.db == q.db.(runQueue := q.db.runQueue + q.db.crankBuffer, crankBuffer := [])
  {
    hide AnswerNotified, SettleEach, Given, LoopAnswers.OncePerPromise, Listed, Notified;
    var items := q.db.crankBuffer;
    var moved := WithStore(q, Flush(q.db));
    NotifiedAreGiven(moved, items);
    NotifyingFrame(moved, items);
    var answered := AnswerNotified(moved, items);
    GivenOnce(moved, answered, Notified(moved.db, items));
    ListedAreGiven(answered, answered.resolvedInCrank);
    SettlingEachFrame(answered, answered.resolvedInCrank);
    SameNotified(q.db, moved.db, items);
    GivenThrough(moved, answered, SettleEach(answered, answered.resolvedInCrank), Notified(q.db, items), Listed(q.resolvedInCrank));
    SameGiven(moved, SettleEach(answered, answered.resolvedInCrank), q, FlushStep(q, env).q, DueAtFlush(q));
  }

  lemma SameNotified(s: Store, t: Store, items: seq<Item>)
    requires t.promises == s.promises
    ensures Notified(t, items) == Notified(s, items)
  {
  }

  lemma SameGiven(q: Q, r: Q, like: Q, into: Q, answers: map<nat, Answer>)
    requires Given(q, r, answers)
    requires like.told == q.told && like.subscriptions == q.subscriptions && into.told == r.told && into.subscriptions == r.subscriptions
    ensures Given(like, into, answers)
  {
  }

  /**
   * A resolution made in an open crank that is to wait for the flush tells nobody, and is listed as it was made if
   * somebody awaits the promise.
   */
  lemma BufferedAnswerIsListed(q: Q, who: Agent, r: Resolution, f: multiset<KRef>)
    requires Sound(q.db, f) && Resolves(q.db, who, r)
    ensures var t := ResolveStep(q, who, r, false).q;
            && t.told == q.told && t.subscriptions == q.subscriptions
            && t.resolvedInCrank == q.resolvedInCrank + if exists i | 0 <= i < |q.subscriptions| :: q.subscriptions[i].kpid == r.kpid then [r] else []
  {
    hide Sound, ResolveOne, ChargingEffect, UnpaidByResolution, Resolves;
    ResolveOneConserves(q.db, who, r, false, f);
    ChargingFrame(q, ResolveOne(q.db, who, r, false), UnpaidByResolution(q.db, who, r));
    assert q.resolvedInCrank + [] == q.resolvedInCrank;
  }

  // ------------------------------------------------------------------ other ends

  /** An abort tells one caller at most: that of the message whose vat it ends, and that the vat has ended. */
  lemma AbortTells(q: Q, result: CrankResult, env: Env)
    requires q.phase.InCrank? && LoopAnswers.OncePerPromise(q.subscriptions)
    ensures var r := AbortStep(q, result, env).q;
            if result.abort && result.terminate && !env.rollbackFault && AwaitsResult(q)
            then Given(q, r, map[q.phase.item.item.message.result.value := VatEnded])
            else r.told == q.told && r.subscriptions == q.subscriptions
  {
    hide Given, TellOfTermination, LoopAnswers.OncePerPromise, LostByReturning, PromisesOf;
    if result.abort && result.terminate && !env.rollbackFault {
      var cleared := RollBack(q).(rollbackAllowed := false, resolvedInCrank := [], forsaken := q.forsaken + PromisesOf(q.savedListed));
      TerminationTells(cleared);
      var r := TellOfTermination(cleared);
      if AwaitsResult(q) { SameGiven(cleared, r, q, r, map[q.phase.item.item.message.result.value := VatEnded]); }
    }
  }

  /** The crank's item is a message whose result somebody may await. */
  predicate AwaitsResult(q: Q)
    requires q.phase.InCrank?
  {
    q.phase.item.RunItem? && q.phase.item.item.Send? && q.phase.item.item.message.result.Some?
  }

  lemma TerminationTells(q: Q)
    requires q.phase.InCrank? && LoopAnswers.OncePerPromise(q.subscriptions)
    ensures AwaitsResult(q) ==> Given(q, TellOfTermination(q), map[q.phase.item.item.message.result.value := VatEnded])
    ensures !AwaitsResult(q) ==> TellOfTermination(q) == q
  {
    hide Given, AnswerSubscriber, LoopAnswers.OncePerPromise;
    if AwaitsResult(q) { OneGiven(q, q.phase.item.item.message.result.value, VatEnded); }
  }

  /** A caller who waits for the loop's death learns of it, at once if it has come, and one who gives up waiting of that. */
  lemma WaitersAreTold(q: Q, caller: Caller)
    ensures var r := Step(q, EvRegister(caller));
            r.issued == q.issued + [caller]
            && if q.phase.Dead? then r.told == q.told + [Told(caller, LoopDied)] && r.waiters == q.waiters
               else r.told == q.told && r.waiters == q.waiters + [caller]
    ensures var r := Step(q, EvUnregister(caller));
            if caller in q.waiters then r.told == q.told + [Told(caller, Withdrawn)] && multiset(r.waiters) == multiset(q.waiters) - multiset{caller}
            else r == q
  {
    if caller in q.waiters { RemovingFirst(q.waiters, caller); }
  }

  lemma {:induction false} RemovingFirst(callers: seq<Caller>, c: Caller)
    requires c in callers
    ensures multiset(RemoveFirst(callers, c)) == multiset(callers) - multiset{c}
    decreases |callers|
  {
    assert callers == [callers[0]] + callers[1..];
    if callers[0] != c { RemovingFirst(callers[1..], c); }
  }

  lemma {:induction false} TellingAll(told: seq<Told>, callers: seq<Caller>, answer: Answer)
    ensures var all := TellAll(told, callers, answer);
            && |all| == |told| + |callers| && all[..|told|] == told
            && forall i | 0 <= i < |callers| :: all[|told| + i] == Told(callers[i], answer)
    decreases |callers|
  {
    if callers != [] {
      var one := told + [Told(callers[0], answer)];
      TellingAll(one, callers[1..], answer);
      var all := TellAll(told, callers, answer);
      assert all[..|told|] == all[..|one|][..|told|];
      forall i | 0 <= i < |callers| ensures all[|told| + i] == Told(callers[i], answer) {
        if i == 0 { assert all[..|one|][|told|] == one[|told|]; } else { assert all[|one| + (i - 1)] == Told(callers[1..][i - 1], answer); }
      }
    }
  }

  /** Those who hold a request, other than for a vat. */
  lemma {:induction false} HoldersAre(held: seq<HeldRequest>, i: nat)
    requires i < |held| && !held[i].HeldItem?
    ensures held[i].caller in HoldersOf(held)
    decreases i
  {
    if i > 0 { HoldersAre(held[1..], i - 1); }
  }

  predicate AllTold(before: seq<Told>, after: seq<Told>, answer: Answer) {
    |before| <= |after| && after[..|before|] == before && forall i | |before| <= i < |after| :: after[i].answer == answer
  }

  lemma AllToldBy(told: seq<Told>, callers: seq<Caller>, answer: Answer)
    ensures var all := TellAll(told, callers, answer);
            AllTold(told, all, answer) && forall c | c in callers :: Told(c, answer) in all[|told|..]
  {
    TellingAll(told, callers, answer);
    var all := TellAll(told, callers, answer);
    forall i | |told| <= i < |all| ensures all[i].answer == answer { assert all[|told| + (i - |told|)] == Told(callers[i - |told|], answer); }
    forall c | c in callers ensures Told(c, answer) in all[|told|..] {
      var i :| 0 <= i < |callers| && callers[i] == c;
      assert all[|told|..][i] == all[|told| + i];
    }
  }

  /** A subscription abandoned or a request discarded is told of exactly that. */
  lemma DiscardedAreTold(q: Q)
    ensures var r := Step(q, EvDiscardHeld);
            && r.held == [] && AllTold(q.told, r.told, Discarded)
            && forall i | 0 <= i < |q.held| && !q.held[i].HeldItem? :: Told(q.held[i].caller, Discarded) in r.told[|q.told|..]
    ensures var r := Step(q, EvAbandonSubscriptions);
            && r.subscriptions == [] && AllTold(q.told, r.told, Discarded)
            && forall i | 0 <= i < |q.subscriptions| :: Told(q.subscriptions[i].caller, Discarded) in r.told[|q.told|..]
  {
    hide TellAll, HoldersOf, AllTold;
    AllToldBy(q.told, HoldersOf(q.held), Discarded);
    AllToldBy(q.told, SubscribersOf(q.subscriptions), Discarded);
    forall i | 0 <= i < |q.held| && !q.held[i].HeldItem? ensures q.held[i].caller in HoldersOf(q.held) { HoldersAre(q.held, i); }
    forall i | 0 <= i < |q.subscriptions| ensures q.subscriptions[i].caller in SubscribersOf(q.subscriptions) {
      assert SubscribersOf(q.subscriptions)[i] == q.subscriptions[i].caller;
    }
  }

  /** A control operation that wipes the store leaves an empty one, and nobody waiting on what was in it but told so. */
  lemma WipingTells(q: Q)
    requires InStage(q, false) && q.phase.item.ControlItem?
    ensures var r := Step(q, EvWipe);
            && r.db == Store([], [], [], [], map[], multiset{}) && r.arrivals == [] && r.phase == q.phase
            && r.subscriptions == [] && r.held == [] && r.resolvedInCrank == [] && AllTold(q.told, r.told, Discarded)
            && (forall i | 0 <= i < |q.subscriptions| :: Told(q.subscriptions[i].caller, Discarded) in r.told[|q.told|..])
            && (forall i | 0 <= i < |q.held| && !q.held[i].HeldItem? :: Told(q.held[i].caller, Discarded) in r.told[|q.told|..])
  {
    hide TellAll, HoldersOf;
    var a := TellAll(q.told, SubscribersOf(q.subscriptions), Discarded);
    var b := TellAll(a, HoldersOf(q.held), Discarded);
    AllToldBy(q.told, SubscribersOf(q.subscriptions), Discarded);
    AllToldBy(a, HoldersOf(q.held), Discarded);
    assert forall i | 0 <= i < |a| :: b[i] == b[..|a|][i];
    forall i | 0 <= i < |q.subscriptions| ensures Told(q.subscriptions[i].caller, Discarded) in b[|q.told|..] {
      assert SubscribersOf(q.subscriptions)[i] == q.subscriptions[i].caller;
      InTail(a, b, |q.told|, |q.told|, Told(q.subscriptions[i].caller, Discarded));
    }
    forall i | 0 <= i < |q.held| && !q.held[i].HeldItem? ensures Told(q.held[i].caller, Discarded) in b[|q.told|..] {
      HoldersAre(q.held, i);
      InTail(b, b, |a|, |q.told|, Told(q.held[i].caller, Discarded));
    }
  }

  /** Told of the loop's death, or, whose control operation it was, of its failure. */
  predicate DeathTold(q: Q, t: Told) {
    t.answer.LoopDied? || (q.controlInFlight.Some? && t == Told(q.controlInFlight.value.caller, LoopFailure))
  }

  /** The loop's death is what it tells everybody who waits on it, but for the caller of the operation it died in. */
  lemma DeathTells(q: Q)
    ensures var r := FailRunLoop(q);
            && |q.told| <= |r.told| && r.told[..|q.told|] == q.told
            && (forall i | |q.told| <= i < |r.told| :: DeathTold(q, r.told[i]))
            && (q.controlInFlight.Some? ==> Told(q.controlInFlight.value.caller, LoopFailure) in r.told[|q.told|..])
            && (forall i | 0 <= i < |q.subscriptions| :: Told(q.subscriptions[i].caller, LoopDied) in r.told[|q.told|..])
            && (forall i | 0 <= i < |q.held| && !q.held[i].HeldItem? :: Told(q.held[i].caller, LoopDied) in r.told[|q.told|..])
            && (forall i | 0 <= i < |q.waiters| :: Told(q.waiters[i], LoopDied) in r.told[|q.told|..])
            && (forall i | 0 <= i < |q.controls| :: Told(q.controls[i].caller, LoopDied) in r.told[|q.told|..])
  {
    hide TellAll, HoldersOf;
    var a := TellAll(q.told, SubscribersOf(q.subscriptions), LoopDied);
    var b := TellAll(a, HoldersOf(q.held), LoopDied);
    var c := TellAll(b, q.waiters, LoopDied);
    var d := FailControl(c, q.controlInFlight);
    var e := TellAll(d, ControllersOf(q.controls), LoopDied);
    AllToldBy(q.told, SubscribersOf(q.subscriptions), LoopDied);
    AllToldBy(a, HoldersOf(q.held), LoopDied);
    AllToldBy(b, q.waiters, LoopDied);
    AllToldBy(d, ControllersOf(q.controls), LoopDied);
    forall i | 0 <= i < |q.held| && !q.held[i].HeldItem? ensures q.held[i].caller in HoldersOf(q.held) { HoldersAre(q.held, i); }
    forall i | 0 <= i < |q.subscriptions| ensures SubscribersOf(q.subscriptions)[i] == q.subscriptions[i].caller {}
    forall i | 0 <= i < |q.controls| ensures ControllersOf(q.controls)[i] == q.controls[i].caller {}
    ToldInTurn(q.told, a, b, c, d, e, q.controlInFlight);
  }

  /** Five lists told one after another, each of which keeps what was told before it. */
  lemma ToldInTurn(told: seq<Told>, a: seq<Told>, b: seq<Told>, c: seq<Told>, d: seq<Told>, e: seq<Told>, control: Option<ControlRequest>)
    requires AllTold(told, a, LoopDied) && AllTold(a, b, LoopDied) && AllTold(b, c, LoopDied) && d == FailControl(c, control) && AllTold(d, e, LoopDied)
    ensures |told| <= |e| && e[..|told|] == told
    ensures forall i | |told| <= i < |e| :: e[i].answer.LoopDied? || (control.Some? && e[i] == Told(control.value.caller, LoopFailure))
    ensures control.Some? ==> Told(control.value.caller, LoopFailure) in e[|told|..]
    ensures forall t | t in a[|told|..] || t in b[|a|..] || t in c[|b|..] || t in e[|d|..] :: t in e[|told|..]
  {
    assert e[..|d|] == d;
    assert forall i | 0 <= i < |c| :: e[i] == c[i];
    assert forall i | 0 <= i < |b| :: e[i] == b[i];
    assert forall i | 0 <= i < |a| :: e[i] == a[i];
    if control.Some? { assert e[|c|] == d[|c|] && e[|told|..][|c| - |told|] == e[|c|]; }
    forall t | t in a[|told|..] ensures t in e[|told|..] { InTail(a, e, |told|, |told|, t); }
    forall t | t in b[|a|..] ensures t in e[|told|..] { InTail(b, e, |a|, |told|, t); }
    forall t | t in c[|b|..] ensures t in e[|told|..] { InTail(c, e, |b|, |told|, t); }
    forall t | t in e[|d|..] ensures t in e[|told|..] { InTail(e, e, |d|, |told|, t); }
  }

  lemma InTail(short: seq<Told>, long: seq<Told>, from: nat, earlier: nat, t: Told)
    requires earlier <= from <= |short| <= |long| && (forall i | 0 <= i < |short| :: long[i] == short[i]) && t in short[from..]
    ensures t in long[earlier..]
  {
    var i :| 0 <= i < |short[from..]| && short[from..][i] == t;
    assert long[earlier..][from + i - earlier] == short[from + i];
  }
}
