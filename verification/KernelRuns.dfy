/**
 * Runs of the kernel in which something goes wrong that the code does not prevent, each from a sound store and a
 * new queue, with the exact condition for it where that takes in a whole crank.
 */
module KernelRuns {
  import opened Prelude
  import opened KernelStore
  import opened KernelAccounting
  import opened KernelRouting
  import opened KernelLoop
  import opened LoopFrames
  import LoopOutput
  import CrankAtomicity
  import Stranding

  // ------------------------------------------------------------------ the next abort

  /**
   * What an abort loses, and whom it forsakes: the references of exactly the output, and the subscribers of
   * exactly the promises, that the loop had left in memory when the crank opened.
   */
  lemma NextAbortDrops(q: Q, priority: Priority, events: seq<Event>, result: CrankResult, env: Env)
    requires CrankAtomicity.Whole(q) && q.phase.Top?
    requires CrankAtomicity.OpenThroughout(Step(q, EvBegin(priority, false, None)), events)
    requires var open := Run(Step(q, EvBegin(priority, false, None)), events);
             MayFinish(open, Returned(result)) && ResultOf(open.phase.item, result).abort && !env.rollbackFault
    ensures var open := Run(Step(q, EvBegin(priority, false, None)), events);
            var aborted := AbortStep(open, ResultOf(open.phase.item, result), env).q;
            && aborted.lost == q.lost + RefsOfItems(q.db.crankBuffer)
            && aborted.forsaken == q.forsaken + PromisesOf(q.resolvedInCrank)
  {
    hide CrankAtomicity.Whole, Begin, Run, RefsOfItems, PromisesOf, AbortStep;
    CrankAtomicity.OpenedCrank(q, priority, events);
    var open := Run(Step(q, EvBegin(priority, false, None)), events);
    CrankAtomicity.AbortReturnsToSavepoint(open, ResultOf(open.phase.item, result), env);
  }

  /** While an aborted crank awaits its vat's end, output is only added to the buffer. */
  lemma {:induction false} WaitingBuffers(q: Q, events: seq<Event>)
    requires LoopOutput.AwaitsEnd(q) && CrankAtomicity.OpenThroughout(q, events)
    ensures LoopOutput.AwaitsEnd(Run(q, events)) && LoopOutput.Buffered(q.db, Run(q, events).db, false)
    decreases |events|
  {
    hide Step, LoopOutput.Buffered;
    LoopOutput.SameBuffered(q.db, q.db);
    if events != [] {
      WaitingBuffersOne(q, events[0]);
      WaitingBuffers(Step(q, events[0]), events[1..]);
      LoopOutput.BufferedThrough(q.db, Step(q, events[0]).db, Run(q, events).db, false);
    }
  }

  lemma WaitingBuffersOne(q: Q, e: Event)
    requires LoopOutput.AwaitsEnd(q) && Step(q, e).phase.InCrank?
    ensures LoopOutput.AwaitsEnd(Step(q, e)) && LoopOutput.Buffered(q.db, Step(q, e).db, false)
  {
    hide Terminated, Outside, LoopOutput.Buffered;
    LoopOutput.SameBuffered(q.db, q.db);
    match e
    case EvTerminated(env) => TerminatingFrame(q, env);
    case EvStart => case EvWake => case EvWipe => case EvBegin(_, _, _) => case EvDeliver(_) => case EvServed(_) =>
    case EvFinish(_, _) => case EvAfterCommit(_) =>
    case _ => OutsideBuffers(q, e);
  }

  lemma OutsideBuffers(q: Q, e: Event)
    requires q.phase.InCrank?
    ensures Outside(q, e).phase == q.phase && LoopOutput.Buffered(q.db, Outside(q, e).db, false)
  {
    hide Request, OpSteps, LoopOutput.Buffered, Kept, Operated;
    LoopOutput.SameBuffered(q.db, q.db);
    match e
    case EvOps(ops) => OpsFrame(q, ops); OpsOnlyBuffer(q, ops); OperatedStays(q, OpSteps(q, ops).q);
    case EvMessage(caller, target, methargs) => RequestIsHeld(Issue(q, caller), HeldMessage(caller, target, methargs));
    case EvWrite(caller, ops) => RequestIsHeld(Issue(q, caller), HeldWrite(caller, ops));
    case EvRequest(item) => RequestIsHeld(q, HeldItem(item));
    case _ => QuietFrame(q, e); QuietStores(q, Outside(q, e));
  }

  lemma OperatedStays(q: Q, r: Q)
    requires Operated(q, r)
    ensures r.phase == q.phase
  {
  }

  lemma RequestIsHeld(q: Q, h: HeldRequest)
    requires q.phase.InCrank?
    ensures Request(q, h).phase == q.phase && Request(q, h).db == q.db
  {
    hide WriteRequest;
  }

  lemma OpsOnlyBuffer(q: Q, ops: seq<Op>)
    ensures LoopOutput.Buffered(q.db, OpSteps(q, ops).q.db, false)
  {
    hide OpSteps;
    LoopOutput.OpsOutput(q, ops);
  }

  lemma QuietStores(q: Q, r: Q)
    requires Kept(q, r)
    ensures r.db == q.db && r.phase == q.phase
  {
  }

  /**
   * Over an aborted crank that awaits its vat's end, and the next crank that is aborted: the second abort loses
   * nothing if and only if nothing was buffered during the wait, and forsakes exactly the promises listed then.
   */
  lemma LateOutputIsLostExactly(q: Q, waited: seq<Event>, ended: Env, priority: Priority, events: seq<Event>, result: CrankResult, env: Env)
    requires CrankAtomicity.Whole(q) && LoopOutput.AwaitsEnd(q) && q.db.crankBuffer == []
    requires CrankAtomicity.OpenThroughout(q, waited) && Step(Run(q, waited), EvTerminated(ended)).phase.Top?
    requires var r := Step(Run(q, waited), EvTerminated(ended));
             && CrankAtomicity.OpenThroughout(Step(r, EvBegin(priority, false, None)), events)
             && var open := Run(Step(r, EvBegin(priority, false, None)), events);
                MayFinish(open, Returned(result)) && ResultOf(open.phase.item, result).abort && !env.rollbackFault
    ensures var r := Step(Run(q, waited), EvTerminated(ended));
            var open := Run(Step(r, EvBegin(priority, false, None)), events);
            var aborted := AbortStep(open, ResultOf(open.phase.item, result), env).q;
            && (aborted.lost == r.lost <==> Run(q, waited).db.crankBuffer == [])
            && aborted.forsaken == r.forsaken + PromisesOf(Run(q, waited).resolvedInCrank)
  {
    hide CrankAtomicity.Whole, Begin, Run, RefsOfItems, AbortStep, PromisesOf, Terminated;
    WaitingBuffers(q, waited);
    var w := Run(q, waited);
    var r := Step(w, EvTerminated(ended));
    assert r == Terminated(w, ended);
    WholeThroughout(q, waited, ended);
    LoopOutput.LateOutputStays(w, ended);
    NextAbortDrops(r, priority, events, result, env);
    LoopOutput.OutputHolds(w.db.crankBuffer);
    OnlyNothingAdded(r.lost, RefsOfItems(w.db.crankBuffer));
  }

  lemma WholeThroughout(q: Q, waited: seq<Event>, ended: Env)
    requires CrankAtomicity.Whole(q) && LoopOutput.AwaitsEnd(Run(q, waited))
    ensures CrankAtomicity.Whole(Step(Run(q, waited), EvTerminated(ended)))
  {
    hide CrankAtomicity.Whole, Run, Step;
    CrankAtomicity.RunKeeps(q, waited);
    CrankAtomicity.RunKeeps(Run(q, waited), [EvTerminated(ended)]);
    CrankAtomicity.OneStep(Run(q, waited), EvTerminated(ended));
  }

  lemma OnlyNothingAdded(lost: multiset<KRef>, more: multiset<KRef>)
    ensures lost + more == lost <==> more == multiset{}
  {
    if lost + more == lost {
      forall k ensures more[k] == 0 { assert (lost + more)[k] == lost[k] + more[k]; }
    }
  }

  // ------------------------------------------------------------------ runs, piece by piece

  lemma {:induction false} RunAppends(q: Q, a: seq<Event>, b: seq<Event>)
    ensures Run(q, a + b) == Run(Run(q, a), b)
    decreases |a|
  {
    hide Step;
    if a == [] {
      assert a + b == b;
    } else {
      assert (a + b)[0] == a[0] && (a + b)[1..] == a[1..] + b;
      RunAppends(Step(q, a[0]), a[1..], b);
    }
  }

  lemma ThenStep(q: Q, a: seq<Event>, e: Event)
    ensures Run(q, a + [e]) == Step(Run(q, a), e)
  {
    hide Step;
    RunAppends(q, a, [e]);
    CrankAtomicity.OneStep(Run(q, a), e);
  }

  /** No fault, and nothing to collect. */
  const UNEVENTFUL := Env([], false, false, false, None, false, false, None)

  const ABORTED := CrankResult(true, false, false, false)
  const ABORTED_AND_ENDED := CrankResult(true, true, false, false)

  /** A crank that collects garbage, up to the end of its delivery. */
  const COLLECTION: seq<Event> := [EvBegin(GCFirst, false, None), EvDeliver({}), EvServed(false)]

  /** A live loop about to look for an item, with no control operation to carry out and nobody held. */
  predicate IsReady(q: Q) {
    q.phase.Top? && q.controls == [] && q.controlInFlight.None? && !q.ending.EndAsked? && q.held == []
  }

  lemma CollectionOpens(q: Q)
    requires IsReady(q)
    ensures Run(q, COLLECTION) == Savepoint(q).(phase := InCrank(GCItem, Delivered))
  {
    var open := Savepoint(q);
    assert COLLECTION == ([EvBegin(GCFirst, false, None)] + [EvDeliver({})]) + [EvServed(false)];
    ThenStep(q, [EvBegin(GCFirst, false, None)] + [EvDeliver({})], EvServed(false));
    ThenStep(q, [EvBegin(GCFirst, false, None)], EvDeliver({}));
    CrankAtomicity.OneStep(q, EvBegin(GCFirst, false, None));
    hide Run;
    assert Step(q, EvBegin(GCFirst, false, None)) == open.(phase := InCrank(GCItem, Waiting));
    CollectionServed(open);
  }

  lemma CollectionServed(q: Q)
    ensures var waiting := q.(phase := InCrank(GCItem, Waiting));
            && Step(waiting, EvDeliver({})) == q.(phase := InCrank(GCItem, Serving([], Nobody, None, NoCall)))
            && Step(q.(phase := InCrank(GCItem, Serving([], Nobody, None, NoCall))), EvServed(false)) == q.(phase := InCrank(GCItem, Delivered))
  {
    hide Finish, Outside, Begin, Terminated, Reported, Wipe;
    assert ReleaseAll(q.db, []) == Done(q.db);
  }

  /** A ready loop after such a crank has been aborted. */
  function AfterAbort(q: Q): Q {
    Savepoint(q).(rollbackAllowed := false, rollbacks := 1, db := q.db.(crankBuffer := []), lost := q.lost + RefsOfItems(q.db.crankBuffer),
                  resolvedInCrank := [], forsaken := q.forsaken + PromisesOf(q.resolvedInCrank))
  }

  /** The collection's crank is aborted, and awaits the end of a vat or commits. */
  lemma CollectionAborts(q: Q, result: CrankResult)
    requires IsReady(q) && (result == ABORTED || result == ABORTED_AND_ENDED)
    ensures Run(q, COLLECTION + [EvFinish(Returned(result), UNEVENTFUL)])
            == AfterAbort(q).(phase := if result.terminate then InCrank(GCItem, Terminating(result)) else Top)
  {
    hide Run, Step, AfterAbort, IsReady;
    CollectionOpens(q);
    ThenStep(q, COLLECTION, EvFinish(Returned(result), UNEVENTFUL));
    OpenCollectionAborts(q, result);
  }

  lemma OpenCollectionAborts(q: Q, result: CrankResult)
    requires IsReady(q) && (result == ABORTED || result == ABORTED_AND_ENDED)
    ensures Step(Savepoint(q).(phase := InCrank(GCItem, Delivered)), EvFinish(Returned(result), UNEVENTFUL))
            == AfterAbort(q).(phase := if result.terminate then InCrank(GCItem, Terminating(result)) else Top)
  {
    hide Close, RefsOfItems, PromisesOf;
    var open := Savepoint(q).(phase := InCrank(GCItem, Delivered));
    assert AbortStep(open, result, UNEVENTFUL).q == AfterAbort(q).(phase := open.phase);
    UneventfulClose(AfterAbort(q).(phase := open.phase), result);
  }

  /** An aborted crank commits the store it is left with, if nothing is collected and nothing throws. */
  lemma UneventfulClose(q: Q, result: CrankResult)
    requires result.abort && !result.irrevocable && q.held == [] && q.controlInFlight.None? && !q.rollbackAllowed
    ensures Close(q, result, UNEVENTFUL) == q.(phase := Top)
  {
    assert Collect(q.db, []) == Done(q.db);
    assert CollectStep(q, UNEVENTFUL) == Effect(q, false);
    assert WriteHeld(q.(phase := Top), None) == Effect(q.(phase := Top), false);
  }

  lemma EndedUneventfully(q: Q)
    requires LoopOutput.AwaitsEnd(q) && !q.phase.stage.outcome.irrevocable && q.held == [] && q.controlInFlight.None?
    ensures Step(q, EvTerminated(UNEVENTFUL)) == q.(phase := Top, rollbackAllowed := false)
  {
    hide Close;
    UneventfulClose(q.(rollbackAllowed := false), q.phase.stage.outcome);
  }

  lemma OneOp(q: Q, op: Op)
    ensures OpSteps(q, [op]) == OpStep(q, op)
  {
    hide OpStep;
    assert [op][1..] == [];
    assert OpSteps(OpStep(q, op).q, []) == Effect(OpStep(q, op).q, false);
  }

  // ------------------------------------------------------------------ output lost, and a caller forsaken

  const NO_DATA := CapData(false, [])

  /** One object, which a c-list holds. */
  const ONE_OBJECT: Store := Store([], [], [], [ObjectRow(Endpoint(1), false)], map[KObject(0) := 1], multiset{KObject(0)})

  lemma OneObjectIsSound()
    ensures Sound(ONE_OBJECT, multiset{})
  {
    assert Owed(ONE_OBJECT) == multiset{KObject(0)};
  }

  const GREETING := KernelStore.Message(NO_DATA, None)

  /** An aborted crank during whose wait for the end of its vat others make these operations. */
  function Waited(ops: seq<Op>): seq<Event> {
    COLLECTION + [EvFinish(Returned(ABORTED_AND_ENDED), UNEVENTFUL)] + [EvOps(ops)] + [EvTerminated(UNEVENTFUL)]
  }

  lemma WaitingLeaves(q: Q, ops: seq<Op>)
    requires IsReady(q)
    ensures var waiting := AfterAbort(q).(phase := InCrank(GCItem, Terminating(ABORTED_AND_ENDED)));
            Run(q, Waited(ops)) == OpSteps(waiting, ops).q.(phase := Top, rollbackAllowed := false)
  {
    var b := COLLECTION + [EvFinish(Returned(ABORTED_AND_ENDED), UNEVENTFUL)];
    ThenStep(q, b + [EvOps(ops)], EvTerminated(UNEVENTFUL));
    ThenStep(q, b, EvOps(ops));
    hide Run, OpSteps, AfterAbort;
    CollectionAborts(q, ABORTED_AND_ENDED);
    AbortStaysReady(q);
    var waiting := AfterAbort(q).(phase := InCrank(GCItem, Terminating(ABORTED_AND_ENDED)));
    OpsFrame(waiting, ops);
    EndedUneventfully(OpSteps(waiting, ops).q);
  }

  lemma AbortStaysReady(q: Q)
    requires IsReady(q)
    ensures IsReady(AfterAbort(q)) && !AfterAbort(q).rollbackAllowed
  {
  }

  /** Such a crank during whose wait another vat sends a message. */
  const SENT_LATE: seq<Event> := [EvStart] + Waited([OpSend(KObject(0), GREETING, false)])

  lemma SentLate()
    ensures var q := Run(Init(ONE_OBJECT), SENT_LATE);
            && IsReady(q) && !q.wakeSet && q.arrivals == [] && q.lost == multiset{} && q.forsaken == {} && q.resolvedInCrank == []
            && q.db == ONE_OBJECT.(crankBuffer := [Send(KObject(0), GREETING)], counts := map[KObject(0) := 2])
  {
    var send := OpSend(KObject(0), GREETING, false);
    RunAppends(Init(ONE_OBJECT), [EvStart], Waited([send]));
    CrankAtomicity.OneStep(Init(ONE_OBJECT), EvStart);
    var top := Init(ONE_OBJECT).(phase := Top);
    hide Run, Waited, OpSteps, EnqueueSend, Unpaid;
    WaitingLeaves(top, [send]);
    var waiting := AfterAbort(top).(phase := InCrank(GCItem, Terminating(ABORTED_AND_ENDED)));
    assert RefsOfItems([]) == multiset{};
    assert waiting.db == ONE_OBJECT && waiting.lost == multiset{} && waiting.forsaken == {};
    OneOp(waiting, send);
    GreetingIsCharged(ONE_OBJECT);
  }

  lemma GreetingIsCharged(s: Store)
    requires KObject(0) in s.counts
    ensures EnqueueSend(s, KObject(0), GREETING, false)
            == Done(s.(counts := s.counts[KObject(0) := s.counts[KObject(0)] + 1], crankBuffer := s.crankBuffer + [Send(KObject(0), GREETING)]))
  {
    assert SendRefs(KObject(0), GREETING) == [KObject(0)];
    assert [KObject(0)][1..] == [];
  }

  /**
   * The next abort drops the message and keeps its charge: the object is counted twice and held once, by a live
   * loop no operation of which was ever refused.
   */
  lemma OutputIsLost()
    ensures Sound(ONE_OBJECT, multiset{})
    ensures var q := Run(Init(ONE_OBJECT), SENT_LATE + (COLLECTION + [EvFinish(Returned(ABORTED), UNEVENTFUL)]));
            && q.phase.Top? && q.lost == multiset{KObject(0)}
            && Count(q.db, KObject(0)) == 2 && Owed(q.db)[KObject(0)] == 1
  {
    OneObjectIsSound();
    SentLate();
    RunAppends(Init(ONE_OBJECT), SENT_LATE, COLLECTION + [EvFinish(Returned(ABORTED), UNEVENTFUL)]);
    CollectionAborts(Run(Init(ONE_OBJECT), SENT_LATE), ABORTED);
    hide Sound, Run;
    var items := [Send(KObject(0), GREETING)];
    assert items[..0] == [] && RefsOfItems([]) == multiset{};
    assert RefsOfItems(items) == multiset{KObject(0)};
  }

  /** Or the loop goes to sleep over it: nothing wakes it for output in the buffer. */
  lemma SleepsOverOutput()
    ensures Sound(ONE_OBJECT, multiset{})
    ensures var q := Run(Init(ONE_OBJECT), SENT_LATE + [EvBegin(NoPriority, false, None)]);
            q.phase.Parked? && q.wakeSet && q.db.crankBuffer == [Send(KObject(0), GREETING)] && Step(q, EvWake) == q
  {
    OneObjectIsSound();
    hide Sound, Run;
    SentLate();
    ThenStep(Init(ONE_OBJECT), SENT_LATE, EvBegin(NoPriority, false, None));
    Parks(Run(Init(ONE_OBJECT), SENT_LATE));
  }

  /** A ready loop with nothing on its lists parks. */
  lemma Parks(q: Q)
    requires IsReady(q) && !q.wakeSet && q.arrivals == [] && q.db.runQueue == []
    ensures var r := Step(q, EvBegin(NoPriority, false, None)); r.phase.Parked? && r.wakeSet && r.db == q.db && Step(r, EvWake) == r
  {
    var parked := Savepoint(q).(tookArrivalLast := false, wakeSet := true, phase := Parked);
    assert WriteHeld(parked, None) == Effect(parked, false);
    assert Step(q, EvBegin(NoPriority, false, None)) == Begin(q, NoPriority, false, None) == parked;
  }

  // ------------------------------------------------------------------ callers

  const QUESTION := KernelStore.Message(NO_DATA, Some(0))
  const ANSWER := Resolution(0, false, NO_DATA)

  /** The object has been sent a message, whose result is the first promise, to be decided by `who`. */
  function Asked(who: Agent): Store {
    Store([Send(KObject(0), QUESTION)], [], [PromiseRow(Unresolved(who, []), [])], [ObjectRow(Endpoint(1), false)],
          map[KObject(0) := 2, KPromise(0) := 2], multiset{KObject(0)})
  }

  /** The promise has been answered. */
  const ANSWERED: Store :=
    Store([Send(KObject(0), QUESTION)], [], [PromiseRow(Settled(false, NO_DATA), [])], [ObjectRow(Endpoint(1), false)],
          map[KObject(0) := 2, KPromise(0) := 1], multiset{KObject(0)})

  /** Somebody outside awaits the message's result. */
  function Asking(who: Agent): Q {
    Init(ONE_OBJECT).(phase := Top, db := Asked(who), subscriptions := [Subscription(0, 7)], issued := [7])
  }

  function ASKING(who: Agent): seq<Event> {
    [EvStart] + [EvMessage(7, KObject(0), NO_DATA)] + [EvOps([OpDecide(0, who)])]
  }

  lemma QuestionIsCharged()
    ensures EnqueueSend(InitPromise(ONE_OBJECT), KObject(0), QUESTION, true) == Done(Asked(Nobody))
  {
    var s := InitPromise(ONE_OBJECT);
    var refs := SendRefs(KObject(0), QUESTION);
    assert refs == [KObject(0), KPromise(0)] && refs[1..] == [KPromise(0)] && refs[1..][1..] == [];
    assert ChargeAll(s, refs) == ChargeAll(Increment(s, KObject(0)).store, [KPromise(0)]);
    assert [KPromise(0)][1..] == [];
  }

  lemma Asks(who: Agent)
    ensures Run(Init(ONE_OBJECT), ASKING(who)) == Asking(who)
  {
    hide Run, Step, Asking, Init;
    var q := Init(ONE_OBJECT);
    ThenStep(q, [EvStart] + [EvMessage(7, KObject(0), NO_DATA)], EvOps([OpDecide(0, who)]));
    ThenStep(q, [EvStart], EvMessage(7, KObject(0), NO_DATA));
    CrankAtomicity.OneStep(q, EvStart);
    MessageAsks();
    OneOp(Asking(Nobody), OpDecide(0, who));
    Deciding(who);
  }

  lemma MessageAsks()
    ensures Step(Step(Init(ONE_OBJECT), EvStart), EvMessage(7, KObject(0), NO_DATA)) == Asking(Nobody)
  {
    hide EnqueueSend, InitPromise;
    QuestionIsCharged();
  }

  lemma Deciding(who: Agent)
    ensures OpStep(Asking(Nobody), OpDecide(0, who)).q == Asking(who) && !OpStep(Asking(Nobody), OpDecide(0, who)).threw
    ensures Step(Asking(Nobody), EvOps([OpDecide(0, who)])) == OpSteps(Asking(Nobody), [OpDecide(0, who)]).q
  {
    hide OpSteps;
  }

  /** Answering, by whoever is to. */
  lemma AnswerSettles(who: Agent, immediate: bool)
    ensures ResolveOne(Asked(who), who, ANSWER, immediate) == Done(ANSWERED)
  {
    var s := Asked(who);
    assert ChargeAll(s, []) == Done(s) && EnqueueNotifies(s, [], 0, immediate) == Done(s);
    assert ReleaseQueue(SetRow(s, 0, s.promises[0].(queue := [])), KPromise(0), []).Done?;
    assert SettlePromise(s, 0, false, NO_DATA) == Done(ANSWERED);
    assert EnqueueSends(ANSWERED, KPromise(0), [], immediate) == Done(ANSWERED);
  }

  lemma OneResolution(q: Q, who: Agent, r: Resolution, immediate: bool)
    ensures ResolveSteps(q, who, [r], immediate) == ResolveStep(q, who, r, immediate)
  {
    hide ResolveStep;
    assert [r][1..] == [];
    assert ResolveSteps(ResolveStep(q, who, r, immediate).q, who, [], immediate) == Effect(ResolveStep(q, who, r, immediate).q, false);
  }

  /** A crank that is aborted with nothing in the way. */
  function Aborted(): seq<Event> {
    COLLECTION + [EvFinish(Returned(ABORTED), UNEVENTFUL)]
  }

  /**
   * A caller is forsaken. The answer comes while an aborted crank awaits the end of its vat, and is listed; the
   * next abort drops the list, and the caller awaits a promise that was settled long ago.
   */
  lemma CallerIsForsaken()
    ensures Sound(ONE_OBJECT, multiset{})
    ensures var late := Waited([OpResolve(Endpoint(2), [ANSWER], false)]);
            IsForsaken(Run(Init(ONE_OBJECT), ASKING(Endpoint(2)) + late + Aborted()))
  {
    OneObjectIsSound();
    hide Sound, Run, Waited, ASKING, Aborted, Asking, IsForsaken;
    var q, late := Init(ONE_OBJECT), Waited([OpResolve(Endpoint(2), [ANSWER], false)]);
    RunAppends(q, ASKING(Endpoint(2)) + late, Aborted());
    RunAppends(q, ASKING(Endpoint(2)), late);
    Asks(Endpoint(2));
    AnsweredLate();
    DroppedByAbort(Run(Asking(Endpoint(2)), late));
  }

  /** A loop that lives on with a caller awaiting a promise already settled, and nothing left to answer it. */
  predicate IsForsaken(q: Q) {
    q.phase.Top? && q.subscriptions == [Subscription(0, 7)] && q.forsaken == {0} && q.resolvedInCrank == [] && q.db == ANSWERED
  }

  lemma DroppedByAbort(q: Q)
    requires IsReady(q) && q.db == ANSWERED && q.forsaken == {} && q.resolvedInCrank == [ANSWER] && q.subscriptions == [Subscription(0, 7)]
    ensures IsForsaken(Run(q, Aborted()))
  {
    hide Run, RefsOfItems, PromisesOf;
    CollectionAborts(q, ABORTED);
    OnePromise();
  }

  lemma OnePromise()
    ensures PromisesOf([ANSWER]) == {0}
  {
    assert [ANSWER][0].kpid == 0;
  }

  lemma AnsweredLate()
    ensures var q := Run(Asking(Endpoint(2)), Waited([OpResolve(Endpoint(2), [ANSWER], false)]));
            && IsReady(q) && q.db == ANSWERED && q.lost == multiset{} && q.forsaken == {}
            && q.resolvedInCrank == [ANSWER] && q.subscriptions == [Subscription(0, 7)]
  {
    var op := OpResolve(Endpoint(2), [ANSWER], false);
    hide Run, Waited, OpSteps, ResolveOne;
    WaitingLeaves(Asking(Endpoint(2)), [op]);
    assert RefsOfItems([]) == multiset{} && PromisesOf([]) == {};
    AnswerIsListed(AfterAbort(Asking(Endpoint(2))).(phase := InCrank(GCItem, Terminating(ABORTED_AND_ENDED))));
  }

  lemma AnswerIsListed(q: Q)
    requires q.phase.InCrank? && q.db == Asked(Endpoint(2)) && q.subscriptions == [Subscription(0, 7)] && q.resolvedInCrank == []
    ensures var e := OpSteps(q, [OpResolve(Endpoint(2), [ANSWER], false)]);
            e.q == q.(db := ANSWERED, wakeSet := e.q.wakeSet, resolvedInCrank := [ANSWER])
  {
    hide OpSteps, ResolveOne, ResolveSteps;
    OneOp(q, OpResolve(Endpoint(2), [ANSWER], false));
    OneResolution(q, Endpoint(2), ANSWER, false);
    AnswerSettles(Endpoint(2), false);
  }

  /** The service's answer. */
  const SERVED := OpResolve(TheKernel, [ANSWER], true)

  /** A caller is answered by a service while somebody else's crank is open, and the crank's abort undoes the answer. */
  lemma AnswerIsForgotten()
    ensures Sound(ONE_OBJECT, multiset{})
    ensures var q := Run(Init(ONE_OBJECT), ASKING(TheKernel) + COLLECTION + [EvOps([SERVED])] + [EvFinish(Returned(ABORTED), UNEVENTFUL)]);
            q.phase.Top? && Told(7, Resolved(NO_DATA)) in q.told && q.db == Asked(TheKernel)
  {
    OneObjectIsSound();
    hide Sound, Run, ASKING, Step, Asking;
    var q := Init(ONE_OBJECT);
    ThenStep(q, ASKING(TheKernel) + COLLECTION + [EvOps([SERVED])], EvFinish(Returned(ABORTED), UNEVENTFUL));
    ThenStep(q, ASKING(TheKernel) + COLLECTION, EvOps([SERVED]));
    RunAppends(q, ASKING(TheKernel), COLLECTION);
    Asks(TheKernel);
    OpenBesideService();
    ServedAndUndone(Run(Asking(TheKernel), COLLECTION));
  }

  lemma OpenBesideService()
    ensures var q := Run(Asking(TheKernel), COLLECTION);
            && q.phase == InCrank(GCItem, Delivered) && q.rollbackAllowed && q.controlInFlight.None? && q.held == []
            && q.saved == Asked(TheKernel) && q.db == Asked(TheKernel) && q.subscriptions == [Subscription(0, 7)] && q.told == []
  {
    hide Run;
    CollectionOpens(Asking(TheKernel));
  }

  lemma ServedAndUndone(open: Q)
    requires open.phase == InCrank(GCItem, Delivered) && open.rollbackAllowed && open.controlInFlight.None? && open.held == []
    requires open.saved == Asked(TheKernel) && open.db == Asked(TheKernel) && open.subscriptions == [Subscription(0, 7)] && open.told == []
    ensures var q := Step(Step(open, EvOps([SERVED])), EvFinish(Returned(ABORTED), UNEVENTFUL));
            q.phase.Top? && Told(7, Resolved(NO_DATA)) in q.told && q.db == Asked(TheKernel)
  {
    hide OpSteps, ResolveOne, ResolveStep, Close, AbortStep;
    OneOp(open, SERVED);
    OneResolution(open, TheKernel, ANSWER, true);
    AnswerSettles(TheKernel, true);
    AnsweredAtOnce(open);
    ServiceUndone(Step(open, EvOps([SERVED])));
  }

  lemma ServiceUndone(q: Q)
    requires q.phase == InCrank(GCItem, Delivered) && q.rollbackAllowed && q.controlInFlight.None? && q.held == []
    requires q.saved == Asked(TheKernel) && q.told == [Told(7, Resolved(NO_DATA))]
    ensures var r := Step(q, EvFinish(Returned(ABORTED), UNEVENTFUL));
            r.phase.Top? && r.told == q.told && r.db == Asked(TheKernel)
  {
    hide Close, PromisesOf, LostByReturning;
    UneventfulClose(AbortStep(q, ABORTED, UNEVENTFUL).q, ABORTED);
  }

  lemma AnsweredAtOnce(open: Q)
    requires open.db == Asked(TheKernel) && open.subscriptions == [Subscription(0, 7)] && open.told == [] && open.phase.InCrank?
    requires ResolveOne(open.db, TheKernel, ANSWER, true) == Done(ANSWERED)
    ensures ResolveStep(open, TheKernel, ANSWER, true).q
            == WithStore(open, ANSWERED).(subscriptions := [], told := [Told(7, Resolved(NO_DATA))])
  {
    hide ResolveOne;
    assert [Subscription(0, 7)][..0] + [Subscription(0, 7)][1..] == [];
  }

  // ------------------------------------------------------------------ charged to nobody

  const UNSENDABLE := KernelStore.Message(CapData(false, [KObject(5)]), None)

  /** Sent outside a crank to an object that exists, with a reference that does not: the object stays charged for it. */
  lemma RefusedSendIsCharged()
    ensures Sound(ONE_OBJECT, multiset{})
    ensures var q := Run(Init(ONE_OBJECT), [EvStart, EvOps([OpSend(KObject(0), UNSENDABLE, true)])]);
            && q.phase.Top? && q.lost == multiset{KObject(0)} && q.db.runQueue == []
            && Count(q.db, KObject(0)) == 2 && Owed(q.db)[KObject(0)] == 1
  {
    hide Sound;
    OneObjectIsSound();
    var q, op := Init(ONE_OBJECT), OpSend(KObject(0), UNSENDABLE, true);
    assert [EvStart, EvOps([op])] == [EvStart] + [EvOps([op])];
    ThenStep(q, [EvStart], EvOps([op]));
    CrankAtomicity.OneStep(q, EvStart);
    OneOp(q.(phase := Top), op);
    ChargesUpToMissing(ONE_OBJECT);
    var refs := SendRefs(KObject(0), UNSENDABLE);
    assert refs[..1] == [KObject(0)];
  }

  lemma ChargesUpToMissing(s: Store)
    requires KObject(0) in s.counts && KObject(5) !in s.counts
    ensures SendRefs(KObject(0), UNSENDABLE) == [KObject(0), KObject(5)]
    ensures ChargeAll(s, [KObject(0), KObject(5)]) == Threw(s.(counts := s.counts[KObject(0) := s.counts[KObject(0)] + 1]))
    ensures ChargedPrefix(s, [KObject(0), KObject(5)]) == 1
  {
    var refs := [KObject(0), KObject(5)];
    assert refs[1..] == [KObject(5)] && [KObject(5)][1..] == [];
    assert ChargeAll(s, refs) == ChargeAll(Increment(s, KObject(0)).store, [KObject(5)]);
    assert ChargedPrefix(s, [KObject(5)]) == 0;
  }

  const UNRESOLVABLE := Resolution(0, false, CapData(false, [KObject(0), KObject(5)]))

  /** So is the object in the value of a promise resolved outside a crank, if a later slot of it does not exist. */
  lemma RefusedResolutionIsCharged()
    ensures Sound(ONE_OBJECT, multiset{})
    ensures var q := Run(Init(ONE_OBJECT), ASKING(Endpoint(2)) + [EvOps([OpResolve(Endpoint(2), [UNRESOLVABLE], true)])]);
            && q.phase.Top? && q.lost == multiset{KObject(0)} && Undecided(q.db)
            && Count(q.db, KObject(0)) == 3
  {
    OneObjectIsSound();
    hide Sound, Run, ASKING, Step, Asking;
    ThenStep(Init(ONE_OBJECT), ASKING(Endpoint(2)), EvOps([OpResolve(Endpoint(2), [UNRESOLVABLE], true)]));
    Asks(Endpoint(2));
    ResolvesUpToMissing();
  }

  lemma ResolvesUpToMissing()
    ensures var q := Step(Asking(Endpoint(2)), EvOps([OpResolve(Endpoint(2), [UNRESOLVABLE], true)]));
            && q.phase.Top? && q.lost == multiset{KObject(0)} && Undecided(q.db)
            && Count(q.db, KObject(0)) == 3
  {
    hide OpSteps, ResolveStep;
    var asking := Asking(Endpoint(2));
    OneOp(asking, OpResolve(Endpoint(2), [UNRESOLVABLE], true));
    OneResolution(asking, Endpoint(2), UNRESOLVABLE, true);
    ResolvingUpToMissing(asking);
  }

  lemma ResolvingUpToMissing(q: Q)
    requires q.db == Asked(Endpoint(2)) && q.lost == multiset{}
    ensures var e := ResolveStep(q, Endpoint(2), UNRESOLVABLE, true);
            e.q == WithStore(q, e.q.db).(lost := multiset{KObject(0)}) && Undecided(e.q.db) && Count(e.q.db, KObject(0)) == 3
  {
    hide Settle;
    ChargesUpToMissing(q.db);
    assert UNRESOLVABLE.value.slots[..1] == [KObject(0)];
  }

  predicate Undecided(s: Store) {
    s.promises == [PromiseRow(Unresolved(Endpoint(2), []), [])]
  }

  // ------------------------------------------------------------------ collected, though aborted

  /** An object nobody owns or refers to. */
  const ORPHAN: Store := Store([], [], [], [ObjectRow(Nobody, false)], map[KObject(0) := 0], multiset{})

  /** What is to be collected includes a promise that does not exist, at which the collection throws. */
  const COLLECTED := UNEVENTFUL.(candidates := [KObject(0), KPromise(0)])

  lemma OrphanIsSound()
    ensures Sound(ORPHAN, multiset{})
  {
    assert Owed(ORPHAN) == multiset{};
  }

  /** A crank that aborts and whose collection throws does not leave the store it found: the object is gone. */
  lemma AbortCollectsRegardless()
    ensures Sound(ORPHAN, multiset{})
    ensures var q := Run(Init(ORPHAN), [EvStart] + COLLECTION + [EvFinish(Returned(ABORTED), COLLECTED)]);
            q.phase.Dead? && q.db == ORPHAN.(counts := map[])
  {
    OrphanIsSound();
    hide Sound, Run, Step;
    var q := Init(ORPHAN);
    ThenStep(q, [EvStart] + COLLECTION, EvFinish(Returned(ABORTED), COLLECTED));
    RunAppends(q, [EvStart], COLLECTION);
    CrankAtomicity.OneStep(q, EvStart);
    StartsReady();
    OrphanIsGone(Run(Step(q, EvStart), COLLECTION));
  }

  lemma StartsReady()
    ensures var q := Run(Step(Init(ORPHAN), EvStart), COLLECTION);
            && q.phase == InCrank(GCItem, Delivered) && q.rollbackAllowed && q.saved == ORPHAN
  {
    hide Run;
    CollectionOpens(Init(ORPHAN).(phase := Top));
  }

  lemma OrphanIsGone(q: Q)
    requires q.phase == InCrank(GCItem, Delivered) && q.rollbackAllowed && q.saved == ORPHAN
    ensures var r := Step(q, EvFinish(Returned(ABORTED), COLLECTED)); r.phase.Dead? && r.db == ORPHAN.(counts := map[])
  {
    hide FailRunLoop, PromisesOf, LostByReturning, Collect, Closing;
    var aborted := AbortStep(q, ABORTED, COLLECTED).q;
    OrphanStopsClosing(aborted);
    DyingFrame(Closing(aborted, ABORTED, COLLECTED).q);
  }

  lemma OrphanStopsClosing(q: Q)
    requires q.db == ORPHAN && !q.rollbackAllowed
    ensures var e := Closing(q, ABORTED, COLLECTED); e.threw && !e.q.rollbackAllowed && e.q.db == ORPHAN.(counts := map[])
  {
    hide Collect;
    OrphanCollected();
  }

  lemma OrphanCollected()
    ensures Collect(ORPHAN, [KObject(0), KPromise(0)]) == Threw(ORPHAN.(counts := map[]))
  {
    var cs := [KObject(0), KPromise(0)];
    assert cs[1..] == [KPromise(0)];
    var gone := ORPHAN.(counts := map[]);
    assert CollectOne(ORPHAN, KObject(0)) == Done(gone);
    assert CollectOne(gone, KPromise(0)) == Threw(gone);
    assert Collect(gone, [KPromise(0)]) == Threw(gone);
  }

  // ------------------------------------------------------------------ a message that never moves again

  /** A promise that was fulfilled with another, which has settled too; a c-list holds the first. */
  const FULFILLED: Store :=
    Store([], [], [PromiseRow(Settled(false, CapData(true, [KPromise(1)])), []), PromiseRow(Settled(false, NO_DATA), [])], [],
          map[KPromise(0) := 1, KPromise(1) := 1], multiset{KPromise(0)})

  lemma RowsOfFulfilled()
    ensures RefsOfPromises(FULFILLED.promises) == multiset{KPromise(1)}
  {
    var rows := FULFILLED.promises;
    assert rows[..1] == [rows[0]] && rows[..1][..0] == [];
    assert RefsOfRow(0, rows[0]) == multiset{KPromise(1)};
    assert RefsOfRow(1, rows[1]) == multiset{};
    assert RefsOfPromises([rows[0]]) == multiset{KPromise(1)};
  }

  lemma FulfilledIsSound()
    ensures Sound(FULFILLED, multiset{})
  {
    hide RefsOfPromises;
    RowsOfFulfilled();
    assert RefsOfItems([]) == multiset{};
    assert Owed(FULFILLED) == multiset{KPromise(0), KPromise(1)};
    hide Owed;
    forall k ensures Count(FULFILLED, k) == Owed(FULFILLED)[k] {}
  }

  /** The message has been sent to the first promise. */
  const SENT: Store := FULFILLED.(runQueue := [Send(KPromise(0), GREETING)], counts := map[KPromise(0) := 2, KPromise(1) := 1])

  /** And now waits on the second. */
  const STRANDED: Store :=
    FULFILLED.(promises := [FULFILLED.promises[0], PromiseRow(Settled(false, NO_DATA), [GREETING])],
               counts := map[KPromise(0) := 1, KPromise(1) := 2])

  lemma SendingToFulfilled()
    ensures EnqueueSend(FULFILLED, KPromise(0), GREETING, true) == Done(SENT)
  {
    assert SendRefs(KPromise(0), GREETING) == [KPromise(0)];
    assert [KPromise(0)][1..] == [];
  }

  lemma RequeueingOnSettled()
    ensures RouteOf(Dequeue(SENT), KPromise(0)) == Requeue(1)
    ensures DeliverRequeue(Dequeue(SENT), KPromise(0), GREETING, 1) == Done(STRANDED)
  {
    var taken := Dequeue(SENT);
    assert SendRefs(KPromise(0), GREETING) == [KPromise(0)] && SendRefs(KPromise(1), GREETING) == [KPromise(1)];
    assert [KPromise(0)][1..] == [] && [KPromise(1)][1..] == [];
    assert ChargeAll(taken, [KPromise(1)]) == Done(taken.(counts := map[KPromise(0) := 2, KPromise(1) := 2]));
    var queued := STRANDED.(counts := map[KPromise(0) := 2, KPromise(1) := 2]);
    assert taken.promises[1].queue + [GREETING] == [GREETING];
    assert EnqueuePromiseMessage(taken, 1, GREETING) == Done(queued);
    assert Decrement(queued, KPromise(0)) == Done(STRANDED);
    assert ReleaseAll(queued, [KPromise(0)]) == Done(STRANDED);
  }

  /** The crank that takes the message and routes it. */
  const ROUTING: seq<Event> := [EvBegin(NoPriority, false, None)] + [EvDeliver({})] + [EvFinish(Returned(NO_RESULT), UNEVENTFUL)]

  lemma RoutesToSettled(q: Q)
    requires IsReady(q) && q.arrivals == [] && q.db == SENT
    ensures var open := Step(q, EvBegin(NoPriority, false, None));
            && open.phase == InCrank(RunItem(Send(KPromise(0), GREETING)), Waiting) && open.db == Dequeue(SENT)
            && open.resolvedInCrank == q.resolvedInCrank && open.held == [] && open.controlInFlight.None?
  {
    hide Dequeue, Park;
  }

  lemma StrandsInCrank(open: Q)
    requires open.phase == InCrank(RunItem(Send(KPromise(0), GREETING)), Waiting) && open.db == Dequeue(SENT)
    ensures var r := Step(open, EvDeliver({}));
            && r.phase == InCrank(open.phase.item, Delivered) && r.db == STRANDED
            && r.resolvedInCrank == open.resolvedInCrank && r.held == open.held && r.controlInFlight == open.controlInFlight
  {
    hide DeliverRequeue, RouteOf, Dequeue;
    RequeueingOnSettled();
  }

  /** A crank with nothing to collect, flush or answer commits the store it has. */
  lemma CommitsWhatItHas(q: Q)
    requires q.phase.InCrank? && q.phase.stage.Delivered? && q.db.crankBuffer == [] && q.resolvedInCrank == []
    requires q.held == [] && q.controlInFlight.None? && !q.phase.item.ControlItem?
    ensures var r := Step(q, EvFinish(Returned(NO_RESULT), UNEVENTFUL)); r.phase.Top? && r.db == q.db
  {
    hide Closing, Commit;
    ClosesUneventfully(q);
    CommitsUneventfully(Closing(q, NO_RESULT, UNEVENTFUL).q);
  }

  lemma ClosesUneventfully(q: Q)
    requires q.db.crankBuffer == [] && q.resolvedInCrank == []
    ensures var e := Closing(q, NO_RESULT, UNEVENTFUL); e == Effect(q.(wakeSet := e.q.wakeSet), false)
  {
    hide FlushStep;
    assert Collect(q.db, []) == Done(q.db);
    assert CollectStep(q, UNEVENTFUL) == Effect(q, false);
    NothingFlushed(q);
  }

  lemma CommitsUneventfully(q: Q)
    requires q.held == [] && q.controlInFlight.None?
    ensures Commit(q, NO_RESULT, UNEVENTFUL) == q.(phase := Top)
  {
    assert WriteHeld(q.(phase := Top), None) == Effect(q.(phase := Top), false);
  }

  lemma NothingFlushed(q: Q)
    requires q.db.crankBuffer == [] && q.resolvedInCrank == []
    ensures var e := FlushStep(q, UNEVENTFUL); e == Effect(q.(wakeSet := e.q.wakeSet), false)
  {
    assert q.db.runQueue + [] == q.db.runQueue;
    assert AnswerNotified(WithStore(q, Flush(q.db)), []) == WithStore(q, Flush(q.db));
    assert SettleEach(WithStore(q, Flush(q.db)), []) == WithStore(q, Flush(q.db));
  }

  lemma SentToFulfilled()
    ensures var q := Run(Init(FULFILLED), [EvStart] + [EvOps([OpSend(KPromise(0), GREETING, true)])]);
            IsReady(q) && q.arrivals == [] && q.db == SENT && q.resolvedInCrank == []
  {
    var q, op := Init(FULFILLED), OpSend(KPromise(0), GREETING, true);
    ThenStep(q, [EvStart], EvOps([op]));
    CrankAtomicity.OneStep(q, EvStart);
    hide Run, OpSteps, EnqueueSend, Unpaid;
    OneOp(q.(phase := Top), op);
    SendingToFulfilled();
  }

  /** A message sent to the first promise is stranded on the second by the crank that takes it, for good. */
  lemma MessageIsStranded(after: seq<Event>)
    requires NoWipe(after)
    ensures Sound(FULFILLED, multiset{})
    ensures var q := Run(Init(FULFILLED), [EvStart] + [EvOps([OpSend(KPromise(0), GREETING, true)])] + ROUTING);
            q.phase.Top? && Stranding.StrandedOn(q.db, 1, [GREETING]) && Stranding.StrandedOn(Run(q, after).db, 1, [GREETING])
  {
    hide Run, Step, Sound, Init;
    var q, sent := Init(FULFILLED), [EvStart] + [EvOps([OpSend(KPromise(0), GREETING, true)])];
    FulfilledIsSound();
    SentToFulfilled();
    RunAppends(q, sent, ROUTING);
    var r := Run(q, sent);
    ThenStep(r, [EvBegin(NoPriority, false, None)] + [EvDeliver({})], EvFinish(Returned(NO_RESULT), UNEVENTFUL));
    ThenStep(r, [EvBegin(NoPriority, false, None)], EvDeliver({}));
    CrankAtomicity.OneStep(r, EvBegin(NoPriority, false, None));
    RoutesToSettled(r);
    StrandsInCrank(Step(r, EvBegin(NoPriority, false, None)));
    CommitsWhatItHas(Step(Step(r, EvBegin(NoPriority, false, None)), EvDeliver({})));
    Stranding.StrandedForGood(FULFILLED, sent + ROUTING, after, 1, [GREETING]);
  }
}
