/**
 * No wake-up is lost: a loop that sleeps with its resolver still set has nothing to do
 * (packages/ocap-kernel/src/KernelQueue.ts:252-259, 676-698).
 */
module LoopWaking {
  import opened Prelude
  import opened KernelStore
  import opened KernelLoop
  import opened LoopFrames
  import LoopOutput

  /** There is nothing for a crank to take, and nobody has asked the loop to end. */
  predicate NothingToDo(q: Q) {
    q.db.runQueue == [] && q.arrivals == [] && q.controls == [] && !q.ending.EndAsked?
  }

  predicate WakeKept(q: Q) {
    (q.wakeSet ==> q.phase.Parked? || q.phase.Dead?) && (q.wakeSet && q.phase.Parked? ==> NothingToDo(q))
  }

  /** A step that may have queued work, in which case it has woken the loop. */
  predicate Woken(q: Q, r: Q) {
    && (r.wakeSet ==> q.wakeSet && |r.db.runQueue| <= |q.db.runQueue|)
    && r.arrivals == q.arrivals && r.controls == q.controls && r.ending == q.ending && r.phase == q.phase
  }

  lemma WokenKeeps(q: Q, r: Q)
    requires WakeKept(q) && Woken(q, r)
    ensures WakeKept(r)
  {
  }

  lemma OperatedWakes(q: Q, r: Q)
    requires Operated(q.(issued := r.issued, held := r.held), r)
    ensures Woken(q, r)
  {
  }

  lemma ParkingWakes(q: Q, heldFault: Option<nat>)
    requires NothingToDo(q)
    ensures var parked := q.(wakeSet := true, phase := Parked);
            && WakeKept(FailRunLoop(RollBack(q))) && WakeKept(FailRunLoop(Uncommitted(parked)))
            && WakeKept(WriteHeld(parked, heldFault).q) && WakeKept(FailRunLoop(WriteHeld(parked, heldFault).q))
  {
    hide FailRunLoop, WriteHeld, Beyond;
    var parked := q.(wakeSet := true, phase := Parked);
    DyingFrame(RollBack(q));
    DyingFrame(Uncommitted(parked));
    WritingHeldFrame(parked, heldFault);
    DyingFrame(WriteHeld(parked, heldFault).q);
  }

  lemma TakingWakes(q: Q, priority: Priority)
    requires !q.ending.EndAsked? || q.controls != []
    ensures GetNext(q, priority).q.wakeSet == q.wakeSet
    ensures GetNext(q, priority).item.None? ==> NothingToDo(GetNext(q, priority).q)
  {
  }

  /** The loop parks only once it has looked and found nothing. */
  lemma BeginWakes(q: Q, priority: Priority, endFault: bool, heldFault: Option<nat>)
    requires WakeKept(q) && q.phase.Top?
    ensures WakeKept(Begin(q, priority, endFault, heldFault))
  {
    hide FailRunLoop, WriteHeld, GetNext, RollBack, Uncommitted, NothingToDo;
    var open := Savepoint(q);
    if !q.ending.EndAsked? || q.controls != [] {
      TakingWakes(open, priority);
      var taken := GetNext(open, priority);
      if taken.item.None? { ParkingWakes(taken.q, heldFault); }
    }
  }

  lemma BeyondWakes(q: Q, r: Q)
    requires Beyond(q, r) && !q.wakeSet
    ensures WakeKept(r)
  {
  }

  lemma QuietWakes(q: Q, e: Event)
    requires WakeKept(q) && Quiet(e)
    ensures WakeKept(Outside(q, e))
  {
    hide TellAll, HoldersOf, SubscribersOf, AcceptArrival, RemoveFirst;
    match e
    case EvArrival(event) => ArrivingFrame(q, event);
    case _ =>
  }

  /** Every step that gives a parked loop something to do wakes it. */
  lemma StepWakes(q: Q, e: Event)
    requires WakeKept(q)
    ensures WakeKept(Step(q, e))
  {
    hide Begin, DeliverStep, ServedStep, Finish, Terminated, Outside, Reported, Operated, Beyond, Wipe;
    match e
    case EvBegin(priority, endFault, heldFault) => if q.phase.Top? { BeginWakes(q, priority, endFault, heldFault); }
    case EvDeliver(running) => if InStage(q, true) { DeliveringFrame(q, running); DeliveringWakes(q, DeliverStep(q, running)); }
    case EvServed(failed) => if InStage(q, false) { ServingFrame(q, failed); DeliveringWakes(q, ServedStep(q, failed)); }
    case EvFinish(end, env) => if MayFinish(q, end) { FinishingFrame(q, end, env); BeyondWakes(q, Finish(q, end, env)); }
    case EvTerminated(env) =>
      if q.phase.InCrank? && q.phase.stage.Terminating? { TerminatingFrame(q, env); BeyondWakes(q, Terminated(q, env)); }
    case EvAfterCommit(throws) =>
      if q.phase.AfterCommit? { ReportingFrame(q, throws); BeyondWakes(q, Reported(q, throws)); }
    case EvWipe => WipingWakes(q);
    case EvStart => case EvWake =>
    case _ => if Quiet(e) { QuietWakes(q, e); } else { ReachingStoreFrame(q, e); OperatedWakes(q, Outside(q, e)); WokenKeeps(q, Outside(q, e)); }
  }

  lemma WipingWakes(q: Q)
    ensures Wipe(q).wakeSet == q.wakeSet && Wipe(q).phase == q.phase
  {
    hide TellAll, HoldersOf, SubscribersOf;
  }

  lemma DeliveringWakes(q: Q, r: Q)
    requires WakeKept(q) && q.phase.InCrank? && Delivering(q, r)
    ensures WakeKept(r)
  {
  }

  lemma {:induction false} RunWakes(q: Q, events: seq<Event>)
    requires WakeKept(q)
    ensures WakeKept(Run(q, events))
    decreases |events|
  {
    hide Step, WakeKept;
    if events != [] {
      StepWakes(q, events[0]);
      RunWakes(Step(q, events[0]), events[1..]);
    }
  }

  /**
   * No lost wake-up, over every run and interleaving: a parked loop that has anything to do is on its way
   * up. A loop about to open a crank is never waiting to be woken, so the failure reported for one that is
   * cannot happen.
   */
  lemma NoLostWakeUp(db: Store, events: seq<Event>)
    ensures var q := Run(Init(db), events);
            && (q.phase.Parked? && !NothingToDo(q) ==> Step(q, EvWake).phase.Top?)
            && (q.phase.Top? ==> !q.wakeSet)
  {
    RunWakes(Init(db), events);
  }

  /** And no output waits in the buffer of a loop that sleeps, unless it was buffered while an aborted crank awaited the end of its vat. */
  lemma SleepsWithNothingLeft(db: Store, events: seq<Event>)
    requires db.crankBuffer == [] && LoopOutput.NoneLate(Init(db), events)
    ensures var q := Run(Init(db), events);
            q.phase.Parked? && !(NothingToDo(q) && q.db.crankBuffer == []) ==> Step(q, EvWake).phase.Top?
  {
    hide Run, LoopOutput.NoneLate;
    NoLostWakeUp(db, events);
    LoopOutput.NothingLeftBehind(db, events);
  }
}
