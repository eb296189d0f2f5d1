/**
 * How the run loop treats the peers' arrivals, over every run: the list it keeps is one the accepting methods made,
 * taken from its head and never put back; no remote ever holds more than its share of it, by the mark its committed
 * cranks have raised and its peer's restarts have reset; and its turn with the run queue bounds every wait.
 */
module LoopArrivals {
  import opened Prelude
  import KernelStore
  import opened KernelRouting
  import opened KernelLoop
  import opened LoopFrames
  import PeerArrivals

  // ------------------------------------------------------------------ turns

  /** The source of an item, with no control operation, collection or reaping to do first. */
  function SourceOf(item: Option<LoopItem>): PeerArrivals.Source {
    match item
    case Some(ArrivalItem(_)) => PeerArrivals.FromArrivals
    case Some(RunItem(_)) => PeerArrivals.FromRunQueue
    case _ => PeerArrivals.FromNeither
  }

  /** The loop picks as the turn-taking does, takes the oldest of what it picks, and leaves the other source alone. */
  lemma PicksInTurn(q: Q)
    requires q.controls == []
    ensures var taken := GetNext(q, NoPriority);
            var (source, flag) := PeerArrivals.Pick(|q.arrivals|, |q.db.runQueue|, q.tookArrivalLast);
            && SourceOf(taken.item) == source && taken.q.tookArrivalLast == flag
            && (source.FromArrivals? ==> taken.item == Some(ArrivalItem(q.arrivals[0])) && taken.q.db == q.db
                                         && taken.q.arrivals == PeerArrivals.Apply(q.arrivals, PeerArrivals.TakeOldest))
            && (source.FromRunQueue? ==> taken.item == Some(RunItem(q.db.runQueue[0])) && taken.q.arrivals == q.arrivals
                                         && taken.q.db.runQueue == q.db.runQueue[1..])
            && (source.FromNeither? ==> q.arrivals == [] && q.db.runQueue == [] && taken.q.db == q.db)
  {
  }

  /** Priority work is taken ahead of both sources, touching neither, and their turn stays as it was. */
  lemma PriorityTakesNothing(q: Q, priority: Priority)
    requires q.controls != [] || !priority.NoPriority?
    ensures var taken := GetNext(q, priority);
            taken.q.arrivals == q.arrivals && taken.q.db == q.db && taken.q.tookArrivalLast == q.tookArrivalLast
            && taken.item.Some? && !taken.item.value.ArrivalItem? && !taken.item.value.RunItem?
  {
  }

  /**
   * What the loop does when it looks for an item. Control operations go first, in order; then it ends if it was asked
   * to; else it collects or reaps, or takes turns between the peers' arrivals and the run queue, each from its head;
   * and with nothing to take it sleeps.
   */
  lemma CrankTakes(q: Q, priority: Priority)
    requires q.phase.Top? && !q.wakeSet && q.held == []
    ensures var r := Step(q, EvBegin(priority, false, None));
            if q.controls != [] then
              && r.phase == InCrank(ControlItem(q.controls[0]), Waiting) && r.controls == q.controls[1..]
              && r.controlInFlight == Some(q.controls[0]) && r.db == q.db && r.arrivals == q.arrivals
            else if q.ending.EndAsked? then r.phase.Ended? && r.ending.EndAnswered? && r.db == q.db
            else if priority.GCFirst? then r.phase == InCrank(GCItem, Waiting) && r.db == q.db && r.arrivals == q.arrivals
            else if priority.ReapFirst? then r.phase == InCrank(ReapItem, Waiting) && r.db == q.db && r.arrivals == q.arrivals
            else if q.arrivals != [] && (!q.tookArrivalLast || q.db.runQueue == []) then
              r.phase == InCrank(ArrivalItem(q.arrivals[0]), Waiting) && r.arrivals == q.arrivals[1..] && r.tookArrivalLast && r.db == q.db
            else if q.db.runQueue != [] then
              && r.phase == InCrank(RunItem(q.db.runQueue[0]), Waiting) && r.db == q.db.(runQueue := q.db.runQueue[1..])
              && !r.tookArrivalLast && r.arrivals == q.arrivals
            else r.phase.Parked? && r.wakeSet && r.db == q.db
  {
    hide FailRunLoop, WriteHeld, Park;
    NothingTaken(Savepoint(q).(tookArrivalLast := false));
  }

  lemma NothingTaken(q: Q)
    requires !q.wakeSet && q.held == []
    ensures Park(q, false, None) == q.(wakeSet := true, phase := Parked)
  {
    var parked := q.(wakeSet := true, phase := Parked);
    assert WriteHeld(parked, None) == Effect(parked, false);
  }

  /** A control operation is taken in while the loop runs and has not been asked to end; being asked twice is being asked once. */
  lemma ControlsAreTakenIn(q: Q, caller: Caller, operation: nat)
    ensures var r := Step(q, EvControl(caller, operation));
            if q.phase.Idle? || q.phase.Dead? || q.phase.Ended? || !q.ending.NotEnding? then r == q
            else r == q.(issued := q.issued + [caller], controls := q.controls + [ControlRequest(caller, operation)], wakeSet := false)
    ensures var r := Step(q, EvEnd);
            if q.phase.Idle? || q.phase.Dead? || q.phase.Ended? then r == q
            else r == q.(ending := r.ending, wakeSet := false) && (if q.ending.NotEnding? then r.ending.EndAsked? else r.ending == q.ending)
  {
  }

  /**
   * What arrives goes into the list while the loop has neither died nor ended, and wakes a loop that sleeps whenever the
   * list changes. Nothing else takes note of it.
   */
  lemma ArrivalsAreTakenIn(q: Q, event: PeerArrivals.Accepting)
    ensures var r := Step(q, EvArrival(event));
            && r == q.(arrivals := r.arrivals, wakeSet := r.wakeSet)
            && r.arrivals == (if q.phase.Dead? || q.phase.Ended? then q.arrivals else PeerArrivals.Apply(q.arrivals, event))
            && (r.wakeSet ==> q.wakeSet && r.arrivals == q.arrivals)
    ensures Step(q, EvDiscardArrivals) == q.(arrivals := [])
  {
  }

  // ------------------------------------------------------------------ the list, over every step

  /** The list stays, or is dropped whole; or a crank takes its oldest, or an accepting method puts an arrival in. */
  predicate Evolves(before: seq<PeerArrivals.Arrival>, after: seq<PeerArrivals.Arrival>, e: Event) {
    || after == before
    || ((e.EvWipe? || e.EvDiscardArrivals?) && after == [])
    || (e.EvBegin? && after == PeerArrivals.Apply(before, PeerArrivals.TakeOldest))
    || (e.EvArrival? && after == PeerArrivals.Apply(before, e.event))
  }

  /** An open crank has the item it had, or has just taken one, an arrival from the head of the list. */
  predicate ItemKept(q: Q, r: Q, e: Event) {
    r.phase.InCrank? ==>
      if q.phase.InCrank? then r.phase.item == q.phase.item
      else e.EvBegin? && (r.phase.item.ArrivalItem? ==>
                            q.arrivals != [] && r.phase.item.arrival == q.arrivals[0] && r.arrivals == q.arrivals[1..])
  }

  /** A step, as the arrivals see it. Only a crank that looks for an item moves the turn. */
  predicate Seen(q: Q, r: Q, e: Event) {
    Evolves(q.arrivals, r.arrivals, e) && ItemKept(q, r, e) && (!e.EvBegin? ==> r.tookArrivalLast == q.tookArrivalLast)
  }

  predicate SameArrivals(q: Q, r: Q) {
    r.arrivals == q.arrivals && r.tookArrivalLast == q.tookArrivalLast
  }

  lemma ParkingArrivals(q: Q, endFault: bool, heldFault: Option<nat>)
    requires q.phase.Top?
    ensures SameArrivals(q, Park(q, endFault, heldFault)) && !Park(q, endFault, heldFault).phase.InCrank?
  {
    hide FailRunLoop, WriteHeld, LostByReturning;
    var parked := q.(wakeSet := true, phase := Parked);
    DyingFrame(RollBack(q));
    DyingFrame(Uncommitted(parked));
    WritingHeldFrame(parked, heldFault);
    DyingFrame(WriteHeld(parked, heldFault).q);
  }

  lemma TakingArrivals(q: Q, priority: Priority)
    ensures var taken := GetNext(q, priority);
            if taken.item.Some? && taken.item.value.ArrivalItem? then
              q.arrivals != [] && taken.item.value.arrival == q.arrivals[0] && taken.q.arrivals == q.arrivals[1..]
            else taken.q.arrivals == q.arrivals
  {
    hide Dequeue;
  }

  lemma TakingKeepsPhase(q: Q, priority: Priority)
    ensures GetNext(q, priority).q.phase == q.phase
  {
    hide Dequeue;
  }

  lemma BeginningArrivals(q: Q, priority: Priority, endFault: bool, heldFault: Option<nat>)
    requires q.phase.Top?
    ensures Seen(q, Begin(q, priority, endFault, heldFault), EvBegin(priority, endFault, heldFault))
  {
    hide GetNext, Park;
    var open := Savepoint(q);
    TakingArrivals(open, priority);
    TakingKeepsPhase(open, priority);
    ParkingArrivals(GetNext(open, priority).q, endFault, heldFault);
  }

  lemma BeyondSeen(q: Q, r: Q, e: Event)
    requires Beyond(q, r)
    ensures Seen(q, r, e)
  {
  }

  lemma OperatedSeen(q: Q, r: Q, e: Event)
    requires Operated(q.(issued := r.issued, held := r.held), r)
    ensures Seen(q, r, e)
  {
  }

  lemma DeliveringSeen(q: Q, r: Q, e: Event)
    requires q.phase.InCrank? && Delivering(q, r)
    ensures Seen(q, r, e)
  {
  }

  lemma KeptSeen(q: Q, r: Q, e: Event)
    requires Kept(q, r) && Evolves(q.arrivals, r.arrivals, e)
    ensures Seen(q, r, e)
  {
  }

  lemma QuietArrivals(q: Q, e: Event)
    requires Quiet(e)
    ensures Evolves(q.arrivals, Outside(q, e).arrivals, e)
  {
    hide TellAll, HoldersOf, SubscribersOf, AcceptArrival, RemoveFirst, PeerArrivals.Apply;
    match e
    case EvArrival(event) => ArrivingFrame(q, event);
    case _ =>
  }

  lemma SameSeen(q: Q, e: Event)
    ensures Seen(q, q, e) && (q.phase.Idle? || q.phase.Parked? ==> Seen(q, q.(phase := Top), e))
    ensures e.EvWipe? ==> Seen(q, Wipe(q), e)
  {
    WipingFrame(q);
  }

  /** A rollback puts no arrival back, and takes none away: what arrived while a crank was open has arrived. */
  lemma StepSeen(q: Q, e: Event)
    ensures Seen(q, Step(q, e), e)
    ensures e.EvBegin? && !q.phase.Top? ==> Step(q, e) == q
  {
    hide Begin, DeliverStep, ServedStep, Finish, Terminated, Outside, Reported, Wipe, Seen, Evolves, Operated, Beyond, Delivering, Kept;
    SameSeen(q, e);
    match e
    case EvBegin(priority, endFault, heldFault) => if q.phase.Top? { BeginningArrivals(q, priority, endFault, heldFault); }
    case EvDeliver(running) => if InStage(q, true) { DeliveringFrame(q, running); DeliveringSeen(q, DeliverStep(q, running), e); }
    case EvServed(failed) => if InStage(q, false) { ServingFrame(q, failed); DeliveringSeen(q, ServedStep(q, failed), e); }
    case EvFinish(end, env) => if MayFinish(q, end) { FinishingFrame(q, end, env); BeyondSeen(q, Finish(q, end, env), e); }
    case EvTerminated(env) =>
      if q.phase.InCrank? && q.phase.stage.Terminating? { TerminatingFrame(q, env); BeyondSeen(q, Terminated(q, env), e); }
    case EvAfterCommit(throws) =>
      if q.phase.AfterCommit? { ReportingFrame(q, throws); BeyondSeen(q, Reported(q, throws), e); }
    case EvWipe => case EvStart => case EvWake =>
    case _ =>
      if Quiet(e) {
        QuietFrame(q, e);
        QuietArrivals(q, e);
        KeptSeen(q, Outside(q, e), e);
      } else {
        ReachingStoreFrame(q, e);
        OperatedSeen(q, Outside(q, e), e);
      }
  }

  lemma EvolvingKeepsInv(before: seq<PeerArrivals.Arrival>, after: seq<PeerArrivals.Arrival>, e: Event)
    requires PeerArrivals.Inv(before) && Evolves(before, after, e)
    ensures PeerArrivals.Inv(after)
  {
    hide PeerArrivals.Inv, PeerArrivals.Apply;
    NoneIsInv();
    PeerArrivals.ApplyKeepsInv(before, PeerArrivals.TakeOldest);
    if e.EvArrival? { PeerArrivals.ApplyKeepsInv(before, e.event); }
  }

  lemma NoneIsInv()
    ensures PeerArrivals.Inv([])
  {
  }

  lemma StepKeepsInv(q: Q, e: Event)
    requires PeerArrivals.Inv(q.arrivals)
    ensures PeerArrivals.Inv(Step(q, e).arrivals)
  {
    hide Step, PeerArrivals.Inv, Evolves, ItemKept;
    StepSeen(q, e);
    EvolvingKeepsInv(q.arrivals, Step(q, e).arrivals, e);
  }

  /**
   * Over every run of the loop, aborted cranks and all: at most one restart waits per peer, no message of a
   * peer stands behind its waiting restart, and no restart has more than its share put ahead of it.
   */
  lemma {:induction false} EveryRunKeepsArrivals(q: Q, events: seq<Event>)
    requires PeerArrivals.Inv(q.arrivals)
    ensures PeerArrivals.Inv(Run(q, events).arrivals)
    decreases |events|
  {
    hide Step, PeerArrivals.Inv;
    if events != [] {
      StepKeepsInv(q, events[0]);
      EveryRunKeepsArrivals(Step(q, events[0]), events[1..]);
    }
  }

  // ------------------------------------------------------------------ a remote's share, over every run

  /** A remote of a peer. */
  datatype Sender = Sender(remote: PeerArrivals.RemoteId, peer: PeerArrivals.PeerId)

  /** The loop, and the highest number the remote's handle has recorded of what committed cranks have taken. */
  datatype Tracked = Tracked(q: Q, mark: nat)

  /** Something happens to the loop, or the kernel discards the arrivals and lets the handle start its session over. */
  datatype TrackedEvent = Happens(event: Event) | DiscardedAndReleased

  predicate IsFrom(e: Event, sender: Sender) {
    e.EvArrival? && e.event.AcceptMessage? && e.event.arrival.remote == sender.remote && e.event.arrival.peer == sender.peer
  }

  /** The handle hands its own mark over with each message it takes in. */
  function Judged(e: Event, sender: Sender, mark: nat): Event {
    if IsFrom(e, sender) then EvArrival(PeerArrivals.AcceptMessage(e.event.arrival, mark)) else e
  }

  /** The open crank's item is a restart of the peer. */
  predicate TakesRestart(q: Q, peer: PeerArrivals.PeerId) {
    q.phase.InCrank? && q.phase.item.ArrivalItem? && PeerArrivals.IsRestartOf(q.phase.item.arrival, peer)
  }

  /**
   * What a crank reports once it has committed: the number of the message it took, if that is higher, or a
   * peer's restart, which sets the mark back.
   */
  function MarkAfter(q: Q, r: Q, sender: Sender, mark: nat): nat {
    if !q.phase.InCrank? || !r.phase.AfterCommit? || !q.phase.item.ArrivalItem? then mark
    else if PeerArrivals.IsRestartOf(q.phase.item.arrival, sender.peer) then 0
    else match q.phase.item.arrival
         case Inbound(remote, peer, number, _) =>
           if remote == sender.remote && peer == sender.peer && number > mark then number else mark
         case _ => mark
  }

  function TrackedStep(t: Tracked, e: TrackedEvent, sender: Sender): Tracked {
    match e
    case DiscardedAndReleased => Tracked(Step(t.q, EvDiscardArrivals), 0)
    case Happens(event) =>
      var r := Step(t.q, Judged(event, sender, t.mark));
      Tracked(r, MarkAfter(t.q, r, sender, t.mark))
  }

  function TrackedRun(t: Tracked, events: seq<TrackedEvent>, sender: Sender): Tracked
    decreases |events|
  {
    if events == [] then t else TrackedRun(TrackedStep(t, events[0], sender), events[1..], sender)
  }

  /** What happens to the loop meanwhile, each message of the remote judged by the mark it finds. */
  function LoopEvents(t: Tracked, events: seq<TrackedEvent>, sender: Sender): seq<Event>
    decreases |events|
  {
    if events == [] then []
    else
      [if events[0].Happens? then Judged(events[0].event, sender, t.mark) else EvDiscardArrivals]
        + LoopEvents(TrackedStep(t, events[0], sender), events[1..], sender)
  }

  /** Tracking the mark changes nothing the loop does. */
  lemma {:induction false} TrackedIsRun(t: Tracked, events: seq<TrackedEvent>, sender: Sender)
    ensures TrackedRun(t, events, sender).q == Run(t.q, LoopEvents(t, events, sender))
    decreases |events|
  {
    hide Step, MarkAfter;
    if events != [] {
      var next := TrackedStep(t, events[0], sender);
      TrackedIsRun(next, events[1..], sender);
      assert LoopEvents(t, events, sender)[1..] == LoopEvents(next, events[1..], sender);
    }
  }

  /** The remote holds no more than its share; while its peer's restart is recorded, all of that was sent since. */
  predicate Shares(t: Tracked, sender: Sender) {
    && PeerArrivals.Inv(t.q.arrivals)
    && PeerArrivals.ShareHeld(t.q.arrivals, sender.remote, sender.peer, t.mark)
    && (TakesRestart(t.q, sender.peer) ==> PeerArrivals.AllFresh(t.q.arrivals, sender.remote, sender.peer, t.mark))
  }

  lemma NothingIsShared(sender: Sender, mark: nat)
    ensures PeerArrivals.ShareHeld([], sender.remote, sender.peer, mark)
    ensures PeerArrivals.AllFresh([], sender.remote, sender.peer, mark)
  {
  }

  lemma EvolvingKeepsShare(before: seq<PeerArrivals.Arrival>, after: seq<PeerArrivals.Arrival>, e: Event, sender: Sender, mark: nat)
    requires PeerArrivals.Inv(before) && PeerArrivals.ShareHeld(before, sender.remote, sender.peer, mark)
    requires Evolves(before, after, e) && (IsFrom(e, sender) ==> e.event.mark == mark)
    ensures PeerArrivals.ShareHeld(after, sender.remote, sender.peer, mark)
  {
    hide PeerArrivals.Inv, PeerArrivals.Apply, PeerArrivals.ShareHeld;
    NothingIsShared(sender, mark);
    PeerArrivals.ApplyKeepsShare(before, PeerArrivals.TakeOldest, sender.remote, sender.peer, mark);
    if e.EvArrival? { PeerArrivals.ApplyKeepsShare(before, e.event, sender.remote, sender.peer, mark); }
  }

  lemma EvolvingKeepsFresh(before: seq<PeerArrivals.Arrival>, after: seq<PeerArrivals.Arrival>, e: Event, sender: Sender, mark: nat)
    requires PeerArrivals.AllFresh(before, sender.remote, sender.peer, mark)
    requires Evolves(before, after, e) && (IsFrom(e, sender) ==> e.event.mark == mark)
    ensures PeerArrivals.AllFresh(after, sender.remote, sender.peer, mark)
  {
    hide PeerArrivals.Apply, PeerArrivals.AllFresh;
    NothingIsShared(sender, mark);
    PeerArrivals.ApplyKeepsFresh(before, PeerArrivals.TakeOldest, sender.remote, sender.peer, mark);
    if e.EvArrival? { PeerArrivals.ApplyKeepsFresh(before, e.event, sender.remote, sender.peer, mark); }
  }

  /** The share by the mark the step found, before the mark itself moves. */
  lemma StepKeepsShare(q: Q, e: Event, sender: Sender, mark: nat)
    requires Shares(Tracked(q, mark), sender) && (IsFrom(e, sender) ==> e.event.mark == mark)
    ensures Shares(Tracked(Step(q, e), mark), sender)
  {
    hide Step, PeerArrivals.Inv, PeerArrivals.ShareHeld, PeerArrivals.AllFresh, Evolves;
    StepSeen(q, e);
    var r := Step(q, e);
    EvolvingKeepsInv(q.arrivals, r.arrivals, e);
    EvolvingKeepsShare(q.arrivals, r.arrivals, e, sender, mark);
    if TakesRestart(r, sender.peer) {
      if q.phase.InCrank? {
        EvolvingKeepsFresh(q.arrivals, r.arrivals, e, sender, mark);
      } else {
        PeerArrivals.TakenRestartLeavesNone(q.arrivals, sender.remote, sender.peer, mark);
      }
    }
  }

  /** A crank that commits leaves the list alone, so what was sent since a restart is still what the list holds. */
  lemma CommittedKeepsFresh(q: Q, e: Event, sender: Sender, mark: nat)
    requires q.phase.InCrank? && Step(q, e).phase.AfterCommit?
    requires PeerArrivals.AllFresh(q.arrivals, sender.remote, sender.peer, mark) && (IsFrom(e, sender) ==> e.event.mark == mark)
    ensures PeerArrivals.AllFresh(Step(q, e).arrivals, sender.remote, sender.peer, mark)
  {
    hide Step, PeerArrivals.AllFresh, Evolves;
    StepSeen(q, e);
    EvolvingKeepsFresh(q.arrivals, Step(q, e).arrivals, e, sender, mark);
  }

  lemma MovingMarkKeepsShare(q: Q, e: Event, sender: Sender, mark: nat)
    requires Shares(Tracked(q, mark), sender) && (IsFrom(e, sender) ==> e.event.mark == mark)
    ensures Shares(Tracked(Step(q, e), MarkAfter(q, Step(q, e), sender, mark)), sender)
  {
    hide Step, PeerArrivals.Inv, PeerArrivals.ShareHeld, PeerArrivals.AllFresh;
    StepKeepsShare(q, e, sender, mark);
    var r := Step(q, e);
    var after := MarkAfter(q, r, sender, mark);
    if mark <= after {
      PeerArrivals.RisingMarkKeepsShare(r.arrivals, sender.remote, sender.peer, mark, after);
    } else {
      CommittedKeepsFresh(q, e, sender, mark);
      PeerArrivals.ResetKeepsShare(r.arrivals, sender.remote, sender.peer, mark);
    }
  }

  lemma ReleasingKeepsShare(t: Tracked, sender: Sender)
    ensures Shares(TrackedStep(t, DiscardedAndReleased, sender), sender)
  {
    NothingIsShared(sender, 0);
    NoneIsInv();
  }

  /**
   * A remote's share, over every run: above the mark its handle has reached, the list never holds more than
   * `MAX_ARRIVALS_PER_REMOTE` of its messages, no two with one number, through commits that raise the mark, aborts
   * and deaths that do not, and restarts of its peer that set it back while old messages still come in.
   */
  lemma {:induction false} EveryRunKeepsShare(t: Tracked, events: seq<TrackedEvent>, sender: Sender)
    requires Shares(t, sender)
    ensures Shares(TrackedRun(t, events, sender), sender)
    decreases |events|
  {
    hide Shares, Step;
    if events != [] {
      match events[0] {
        case DiscardedAndReleased => ReleasingKeepsShare(t, sender);
        case Happens(event) => MovingMarkKeepsShare(t.q, Judged(event, sender, t.mark), sender, t.mark);
      }
      EveryRunKeepsShare(TrackedStep(t, events[0], sender), events[1..], sender);
    }
  }

  /** In numbers: what a remote that shares so holds above its mark. */
  lemma SharesMeans(t: Tracked, sender: Sender)
    requires Shares(t, sender)
    ensures var held := PeerArrivals.Numbers(t.q.arrivals, sender.remote, sender.peer, t.mark);
            |held| <= 200 && forall number :: held[number] <= 1
  {
    PeerArrivals.NumbersAre(t.q.arrivals, sender.remote, sender.peer, t.mark, 0);
    forall number ensures PeerArrivals.Numbers(t.q.arrivals, sender.remote, sender.peer, t.mark)[number] <= 1 {
      PeerArrivals.ShareIsOfNumbers(t.q.arrivals, sender.remote, sender.peer, t.mark, number);
    }
  }

  /** A queue newly made holds nothing, whatever mark the remote's handle found in the store. */
  lemma InitShares(db: KernelStore.Store, mark: nat, sender: Sender)
    ensures Shares(Tracked(Init(db), mark), sender)
  {
    NothingIsShared(sender, mark);
    NoneIsInv();
  }

  // ------------------------------------------------------------------ an arrival's wait, over every run

  /** A crank opens with no control operation, collection or reaping to do first, in a loop not asked to end. */
  predicate IsPick(q: Q, e: Event) {
    e.EvBegin? && q.phase.Top? && q.controls == [] && e.priority.NoPriority? && !q.ending.EndAsked?
  }

  /** Where a step leaves the arrival that stood at `i`, unless it takes it, or the list is dropped. */
  function Whereabouts(q: Q, i: nat, e: Event): Option<nat>
    requires i < |q.arrivals|
  {
    var next := Step(q, e).arrivals;
    if next == q.arrivals then Some(i)
    else if e.EvArrival? then PeerArrivals.Follow(q.arrivals, i, e.event)
    else if next == q.arrivals[1..] then PeerArrivals.Follow(q.arrivals, i, PeerArrivals.TakeOldest)
    else None
  }

  /** The arrival is still there, and no more arrivals can come to stand ahead of it than could before. */
  lemma StillThere(q: Q, i: nat, e: Event)
    requires PeerArrivals.Inv(q.arrivals) && i < |q.arrivals|
    ensures match Whereabouts(q, i, e)
            case None => true
            case Some(j) =>
              && j < |Step(q, e).arrivals|
              && PeerArrivals.SameArrival(q.arrivals[i], Step(q, e).arrivals[j])
              && 0 <= PeerArrivals.Potential(Step(q, e).arrivals, j)
                   <= PeerArrivals.Potential(q.arrivals, i) - (if Step(q, e).arrivals == q.arrivals || e.EvArrival? then 0 else 1)
  {
    hide Step, PeerArrivals.Inv, PeerArrivals.Apply, PeerArrivals.Potential, PeerArrivals.Follow, ItemKept, PeerArrivals.SameArrival;
    StepSeen(q, e);
    SamePotential(q.arrivals, i);
    PeerArrivals.PotentialFalls(q.arrivals, i, PeerArrivals.TakeOldest);
    OldestTaken(q.arrivals);
    if e.EvArrival? { PeerArrivals.PotentialFalls(q.arrivals, i, e.event); }
  }

  lemma OldestTaken(list: seq<PeerArrivals.Arrival>)
    requires list != []
    ensures PeerArrivals.Apply(list, PeerArrivals.TakeOldest) == list[1..]
  {
  }

  lemma SamePotential(list: seq<PeerArrivals.Arrival>, i: nat)
    requires PeerArrivals.Inv(list) && i < |list|
    ensures PeerArrivals.SameArrival(list[i], list[i]) && 0 <= PeerArrivals.Potential(list, i)
  {
    PeerArrivals.RoomLeftIsNat(list[..i + 1]);
  }

  /** How many picks of a run pass before the arrival at `i` is taken or discarded, or all of them if it is not. */
  function PicksWaited(q: Q, i: nat, events: seq<Event>): nat
    requires PeerArrivals.Inv(q.arrivals) && i < |q.arrivals|
    decreases |events|
  {
    if events == [] then 0
    else
      StillThere(q, i, events[0]);
      StepKeepsInv(q, events[0]);
      match Whereabouts(q, i, events[0])
      case None => 0
      case Some(j) => (if IsPick(q, events[0]) then 1 else 0) + PicksWaited(Step(q, events[0]), j, events[1..])
  }

  /** What one step of the loop does to an arrival's patience: a pick spends some of it. */
  lemma PatienceFalls(q: Q, i: nat, e: Event)
    requires PeerArrivals.Inv(q.arrivals) && i < |q.arrivals| && Whereabouts(q, i, e).Some?
    ensures var j := Whereabouts(q, i, e).value;
            && j < |Step(q, e).arrivals|
            && 0 <= PeerArrivals.Patience(Step(q, e).arrivals, j, Step(q, e).tookArrivalLast)
                 <= PeerArrivals.Patience(q.arrivals, i, q.tookArrivalLast) - (if IsPick(q, e) then 1 else 0)
  {
    hide Step, PeerArrivals.Inv, PeerArrivals.Potential, PeerArrivals.Follow, Evolves, ItemKept, PeerArrivals.SameArrival;
    StillThere(q, i, e);
    StepSeen(q, e);
    if e.EvBegin? && q.phase.Top? { BeginningTurns(q, e); }
  }

  /** A pick takes the oldest arrival, or else an item of the run queue after an arrival; other openings leave the turn. */
  lemma BeginningTurns(q: Q, e: Event)
    requires e.EvBegin? && q.phase.Top? && q.arrivals != []
    ensures var r := Step(q, e);
            if IsPick(q, e) then
              || (r.arrivals == q.arrivals[1..] && r.tookArrivalLast)
              || (r.arrivals == q.arrivals && q.tookArrivalLast && !r.tookArrivalLast)
            else r.arrivals == q.arrivals && r.tookArrivalLast == q.tookArrivalLast
  {
    hide Park, Dequeue;
  }

  /**
   * However fast peers and the kernel's own work come in, a run of the loop takes or discards an arrival within
   * a number of picks fixed when it is held. Cranks that carry out control operations, collect or reap are not picks.
   */
  lemma {:induction false} WaitIsBounded(q: Q, i: nat, events: seq<Event>)
    requires PeerArrivals.Inv(q.arrivals) && i < |q.arrivals|
    ensures PicksWaited(q, i, events) <= PeerArrivals.Patience(q.arrivals, i, q.tookArrivalLast)
    decreases |events|
  {
    hide Step, PeerArrivals.Inv, PeerArrivals.Potential, Whereabouts, IsPick;
    SamePotential(q.arrivals, i);
    if events != [] {
      StillThere(q, i, events[0]);
      StepKeepsInv(q, events[0]);
      if Whereabouts(q, i, events[0]).Some? {
        PatienceFalls(q, i, events[0]);
        WaitIsBounded(Step(q, events[0]), Whereabouts(q, i, events[0]).value, events[1..]);
      }
    }
  }
}
