/**
 * Who waits for an answer that can still be given. Outside a crank, whoever awaits a message's result awaits a
 * promise the store still has to decide, unless its answer is listed for the next flush, or an abort has
 * dropped that listing: then, and only then, the caller is forsaken.
 *
 * A vat's own resolutions answer nobody before the open crank is flushed. Until then the promise is settled and
 * its subscriber listed in `resolvedInCrank`; a flush answers the listed, and an abort clears the list, undoing
 * what its own crank had resolved but not what an earlier one had.
 */
module LoopAnswers {
  import opened Prelude
  import opened KernelStore
  import opened KernelAccounting
  import opened KernelRouting
  import opened KernelLoop
  import opened LoopFrames
  import LoopConservation

  // ------------------------------------------------------------------ what the store leaves undecided

  predicate Undecided(s: Store, kpid: nat) {
    kpid < |s.promises| && s.promises[kpid].state.Unresolved?
  }

  /** No promise is decided but `decided`, none is decided anew, and none is forgotten. */
  ghost predicate Leaves(s: Store, t: Store, decided: set<nat>) {
    && |s.promises| <= |t.promises|
    && (forall kpid: nat | kpid < |s.promises| && kpid !in decided :: Undecided(t, kpid) <==> Undecided(s, kpid))
    && (forall kpid: nat | kpid < |s.promises| && !Undecided(s, kpid) :: !Undecided(t, kpid))
  }

  lemma CountsLeave(s: Store, t: Store)
    requires t.promises == s.promises
    ensures forall decided :: Leaves(s, t, decided)
  {
  }

  lemma SendLeaves(s: Store, target: KRef, m: KernelStore.Message, immediate: bool)
    ensures EnqueueSend(s, target, m, immediate).store.promises == s.promises
  {
    hide ChargeAll;
    ChargeAllRaises(s, SendRefs(target, m));
  }

  lemma {:induction false} NotifiesLeave(s: Store, subscribers: seq<EndpointId>, kpid: nat, immediate: bool)
    ensures EnqueueNotifies(s, subscribers, kpid, immediate).store.promises == s.promises
    decreases |subscribers|
  {
    if subscribers != [] && EnqueueNotify(s, subscribers[0], kpid, immediate).Done? {
      NotifiesLeave(EnqueueNotify(s, subscribers[0], kpid, immediate).store, subscribers[1..], kpid, immediate);
    }
  }

  lemma {:induction false} SendsLeave(s: Store, target: KRef, messages: seq<KernelStore.Message>, immediate: bool)
    ensures EnqueueSends(s, target, messages, immediate).store.promises == s.promises
    decreases |messages|
  {
    hide EnqueueSend;
    if messages != [] {
      SendLeaves(s, target, messages[0], immediate);
      if EnqueueSend(s, target, messages[0], immediate).Done? {
        SendsLeave(EnqueueSend(s, target, messages[0], immediate).store, target, messages[1..], immediate);
      }
    }
  }

  lemma SettlingLeaves(s: Store, id: nat, rejected: bool, value: CapData)
    requires id < |s.promises|
    ensures Leaves(s, SettlePromise(s, id, rejected, value).store, {id})
  {
    var row := s.promises[id];
    var drained := SetRow(s, id, row.(queue := []));
    ReleaseQueueKeepsRows(drained, KPromise(id), row.queue);
    hide ReleaseQueue;
  }

  lemma SamePromises(s: Store, t: Store, like: Store, into: Store, decided: set<nat>)
    requires Leaves(s, t, decided) && like.promises == s.promises && into.promises == t.promises
    ensures Leaves(like, into, decided)
  {
    forall kpid: nat | kpid < |like.promises|
      ensures kpid !in decided ==> (Undecided(into, kpid) <==> Undecided(like, kpid))
      ensures !Undecided(like, kpid) ==> !Undecided(into, kpid)
    {
      assert Undecided(like, kpid) <==> Undecided(s, kpid);
      assert Undecided(into, kpid) <==> Undecided(t, kpid);
    }
  }

  lemma ChargedLeaves(s: Store, subscribers: seq<EndpointId>, queue: seq<KernelStore.Message>, r: Resolution, immediate: bool)
    ensures Leaves(s, ResolveCharged(s, subscribers, queue, r, immediate).store, {r.kpid})
  {
    hide EnqueueNotifies, SettlePromise, EnqueueSends;
    NotifiesLeave(s, subscribers, r.kpid, immediate);
    var notified := EnqueueNotifies(s, subscribers, r.kpid, immediate);
    if notified.Done? && r.kpid < |notified.store.promises| {
      SettlingLeaves(notified.store, r.kpid, r.rejected, r.value);
      var settled := SettlePromise(notified.store, r.kpid, r.rejected, r.value);
      if settled.Done? { SendsLeave(settled.store, KPromise(r.kpid), queue, immediate); }
      SamePromises(notified.store, settled.store, s, ResolveCharged(s, subscribers, queue, r, immediate).store, {r.kpid});
    } else {
      CountsLeave(s, notified.store);
    }
  }

  /** Resolving a promise decides it and no other. */
  lemma ResolvingLeaves(s: Store, who: Agent, r: Resolution, immediate: bool)
    ensures Leaves(s, ResolveOne(s, who, r, immediate).store, {r.kpid})
  {
    hide ResolveCharged, ChargeAll;
    ChargeAllRaises(s, r.value.slots);
    var charged := ChargeAll(s, r.value.slots);
    if MayResolve(s, who, r.kpid) && charged.Done? {
      ChargedLeaves(charged.store, s.promises[r.kpid].state.subscribers, s.promises[r.kpid].queue, r, immediate);
    }
  }

  lemma OtherOpLeaves(s: Store, op: Op)
    requires !op.OpResolve? && !op.OpSend?
    ensures Leaves(s, ApplyOp(s, op).store, {})
  {
  }

  lemma HandingLeaves(s: Store, who: Agent, m: KernelStore.Message)
    ensures Leaves(s, HandOver(s, who, m).store, {})
  {
    if m.result.Some? { ReleaseAllKeepsRows(SetDecider(s, m.result.value, who), ResultRef(m)); }
  }

  lemma RequeueLeaves(s: Store, target: KRef, m: KernelStore.Message, kpid: nat)
    ensures Leaves(s, DeliverRequeue(s, target, m, kpid).store, {})
  {
    hide ChargeAll, ReleaseAll;
    ChargeAllRaises(s, SendRefs(KPromise(kpid), m));
    ReleaseAllKeepsRows(EnqueuePromiseMessage(s, kpid, m).store, SendRefs(target, m));
  }

  /** Collecting decides nothing: an undecided promise is owed its decision, so it is not collected. */
  lemma CollectingOneLeaves(s: Store, k: KRef, inFlight: multiset<KRef>)
    requires Sound(s, inFlight)
    ensures Leaves(s, CollectOne(s, k).store, {})
  {
    if k.KPromise? && Live(s, k.id) && Count(s, k) == 0 {
      UnreferencedHasNoQueue(s, k.id, inFlight);
      ReleaseAllKeepsRows(s, s.promises[k.id].state.value.slots);
    }
  }

  lemma {:induction false} CollectingLeaves(s: Store, candidates: seq<KRef>, inFlight: multiset<KRef>)
    requires Sound(s, inFlight)
    ensures Leaves(s, Collect(s, candidates).store, {})
    decreases |candidates|
  {
    hide Sound, CollectOne;
    if candidates != [] {
      CollectingOneLeaves(s, candidates[0], inFlight);
      if CollectOne(s, candidates[0]).Done? {
        CollectOneConserves(s, candidates[0], inFlight);
        CollectingLeaves(CollectOne(s, candidates[0]).store, candidates[1..], inFlight);
      }
    }
  }

  // ------------------------------------------------------------------ who awaits what

  /** Nobody but its first subscriber awaits a promise. */
  predicate OncePerPromise(subs: seq<Subscription>) {
    forall i, j | 0 <= i < j < |subs| :: subs[i].kpid != subs[j].kpid
  }

  predicate Within(subs: seq<Subscription>, n: nat) {
    forall i | 0 <= i < |subs| :: subs[i].kpid < n
  }

  predicate IsResolved(rs: seq<Resolution>, kpid: nat) {
    exists i | 0 <= i < |rs| :: rs[i].kpid == kpid
  }

  /** The promise is decided already, and its subscriber not answered: the answer is listed, or was and has been dropped. */
  predicate Passed(rs: seq<Resolution>, forsaken: set<nat>, kpid: nat) {
    IsResolved(rs, kpid) || kpid in forsaken
  }

  /** A subscription is to a promise still to be decided exactly if its answer is not listed and has not been dropped. */
  predicate AllAwait(s: Store, subs: seq<Subscription>, rs: seq<Resolution>, forsaken: set<nat>) {
    forall i | 0 <= i < |subs| :: Undecided(s, subs[i].kpid) <==> !Passed(rs, forsaken, subs[i].kpid)
  }

  predicate PassedWithin(rs: seq<Resolution>, forsaken: set<nat>, n: nat) {
    && (forall i | 0 <= i < |rs| :: rs[i].kpid < n)
    && (forall kpid | kpid in forsaken :: kpid < n)
  }

  /** Some subscribers have been answered. */
  predicate Fewer(subs: seq<Subscription>, fewer: seq<Subscription>) {
    && (OncePerPromise(subs) ==> OncePerPromise(fewer))
    && forall i | 0 <= i < |fewer| :: fewer[i] in subs
  }

  lemma FewerThrough(a: seq<Subscription>, b: seq<Subscription>, c: seq<Subscription>)
    requires Fewer(a, b) && Fewer(b, c)
    ensures Fewer(a, c)
  {
  }

  lemma FewerWithin(a: seq<Subscription>, b: seq<Subscription>, n: nat)
    requires Fewer(a, b) && Within(a, n)
    ensures Within(b, n)
  {
  }

  lemma FewerAwait(s: Store, a: seq<Subscription>, b: seq<Subscription>, rs: seq<Resolution>, forsaken: set<nat>)
    requires Fewer(a, b) && AllAwait(s, a, rs, forsaken)
    ensures AllAwait(s, b, rs, forsaken)
  {
    forall i | 0 <= i < |b| ensures Undecided(s, b[i].kpid) <==> !Passed(rs, forsaken, b[i].kpid) {
      var j :| 0 <= j < |a| && a[j] == b[i];
    }
  }

  /** Answering a promise's subscriber leaves the promise none. */
  lemma AnsweringFewer(q: Q, kpid: nat, answer: Answer)
    ensures var r := AnswerSubscriber(q, kpid, answer);
            && Fewer(q.subscriptions, r.subscriptions)
            && (OncePerPromise(q.subscriptions) ==> forall i | 0 <= i < |r.subscriptions| :: r.subscriptions[i].kpid != kpid)
  {
    var i := FindSubscription(q.subscriptions, kpid);
    hide FindSubscription;
    if i == |q.subscriptions| { FewerSelf(q.subscriptions); } else { WithoutOne(q.subscriptions, i); }
  }

  lemma WithoutOne(subs: seq<Subscription>, i: nat)
    requires i < |subs|
    ensures var rest := subs[..i] + subs[i + 1..];
            Fewer(subs, rest) && (OncePerPromise(subs) ==> forall j | 0 <= j < |rest| :: rest[j].kpid != subs[i].kpid)
  {
    var rest := subs[..i] + subs[i + 1..];
    forall j | 0 <= j < |rest| ensures rest[j] == subs[if j < i then j else j + 1] {}
  }

  lemma FirstOrLater(rs: seq<Resolution>, kpid: nat)
    requires rs != []
    ensures IsResolved(rs, kpid) <==> rs[0].kpid == kpid || IsResolved(rs[1..], kpid)
  {
    assert forall i | 0 <= i < |rs[1..]| :: rs[1..][i] == rs[i + 1];
  }

  lemma {:induction false} SettlingEachFewer(q: Q, rs: seq<Resolution>)
    ensures var r := SettleEach(q, rs);
            && Fewer(q.subscriptions, r.subscriptions)
            && (OncePerPromise(q.subscriptions) ==> forall i | 0 <= i < |r.subscriptions| :: !IsResolved(rs, r.subscriptions[i].kpid))
    decreases |rs|
  {
    hide AnswerSubscriber;
    if rs != [] {
      var first := Settle(q, rs[0]);
      AnsweringFewer(q, rs[0].kpid, if rs[0].rejected then RejectedWith(rs[0].value) else Resolved(rs[0].value));
      SettlingEachFewer(first, rs[1..]);
      var r := SettleEach(q, rs);
      FewerThrough(q.subscriptions, first.subscriptions, r.subscriptions);
      if OncePerPromise(q.subscriptions) {
        forall i | 0 <= i < |r.subscriptions| ensures !IsResolved(rs, r.subscriptions[i].kpid) {
          assert r.subscriptions[i] in first.subscriptions;
          FirstOrLater(rs, r.subscriptions[i].kpid);
        }
      }
    }
  }

  lemma {:induction false} NotifyingFewer(q: Q, items: seq<Item>)
    ensures Fewer(q.subscriptions, AnswerNotified(q, items).subscriptions)
    decreases |items|
  {
    hide AnswerOne, Fewer;
    if items == [] {
      FewerSelf(q.subscriptions);
    } else {
      AnsweringOneFewer(q, items[0]);
      NotifyingFewer(AnswerOne(q, items[0]), items[1..]);
      FewerThrough(q.subscriptions, AnswerOne(q, items[0]).subscriptions, AnswerNotified(q, items).subscriptions);
    }
  }

  lemma FewerSelf(subs: seq<Subscription>)
    ensures Fewer(subs, subs)
  {
  }

  lemma AnsweringOneFewer(q: Q, item: Item)
    ensures Fewer(q.subscriptions, AnswerOne(q, item).subscriptions)
  {
    hide AnswerSubscriber;
    if item.Notify? && item.kpid < |q.db.promises| && q.db.promises[item.kpid].state.Settled? {
      var state := q.db.promises[item.kpid].state;
      AnsweringFewer(q, item.kpid, if state.rejected then RejectedWith(state.value) else Resolved(state.value));
    }
  }

  // ------------------------------------------------------------------ operations

  /** What operations do: a promise is decided with its subscriber answered, or listed to be at the flush. */
  ghost predicate Onward(q: Q, r: Q) {
    && |q.db.promises| <= |r.db.promises|
    && Fewer(q.subscriptions, r.subscriptions)
    && (!q.phase.InCrank? ==> r.resolvedInCrank == q.resolvedInCrank)
    && r.phase == q.phase && r.forsaken == q.forsaken
    && (PassedWithin(q.resolvedInCrank, q.forsaken, |q.db.promises|) ==> PassedWithin(r.resolvedInCrank, r.forsaken, |r.db.promises|))
    && (OncePerPromise(q.subscriptions) && Within(q.subscriptions, |q.db.promises|)
        && AllAwait(q.db, q.subscriptions, q.resolvedInCrank, q.forsaken) ==>
          AllAwait(r.db, r.subscriptions, r.resolvedInCrank, r.forsaken))
  }

  lemma OnwardThrough(q: Q, r: Q, t: Q)
    requires Onward(q, r) && Onward(r, t)
    ensures Onward(q, t)
  {
    hide AllAwait, PassedWithin;
    FewerThrough(q.subscriptions, r.subscriptions, t.subscriptions);
    if OncePerPromise(q.subscriptions) && Within(q.subscriptions, |q.db.promises|) {
      FewerWithin(q.subscriptions, r.subscriptions, |q.db.promises|);
    }
  }

  lemma OnwardSelf(q: Q)
    ensures Onward(q, q)
  {
  }

  /** Enough is known of the counts for a refusal to be one: they are sound, or nobody waits. */
  ghost predicate Accountable(q: Q, f: multiset<KRef>) {
    q.subscriptions == [] || (!q.torn && LoopConservation.Balances(q, f))
  }

  /** A change of the store that decides nothing. */
  lemma LeavingOnward(q: Q, r: Q)
    requires Leaves(q.db, r.db, {}) && r.subscriptions == q.subscriptions && r.resolvedInCrank == q.resolvedInCrank
    requires r.phase == q.phase && r.forsaken == q.forsaken
    ensures Onward(q, r)
  {
    FewerSelf(q.subscriptions);
    if Within(q.subscriptions, |q.db.promises|) && AllAwait(q.db, q.subscriptions, q.resolvedInCrank, q.forsaken) {
      forall i | 0 <= i < |r.subscriptions|
        ensures Undecided(r.db, r.subscriptions[i].kpid) <==> !Passed(r.resolvedInCrank, r.forsaken, r.subscriptions[i].kpid)
      {
        assert Undecided(q.db, q.subscriptions[i].kpid) <==> !Passed(q.resolvedInCrank, q.forsaken, q.subscriptions[i].kpid);
      }
    }
  }

  lemma StoringOnward(q: Q, o: Outcome)
    requires Leaves(q.db, o.store, {})
    ensures Onward(q, StoreEffect(q, o).q)
  {
    LeavingOnward(q, StoreEffect(q, o).q);
  }

  lemma ChargingOnward(q: Q, o: Outcome, unpaid: multiset<KRef>)
    requires Leaves(q.db, o.store, {})
    ensures Onward(q, ChargingEffect(q, o, unpaid).q)
  {
    LeavingOnward(q, ChargingEffect(q, o, unpaid).q);
  }

  lemma ResolvedGrows(rs: seq<Resolution>, r: Resolution, kpid: nat)
    ensures IsResolved(rs + [r], kpid) <==> IsResolved(rs, kpid) || kpid == r.kpid
  {
    var more := rs + [r];
    if IsResolved(rs, kpid) { var i :| 0 <= i < |rs| && rs[i].kpid == kpid; assert more[i].kpid == kpid; }
    if kpid == r.kpid { assert more[|rs|].kpid == kpid; }
  }

  /** A refused resolution has decided nothing, and one that is not has decided its promise and no other. */
  lemma ResolvingDecides(s: Store, who: Agent, r: Resolution, immediate: bool, f: multiset<KRef>)
    requires Sound(s, f)
    ensures var o := ResolveOne(s, who, r, immediate);
            && (o.Threw? ==> o.store.promises == s.promises)
            && (o.Done? ==> r.kpid < |s.promises| && !Undecided(o.store, r.kpid))
  {
    hide Sound;
    ResolveOneConserves(s, who, r, immediate, f);
    if ResolveOne(s, who, r, immediate).Threw? { RefusedResolutionLeaks(s, who, r, immediate, f); }
  }

  lemma ResolvingOneOnward(q: Q, who: Agent, r: Resolution, immediate: bool, f: multiset<KRef>)
    requires (immediate || q.phase.InCrank?) && Accountable(q, f)
    ensures Onward(q, ResolveStep(q, who, r, immediate).q)
  {
    hide ResolveOne, Onward, ChargingEffect, Settle, Leaves, UnpaidByResolution, Sound, Undecided;
    var o, unpaid := ResolveOne(q.db, who, r, immediate), UnpaidByResolution(q.db, who, r);
    ResolvingLeaves(q.db, who, r, immediate);
    ChargingFrame(q, o, unpaid);
    ChargedAside(q, o, unpaid);
    var stored := ChargingEffect(q, o, unpaid).q;
    if q.subscriptions == [] {
      NobodyOnward(q, r, stored, immediate, o.Threw?);
    } else {
      ResolvingDecides(q.db, who, r, immediate, q.lost + f);
      if o.Threw? {
        CountsLeave(q.db, o.store);
        ChargingOnward(q, o, unpaid);
      } else if immediate {
        AnsweredOnward(q, stored, r);
      } else if FindSubscription(q.subscriptions, r.kpid) < |q.subscriptions| {
        ListedOnward(q, stored, r);
      } else {
        UnawaitedOnward(q, stored, r);
      }
    }
  }

  /** With nobody waiting, nobody is answered and nothing is listed. */
  lemma NobodyOnward(q: Q, r: Resolution, stored: Q, immediate: bool, threw: bool)
    requires q.subscriptions == [] && Deciding(q, stored, r)
    ensures Onward(q, stored) && Onward(q, Settle(stored, r))
    ensures FindSubscription(q.subscriptions, r.kpid) == |q.subscriptions|
  {
    hide Leaves;
    MoreRowsThan(q.db, stored.db, {r.kpid});
    AnsweringFrame(stored, r.kpid, if r.rejected then RejectedWith(r.value) else Resolved(r.value));
  }

  lemma MoreRowsThan(s: Store, t: Store, decided: set<nat>)
    requires Leaves(s, t, decided)
    ensures |s.promises| <= |t.promises|
  {
  }

  /** At most one promise has been decided in the store, and nobody told. */
  ghost predicate Deciding(q: Q, stored: Q, r: Resolution) {
    && Leaves(q.db, stored.db, {r.kpid}) && stored.subscriptions == q.subscriptions && stored.resolvedInCrank == q.resolvedInCrank
    && stored.phase == q.phase && stored.forsaken == q.forsaken
  }

  /** And it is decided now. */
  ghost predicate Decided(q: Q, stored: Q, r: Resolution) {
    Deciding(q, stored, r) && r.kpid < |q.db.promises| && !Undecided(stored.db, r.kpid)
  }

  lemma ChargedAside(q: Q, o: Outcome, unpaid: multiset<KRef>)
    ensures var stored := ChargingEffect(q, o, unpaid).q;
            && stored.subscriptions == q.subscriptions && stored.resolvedInCrank == q.resolvedInCrank
            && stored.phase == q.phase && stored.forsaken == q.forsaken
  {
  }

  /** Its subscriber is answered at once, */
  lemma AnsweredOnward(q: Q, stored: Q, r: Resolution)
    requires Decided(q, stored, r)
    ensures Onward(q, Settle(stored, r))
  {
    hide AnswerSubscriber, AllAwait, Fewer, OncePerPromise, Leaves, Within, Undecided;
    MoreRowsThan(q.db, stored.db, {r.kpid});
    AnsweringFewer(stored, r.kpid, if r.rejected then RejectedWith(r.value) else Resolved(r.value));
    AnsweringFrame(stored, r.kpid, if r.rejected then RejectedWith(r.value) else Resolved(r.value));
    if OncePerPromise(q.subscriptions) && Within(q.subscriptions, |q.db.promises|)
       && AllAwait(q.db, q.subscriptions, q.resolvedInCrank, q.forsaken) {
      DecidedAwait(q, r, Settle(stored, r), stored.db);
    }
  }

  /** or listed to be, */
  lemma ListedOnward(q: Q, stored: Q, r: Resolution)
    requires Decided(q, stored, r) && q.phase.InCrank?
    ensures Onward(q, stored.(resolvedInCrank := stored.resolvedInCrank + [r]))
  {
    hide AllAwait, Fewer, OncePerPromise, Leaves, Within, Undecided;
    MoreRowsThan(q.db, stored.db, {r.kpid});
    FewerSelf(q.subscriptions);
    if Within(q.subscriptions, |q.db.promises|) && AllAwait(q.db, q.subscriptions, q.resolvedInCrank, q.forsaken) {
      DecidedAwait(q, r, stored.(resolvedInCrank := stored.resolvedInCrank + [r]), stored.db);
    }
  }

  /** or it has none. */
  lemma UnawaitedOnward(q: Q, stored: Q, r: Resolution)
    requires Decided(q, stored, r) && FindSubscription(q.subscriptions, r.kpid) == |q.subscriptions|
    ensures Onward(q, stored)
  {
    hide AllAwait, Fewer, OncePerPromise, Leaves, Within, Undecided;
    MoreRowsThan(q.db, stored.db, {r.kpid});
    FewerSelf(q.subscriptions);
    if Within(q.subscriptions, |q.db.promises|) && AllAwait(q.db, q.subscriptions, q.resolvedInCrank, q.forsaken) {
      DecidedAwait(q, r, stored, stored.db);
    }
  }

  /** With the resolved promise's subscriber gone or listed, everybody else waits as before. */
  lemma DecidedAwait(q: Q, r: Resolution, t: Q, s: Store)
    requires Leaves(q.db, s, {r.kpid}) && t.db == s && Fewer(q.subscriptions, t.subscriptions) && !Undecided(s, r.kpid)
    requires Within(q.subscriptions, |q.db.promises|) && AllAwait(q.db, q.subscriptions, q.resolvedInCrank, q.forsaken)
    requires t.forsaken == q.forsaken
    requires || (t.resolvedInCrank == q.resolvedInCrank && forall i | 0 <= i < |t.subscriptions| :: t.subscriptions[i].kpid != r.kpid)
             || t.resolvedInCrank == q.resolvedInCrank + [r]
    ensures AllAwait(t.db, t.subscriptions, t.resolvedInCrank, t.forsaken)
  {
    forall i | 0 <= i < |t.subscriptions|
      ensures Undecided(t.db, t.subscriptions[i].kpid) <==> !Passed(t.resolvedInCrank, t.forsaken, t.subscriptions[i].kpid)
    {
      var kpid := t.subscriptions[i].kpid;
      var j :| 0 <= j < |q.subscriptions| && q.subscriptions[j] == t.subscriptions[i];
      assert Undecided(q.db, kpid) <==> !Passed(q.resolvedInCrank, q.forsaken, kpid);
      ResolvedGrows(q.resolvedInCrank, r, kpid);
    }
  }

  lemma AccountableThrough(q: Q, r: Q, f: multiset<KRef>)
    requires Accountable(q, f) && Operated(q, r) && Onward(q, r) && (!q.torn && LoopConservation.Balances(q, f) ==> LoopConservation.Balances(r, f))
    ensures Accountable(r, f)
  {
    hide LoopConservation.Balances;
    FewerOfNone(q.subscriptions, r.subscriptions);
  }

  lemma FewerOfNone(a: seq<Subscription>, b: seq<Subscription>)
    requires Fewer(a, b)
    ensures a == [] ==> b == []
  {
    if b != [] { assert b[0] in a; }
  }

  lemma {:induction false} ResolvingOnward(q: Q, who: Agent, rs: seq<Resolution>, immediate: bool, f: multiset<KRef>)
    requires (immediate || q.phase.InCrank?) && Accountable(q, f)
    ensures Onward(q, ResolveSteps(q, who, rs, immediate).q)
    decreases |rs|
  {
    hide ResolveStep, Onward, LoopConservation.Balances;
    if rs == [] {
      OnwardSelf(q);
    } else {
      var first := ResolveStep(q, who, rs[0], immediate);
      ResolvingOneOnward(q, who, rs[0], immediate, f);
      if !first.threw {
        ResolvingOneFrame(q, who, rs[0], immediate);
        if LoopConservation.Balances(q, f) { LoopConservation.ResolveStepBalances(q, who, rs[0], immediate, f); }
        AccountableThrough(q, first.q, f);
        ResolvingOnward(first.q, who, rs[1..], immediate, f);
        OnwardThrough(q, first.q, ResolveSteps(first.q, who, rs[1..], immediate).q);
      }
    }
  }

  lemma OpOnward(q: Q, op: Op, f: multiset<KRef>)
    requires Accountable(q, f)
    ensures Onward(q, OpStep(q, op).q)
  {
    hide Onward, ResolveSteps, StoreEffect, ChargingEffect, EnqueueSend, ApplyOp, Subscribe, Accountable;
    match op
    case OpResolve(who, rs, immediate) => ResolvingOnward(q, who, rs, AtOnce(q, immediate), f);
    case OpSend(target, m, immediate) =>
      SendLeaves(q.db, target, m, AtOnce(q, immediate));
      CountsLeave(q.db, EnqueueSend(q.db, target, m, AtOnce(q, immediate)).store);
      ChargingOnward(q, EnqueueSend(q.db, target, m, AtOnce(q, immediate)), Unpaid(q.db, SendRefs(target, m)));
    case OpSubscribe(endpoint, kpid, immediate) =>
      LoopConservation.SubscribingIsApplying(q.db, endpoint, kpid, AtOnce(q, immediate));
      OtherOpLeaves(q.db, OpSubscribe(endpoint, kpid, AtOnce(q, immediate)));
      StoringOnward(q, Subscribe(q.db, endpoint, kpid, AtOnce(q, immediate)));
    case _ =>
      OtherOpLeaves(q.db, op);
      StoringOnward(q, ApplyOp(q.db, op));
  }

  lemma {:induction false} OpsOnward(q: Q, ops: seq<Op>, f: multiset<KRef>)
    requires Accountable(q, f)
    ensures Onward(q, OpSteps(q, ops).q)
    decreases |ops|
  {
    hide Onward, OpStep, LoopConservation.Balances;
    if ops == [] {
      OnwardSelf(q);
    } else {
      var first := OpStep(q, ops[0]);
      OpOnward(q, ops[0], f);
      if !first.threw {
        OperatingFrame(q, ops[0]);
        if LoopConservation.Balances(q, f) { LoopConservation.OpBalances(q, ops[0], f); }
        AccountableThrough(q, first.q, f);
        OpsOnward(first.q, ops[1..], f);
        OnwardThrough(q, first.q, OpSteps(first.q, ops[1..]).q);
      }
    }
  }

  lemma ReleasingOnward(q: Q, refs: seq<KRef>)
    ensures Onward(q, StoreEffect(q, ReleaseAll(q.db, refs)).q)
  {
    hide Onward, StoreEffect, ReleaseAll;
    ReleaseAllKeepsRows(q.db, refs);
    CountsLeave(q.db, ReleaseAll(q.db, refs).store);
    StoringOnward(q, ReleaseAll(q.db, refs));
  }

  lemma RejectingOnward(q: Q, result: Option<nat>, error: CapData, refs: seq<KRef>, f: multiset<KRef>)
    requires Accountable(q, f)
    ensures Onward(q, RejectAndRelease(q, result, error, refs).q)
  {
    hide Onward, ResolveSteps, StoreEffect, ReleaseAll, Accountable;
    OnwardSelf(q);
    var rejected := RejectResultStep(q, result, error);
    if result.Some? && Live(q.db, result.value) {
      ResolvingOnward(q, Decider(q.db, result.value), [Resolution(result.value, true, error)], true, f);
    }
    ReleasingOnward(rejected.q, refs);
    if !rejected.threw { OnwardThrough(q, rejected.q, StoreEffect(rejected.q, ReleaseAll(rejected.q.db, refs)).q); }
  }

  lemma StartingOnward(q: Q, item: LoopItem, running: set<EndpointId>, f: multiset<KRef>)
    requires Accountable(q, f)
    ensures Onward(q, StartEffect(q, item, running).0.q)
  {
    hide Onward, RejectAndRelease, StoreEffect, HandOver, DeliverRequeue, Decrement, Accountable;
    OnwardSelf(q);
    match item
    case RunItem(Send(target, m)) =>
      match RouteOf(q.db, target) {
        case UnknownPromise =>
        case Splat(error) => RejectingOnward(q, m.result, error, SendRefs(target, m), f);
        case Requeue(kpid) =>
          RequeueLeaves(q.db, target, m, kpid);
          StoringOnward(q, DeliverRequeue(q.db, target, m, kpid));
        case ToAgent(who, _) =>
          RejectingOnward(q, m.result, KERNEL_ERROR, ResultRef(m) + [target] + m.methargs.slots, f);
          HandingLeaves(q.db, who, m);
          StoringOnward(q, HandOver(q.db, who, m));
      }
    case RunItem(Notify(_, kpid)) =>
      DecrementLeaves(q.db, KPromise(kpid));
      StoringOnward(q, Decrement(q.db, KPromise(kpid)));
    case _ =>
  }

  lemma DecrementLeaves(s: Store, k: KRef)
    ensures Leaves(s, Decrement(s, k).store, {})
  {
  }

  lemma ServedOnward(q: Q, refs: seq<KRef>, who: Agent, result: Option<nat>, failed: bool, f: multiset<KRef>)
    requires Accountable(q, f)
    ensures Onward(q, ServedEffect(q, refs, who, result, failed).q)
  {
    hide Onward, ResolveSteps, StoreEffect, ReleaseAll, Accountable;
    OnwardSelf(q);
    var told := if failed then RejectIfPendingStep(q, who, result, KERNEL_ERROR) else Effect(q, false);
    if result.Some? { ResolvingOnward(q, who, [Resolution(result.value, true, KERNEL_ERROR)], true, f); }
    ReleasingOnward(told.q, refs);
    if !told.threw { OnwardThrough(q, told.q, StoreEffect(told.q, ReleaseAll(told.q.db, refs)).q); }
  }

  // ------------------------------------------------------------------ the invariant

  /** What is awaited, in a store and with these answers listed. */
  predicate AwaitsIn(q: Q, s: Store, rs: seq<Resolution>) {
    && Within(q.subscriptions, |s.promises|) && PassedWithin(rs, q.forsaken, |s.promises|)
    && AllAwait(s, q.subscriptions, rs, q.forsaken)
  }

  predicate Awaiting(q: Q) {
    OncePerPromise(q.subscriptions) && AwaitsIn(q, q.db, q.resolvedInCrank)
  }

  /** What would be awaited if the open crank were undone, and nobody answered for it. */
  predicate SavedAwaiting(q: Q) {
    AwaitsIn(q, q.saved, q.savedListed)
  }

  predicate Expecting(q: Q) {
    Awaiting(q) && (q.phase.InCrank? ==> SavedAwaiting(q)) && (q.phase.Dead? ==> q.subscriptions == [])
  }

  lemma OnwardAwaits(q: Q, r: Q)
    requires Awaiting(q) && Onward(q, r)
    ensures Awaiting(r)
  {
    hide AllAwait, PassedWithin;
    FewerWithin(q.subscriptions, r.subscriptions, |q.db.promises|);
    MoreRows(r.subscriptions, |q.db.promises|, |r.db.promises|);
    OnceFewer(q.subscriptions, r.subscriptions);
  }

  lemma OnwardSaves(q: Q, r: Q)
    requires SavedAwaiting(q) && Fewer(q.subscriptions, r.subscriptions)
    requires r.saved == q.saved && r.savedListed == q.savedListed && r.forsaken == q.forsaken
    ensures SavedAwaiting(r)
  {
    hide AllAwait, PassedWithin;
    FewerWithin(q.subscriptions, r.subscriptions, |q.saved.promises|);
    FewerAwait(q.saved, q.subscriptions, r.subscriptions, q.savedListed, q.forsaken);
  }

  /** Operations of any kind, by anybody, wherever the loop stands. */
  lemma OnwardKeeps(q: Q, r: Q)
    requires Expecting(q) && Onward(q, r) && r.saved == q.saved && r.savedListed == q.savedListed
    ensures Expecting(r)
  {
    hide AwaitsIn, OncePerPromise;
    OnwardAwaits(q, r);
    FewerOfNone(q.subscriptions, r.subscriptions);
    if q.phase.InCrank? { OnwardSaves(q, r); }
  }

  lemma CountedIsAccountable(q: Q)
    requires Expecting(q) && LoopConservation.Conserved(q)
    ensures Accountable(q, InFlight(q))
  {
    hide Sound;
  }

  lemma OpsKeep(q: Q, ops: seq<Op>, f: multiset<KRef>)
    requires Expecting(q) && Accountable(q, f)
    ensures Expecting(OpSteps(q, ops).q)
  {
    hide Expecting, Onward, OpSteps, Accountable;
    OpsFrame(q, ops);
    OpsOnward(q, ops, f);
    OnwardKeeps(q, OpSteps(q, ops).q);
  }

  // ------------------------------------------------------------------ requests

  lemma NewSubscription(q: Q, s: Store, r: Q, caller: Caller)
    requires Expecting(q) && !q.phase.InCrank? && !q.phase.Dead?
    requires |s.promises| == |q.db.promises| + 1 && Leaves(q.db, s, {}) && Undecided(s, |q.db.promises|)
    requires r.db == s && r.phase == q.phase && r.resolvedInCrank == q.resolvedInCrank && r.forsaken == q.forsaken
    requires r.subscriptions == q.subscriptions + [Subscription(|q.db.promises|, caller)]
    ensures Expecting(r)
  {
    forall i | 0 <= i < |r.subscriptions|
      ensures Undecided(s, r.subscriptions[i].kpid) <==> !Passed(r.resolvedInCrank, r.forsaken, r.subscriptions[i].kpid)
    {
      if i < |q.subscriptions| {
        assert Undecided(q.db, q.subscriptions[i].kpid) <==> !Passed(q.resolvedInCrank, q.forsaken, q.subscriptions[i].kpid);
      }
    }
  }

  /** A loop that has not died knows its counts. */
  ghost predicate Counted(q: Q) {
    !q.torn && LoopConservation.Balances(q, multiset{}) && LoopConservation.ProperHeld(q.held)
  }

  lemma WritingMessageKeeps(q: Q, caller: Caller, target: KRef, methargs: CapData)
    requires Expecting(q) && !q.phase.InCrank? && !q.phase.Dead? && !q.torn && LoopConservation.Balances(q, multiset{})
    ensures Expecting(WriteMessage(q, caller, target, methargs).q)
  {
    hide Expecting, EnqueueSend, SomeMissing, Sound, Leaves;
    if SomeMissing(q.db, target, methargs) {
      SameExpecting(q, Tell(q, caller, ObjectDeleted));
    } else {
      var kpid := |q.db.promises|;
      var m := KernelStore.Message(methargs, Some(kpid));
      var o := EnqueueSend(InitPromise(q.db), target, m, true);
      LoopConservation.FreshSendSucceeds(q.db, target, methargs, q.lost + multiset{});
      SendLeaves(InitPromise(q.db), target, m, true);
      OnePromiseMore(q.db, o.store);
      NewSubscription(q, o.store, WriteMessage(q, caller, target, methargs).q, caller);
    }
  }

  lemma OnePromiseMore(s: Store, t: Store)
    requires t.promises == InitPromise(s).promises
    ensures |t.promises| == |s.promises| + 1 && Leaves(s, t, {}) && Undecided(t, |s.promises|)
  {
  }

  /** The account of who awaits what does not depend on anything else. */
  lemma SameExpecting(q: Q, r: Q)
    requires Expecting(q) && r.subscriptions == q.subscriptions && r.resolvedInCrank == q.resolvedInCrank && r.forsaken == q.forsaken
    requires r.db.promises == q.db.promises && r.saved == q.saved && r.savedListed == q.savedListed
    requires (r.phase.InCrank? ==> q.phase.InCrank?) && (r.phase.Dead? ==> q.phase.Dead?)
    ensures Expecting(r)
  {
    SameAwaits(q, r, q.db, r.db, q.resolvedInCrank);
    SameAwaits(q, r, q.saved, r.saved, q.savedListed);
  }

  lemma SameAwaits(q: Q, r: Q, s: Store, t: Store, rs: seq<Resolution>)
    requires r.subscriptions == q.subscriptions && r.forsaken == q.forsaken && t.promises == s.promises
    ensures AwaitsIn(q, s, rs) ==> AwaitsIn(r, t, rs)
  {
    if AwaitsIn(q, s, rs) {
      forall i | 0 <= i < |r.subscriptions|
        ensures Undecided(t, r.subscriptions[i].kpid) <==> !Passed(rs, r.forsaken, r.subscriptions[i].kpid)
      {
        assert Undecided(s, q.subscriptions[i].kpid) <==> !Passed(rs, q.forsaken, q.subscriptions[i].kpid);
      }
    }
  }

  lemma WritingKeeps(q: Q, h: HeldRequest)
    requires Expecting(q) && !q.phase.InCrank? && !q.phase.Dead? && !q.torn && LoopConservation.Balances(q, multiset{})
    ensures Expecting(WriteRequest(q, h).q)
  {
    hide Expecting, WriteMessage, OpSteps, LoopConservation.Balances;
    match h
    case HeldMessage(caller, target, methargs) => WritingMessageKeeps(q, caller, target, methargs);
    case HeldWrite(caller, ops) =>
      OpsKeep(q, ops, multiset{});
      var done := OpSteps(q, ops);
      SameExpecting(done.q, Tell(done.q, caller, if done.threw then WriteFailed else Performed));
    case HeldItem(item) => SameExpecting(q, WithStore(q, Append(q.db, item, true)));
  }

  lemma {:induction false} WritingHeldKeeps(q: Q, fault: Option<nat>)
    requires Expecting(q) && !q.phase.InCrank? && !q.phase.Dead? && Counted(q)
    ensures Expecting(WriteHeld(q, fault).q) && WriteHeld(q, fault).q.phase == q.phase
    decreases |q.held|
  {
    hide Expecting, WriteRequest, LoopConservation.Balances;
    if q.held != [] && fault != Some(0) {
      var first := WriteRequest(q, q.held[0]);
      WritingKeeps(q, q.held[0]);
      WritingFrame(q, q.held[0]);
      LoopConservation.WritingBalances(q, q.held[0]);
      if !first.threw {
        var next := first.q.(held := q.held[1..]);
        SameExpecting(first.q, next);
        LoopConservation.SameBalance(first.q, next, multiset{});
        WritingHeldKeeps(next, if fault.Some? && fault.value > 0 then Some(fault.value - 1) else None);
      }
    }
  }

  lemma RequestingKeeps(q: Q, h: HeldRequest)
    requires Expecting(q) && !q.phase.Dead? && LoopConservation.Conserved(q)
    ensures Expecting(Request(q, h))
  {
    hide Expecting, WriteRequest, Sound;
    if q.phase.InCrank? {
      SameExpecting(q, q.(held := q.held + [h]));
    } else {
      WritingKeeps(q, h);
      WritingFrame(q, h);
      var written := WriteRequest(q, h);
      if written.threw && !h.HeldItem? { SameExpecting(written.q, Tell(written.q, h.caller, WriteFailed)); }
    }
  }

  // ------------------------------------------------------------------ opening, delivering, closing

  /** The dead await nothing. */
  lemma DyingExpects(q: Q)
    requires PassedWithin([], q.forsaken, |q.db.promises|)
    ensures Expecting(FailRunLoop(q))
  {
    hide ToldOfDeath;
  }

  lemma OpeningExpects(q: Q, r: Q, item: LoopItem)
    requires Expecting(q) && q.phase.Top? && r.saved == q.db && r.savedListed == q.resolvedInCrank && r.forsaken == q.forsaken
    requires r.db.promises == q.db.promises && r.subscriptions == q.subscriptions && r.resolvedInCrank == q.resolvedInCrank
    requires r.phase == InCrank(item, Waiting)
    ensures Expecting(r)
  {
    SameAwaits(q, r, q.db, r.db, q.resolvedInCrank);
    SameAwaits(q, r, q.db, r.saved, q.resolvedInCrank);
  }

  lemma ForsakenWithin(q: Q)
    requires Awaiting(q)
    ensures PassedWithin([], q.forsaken, |q.db.promises|)
  {
  }

  lemma ParkingKeeps(q: Q, endFault: bool, heldFault: Option<nat>)
    requires Expecting(q.(phase := Top)) && Counted(q) && q.saved.promises == q.db.promises
    ensures Expecting(Park(q, endFault, heldFault))
  {
    hide Expecting, FailRunLoop, WriteHeld, PassedWithin, LoopConservation.Balances;
    TopAwaits(q);
    ForsakenWithin(q);
    DyingExpects(RollBack(q));
    var parked := q.(wakeSet := true, phase := Parked);
    DyingExpects(Uncommitted(parked));
    SameExpecting(q.(phase := Top), parked);
    LoopConservation.SameBalance(q, parked, multiset{});
    WritingHeldKeeps(parked, heldFault);
    WritingForsaken(parked, heldFault);
    DyingExpects(WriteHeld(parked, heldFault).q);
  }

  lemma TopAwaits(q: Q)
    requires Expecting(q.(phase := Top))
    ensures Awaiting(q)
  {
  }

  lemma WritingForsaken(q: Q, fault: Option<nat>)
    requires Expecting(WriteHeld(q, fault).q)
    ensures PassedWithin([], WriteHeld(q, fault).q.forsaken, |WriteHeld(q, fault).q.db.promises|)
  {
    hide WriteHeld;
  }

  lemma TakingLeaves(q: Q, priority: Priority)
    ensures GetNext(q, priority).q.db.promises == q.db.promises
  {
  }

  lemma BeginningExpects(q: Q, priority: Priority, endFault: bool, heldFault: Option<nat>)
    requires Expecting(q) && q.phase.Top? && LoopConservation.Conserved(q) && LoopConservation.ProperHeld(q.held)
    ensures Expecting(Begin(q, priority, endFault, heldFault))
  {
    hide Expecting, GetNext, Park, Sound, LoopConservation.ProperHeld;
    LoopConservation.BeforeBeginning(q);
    var open := Savepoint(q);
    var taken := GetNext(open, priority);
    TakingFrame(open, priority);
    TakingLeaves(open, priority);
    if q.ending.EndAsked? && q.controls == [] {
      SameExpecting(q, q.(phase := Ended, ending := EndAnswered));
    } else if taken.item.Some? {
      OpeningExpects(q, taken.q.(phase := InCrank(taken.item.value, Waiting)), taken.item.value);
    } else {
      LoopConservation.SameBalance(q, open, multiset{});
      LoopConservation.TakingConserves(open, priority);
      TopExpecting(q, taken.q.(phase := Top));
      ParkingKeeps(taken.q, endFault, heldFault);
    }
  }

  lemma TopExpecting(q: Q, r: Q)
    requires Expecting(q) && r.subscriptions == q.subscriptions && r.resolvedInCrank == q.resolvedInCrank && r.forsaken == q.forsaken
    requires r.db.promises == q.db.promises && r.phase.Top?
    ensures Expecting(r)
  {
    SameAwaits(q, r, q.db, r.db, q.resolvedInCrank);
  }

  lemma ReachingExpects(q: Q, done: Effect, stage: Stage)
    requires Expecting(q) && q.phase.InCrank? && Onward(q, done.q) && Operated(q, done.q)
    ensures Expecting(Reached(q, done, stage))
  {
    hide AwaitsIn, OncePerPromise, Onward, Expecting, InFlight;
    OnwardKeeps(q, done.q);
    SameExpecting(done.q, Reached(q, done, stage));
  }

  lemma DeliveringExpects(q: Q, running: set<EndpointId>)
    requires Expecting(q) && q.phase.InCrank? && LoopConservation.Conserved(q)
    ensures Expecting(DeliverStep(q, running))
  {
    hide Expecting, Onward, Operated, StartEffect, Reached, LoopConservation.Conserved, Accountable;
    var (done, stage) := StartEffect(q, q.phase.item, running);
    CountedIsAccountable(q);
    StartingFrame(q, q.phase.item, running);
    StartingOnward(q, q.phase.item, running, InFlight(q));
    ReachingExpects(q, done, stage);
  }

  lemma ServingExpects(q: Q, failed: bool)
    requires Expecting(q) && q.phase.InCrank? && q.phase.stage.Serving? && LoopConservation.Conserved(q)
    ensures Expecting(ServedStep(q, failed))
  {
    hide Expecting, Onward, Operated, ServedEffect, Reached, LoopConservation.Conserved, Accountable;
    var s := q.phase.stage;
    CountedIsAccountable(q);
    ServedFrame(q, s.refs, s.who, s.result, failed);
    ServedOnward(q, s.refs, s.who, s.result, failed, InFlight(q));
    ReachingExpects(q, ServedEffect(q, s.refs, s.who, s.result, failed), Delivered);
  }

  lemma OnceFewer(a: seq<Subscription>, b: seq<Subscription>)
    requires Fewer(a, b) && OncePerPromise(a)
    ensures OncePerPromise(b)
  {
  }

  lemma MoreRows(subs: seq<Subscription>, n: nat, m: nat)
    requires Within(subs, n) && n <= m
    ensures Within(subs, m)
  {
  }

  lemma AbortFewer(q: Q, result: CrankResult, env: Env)
    requires q.phase.InCrank? && result.abort && !env.rollbackFault
    ensures Fewer(q.subscriptions, AbortStep(q, result, env).q.subscriptions)
  {
    hide AnswerSubscriber, Fewer, LostByReturning, PromisesOf;
    var cleared := RollBack(q).(rollbackAllowed := false, resolvedInCrank := [], forsaken := q.forsaken + PromisesOf(q.savedListed));
    FewerSelf(q.subscriptions);
    match q.phase.item
    case RunItem(Send(_, m)) =>
      if m.result.Some? {
        AnsweringFewer(cleared, m.result.value, VatEnded);
        AnsweringFrame(cleared, m.result.value, VatEnded);
      }
    case _ =>
  }

  /** Dropping a list of answers forsakes whoever they were for, and nobody else. */
  lemma DroppingForsakes(s: Store, t: Store, subs: seq<Subscription>, rs: seq<Resolution>, forsaken: set<nat>)
    requires AllAwait(s, subs, rs, forsaken) && t.promises == s.promises
    ensures AllAwait(t, subs, [], forsaken + PromisesOf(rs)) && AllAwait(s, subs, rs, forsaken + PromisesOf(rs))
  {
    forall i | 0 <= i < |subs|
      ensures Undecided(t, subs[i].kpid) <==> !Passed([], forsaken + PromisesOf(rs), subs[i].kpid)
      ensures Undecided(s, subs[i].kpid) <==> !Passed(rs, forsaken + PromisesOf(rs), subs[i].kpid)
    {
      assert Undecided(s, subs[i].kpid) <==> !Passed(rs, forsaken, subs[i].kpid);
      assert IsResolved(rs, subs[i].kpid) <==> subs[i].kpid in PromisesOf(rs);
    }
  }

  /**
   * An abort gives its own crank's promises back undecided, and forsakes exactly those whose promise an earlier
   * crank had decided and listed.
   */
  lemma AbortingExpects(q: Q, result: CrankResult, env: Env)
    requires Expecting(q) && q.phase.InCrank?
    ensures var e := AbortStep(q, result, env);
            && (!e.threw ==> Awaiting(e.q) && SavedAwaiting(e.q))
            && PassedWithin([], e.q.forsaken, |e.q.db.promises|)
  {
    hide AbortStep, AllAwait, Fewer, Within, OncePerPromise, LostByReturning, PromisesOf;
    AbortingFrame(q, result, env);
    var r := AbortStep(q, result, env).q;
    SavedForsaken(q);
    if result.abort && !env.rollbackFault {
      AbortFewer(q, result, env);
      FewerWithin(q.subscriptions, r.subscriptions, |q.saved.promises|);
      FewerAwait(q.saved, q.subscriptions, r.subscriptions, q.savedListed, q.forsaken);
      DroppingForsakes(q.saved, r.db, r.subscriptions, q.savedListed, q.forsaken);
      OnceFewer(q.subscriptions, r.subscriptions);
    }
  }

  lemma SavedForsaken(q: Q)
    requires SavedAwaiting(q)
    ensures PassedWithin(q.savedListed, q.forsaken + PromisesOf(q.savedListed), |q.saved.promises|)
    ensures PassedWithin([], q.forsaken + PromisesOf(q.savedListed), |q.saved.promises|) && PassedWithin([], q.forsaken, |q.saved.promises|)
  {
  }

  /** A collection, from counts that are right. */
  lemma CollectingAwaits(q: Q, env: Env)
    requires Awaiting(q) && LoopConservation.Balances(q, multiset{}) && !q.torn
    ensures var c := CollectStep(q, env);
            Awaiting(c.q) && c.q.resolvedInCrank == q.resolvedInCrank && c.q.forsaken == q.forsaken
  {
    hide Sound, Collect, Awaiting, Onward;
    CollectingLeaves(q.db, env.candidates, q.lost + multiset{});
    StoringOnward(q, Collect(q.db, env.candidates));
    OnwardAwaits(q, StoreEffect(q, Collect(q.db, env.candidates)).q);
  }

  /** A flush answers whoever was listed. */
  lemma FlushingAwaits(q: Q, env: Env)
    requires Awaiting(q)
    ensures var e := FlushStep(q, env); e.threw || (Awaiting(e.q) && e.q.resolvedInCrank == [])
  {
    var e := FlushStep(q, env);
    if !e.threw {
      hide AnswerNotified, SettleEach, AllAwait, Within, OncePerPromise, Fewer;
      var moved := WithStore(q, Flush(q.db));
      var answered := AnswerNotified(moved, q.db.crankBuffer);
      NotifyingFewer(moved, q.db.crankBuffer);
      NotifyingFrame(moved, q.db.crankBuffer);
      OnceFewer(q.subscriptions, answered.subscriptions);
      SettlingEachFewer(answered, answered.resolvedInCrank);
      SettlingEachFrame(answered, answered.resolvedInCrank);
      FewerThrough(q.subscriptions, answered.subscriptions, e.q.subscriptions);
      OnceFewer(q.subscriptions, e.q.subscriptions);
      FewerWithin(q.subscriptions, e.q.subscriptions, |q.db.promises|);
      FewerAwait(q.db, q.subscriptions, e.q.subscriptions, q.resolvedInCrank, q.forsaken);
      NoneLeftListed(q, e.q);
    }
  }

  lemma NoneLeftListed(q: Q, r: Q)
    requires AllAwait(q.db, r.subscriptions, q.resolvedInCrank, q.forsaken) && r.db.promises == q.db.promises && r.forsaken == q.forsaken
    requires forall i | 0 <= i < |r.subscriptions| :: !IsResolved(q.resolvedInCrank, r.subscriptions[i].kpid)
    ensures AllAwait(r.db, r.subscriptions, [], r.forsaken)
  {
    forall i | 0 <= i < |r.subscriptions|
      ensures Undecided(r.db, r.subscriptions[i].kpid) <==> !Passed([], r.forsaken, r.subscriptions[i].kpid)
    {
      assert Undecided(q.db, r.subscriptions[i].kpid) <==> !Passed(q.resolvedInCrank, q.forsaken, r.subscriptions[i].kpid);
    }
  }

  lemma CommittingExpects(q: Q, result: CrankResult, env: Env)
    requires Awaiting(q) && Counted(q)
    ensures Expecting(Commit(q, result, env))
  {
    hide Awaiting, SavedAwaiting, WriteHeld, Resume, LoopConservation.Balances;
    var top := q.(phase := Top);
    CommittedTop(q);
    LoopConservation.SameBalance(q, top, multiset{});
    WritingHeldKeeps(top, env.heldFault);
    var written := WriteHeld(top, env.heldFault);
    ResumingExpects(written.q, written.threw);
    SameExpecting(written.q, written.q.(phase := AfterCommit(written.threw)));
  }

  lemma CommittedTop(q: Q)
    requires Awaiting(q)
    ensures Expecting(q.(phase := Top))
  {
    SameAwaits(q, q.(phase := Top), q.db, q.db, q.resolvedInCrank);
  }

  lemma ResumingExpects(q: Q, heldFailed: bool)
    requires Expecting(q) && !q.phase.InCrank?
    ensures Expecting(Resume(q, heldFailed))
  {
    hide FailRunLoop, AnswerControl, AwaitsIn, OncePerPromise, PassedWithin, SavedAwaiting;
    var answered := AnswerControl(q);
    ForsakenWithin(q);
    AnsweringControlFrame(q);
    SameExpecting(q, answered);
    DyingExpects(answered);
    if q.phase.Dead? { SameExpecting(q, answered); NobodyAwaits(answered, Top); } else { SameExpecting(answered, answered.(phase := Top)); }
  }

  lemma NobodyAwaits(q: Q, phase: Phase)
    requires Expecting(q) && !phase.InCrank? && q.phase.Dead?
    ensures Expecting(q.(phase := phase))
  {
  }

  lemma FailedExpects(q: Q, env: Env)
    requires PassedWithin([], q.forsaken, |q.db.promises|) && (q.rollbackAllowed || env.endFault ==> PassedWithin([], q.forsaken, |q.saved.promises|))
    ensures Expecting(CrankFailed(q, env))
  {
    hide Expecting, FailRunLoop, PassedWithin, LostByReturning;
    var undone := if q.rollbackAllowed then RollBack(q) else q;
    DyingExpects(if env.endFault then Uncommitted(undone) else undone);
  }

  lemma ClosingAwaits(q: Q, result: CrankResult, env: Env)
    requires Awaiting(q) && LoopConservation.Balances(q, multiset{}) && !q.torn
    ensures var c := Closing(q, result, env);
            (!c.threw ==> Awaiting(c.q)) && PassedWithin([], c.q.forsaken, |c.q.db.promises|)
  {
    hide Sound, CollectStep, FlushStep, AllAwait, Within, OncePerPromise, Flushed, LostByFlush;
    var bound := q.(rollbackAllowed := q.rollbackAllowed && !result.irrevocable);
    var collected := CollectStep(bound, env);
    CollectingAwaits(bound, env);
    AuditingFrame(collected.q, result, env);
    FlushedRows(collected.q.db, env.flushFault);
    FlushingAwaits(collected.q, env);
  }

  lemma FlushedRows(s: Store, fault: Option<nat>)
    ensures Flushed(s, fault).promises == s.promises
  {
  }

  lemma ClosingExpects(q: Q, result: CrankResult, env: Env)
    requires Awaiting(q) && LoopConservation.Balances(q, multiset{}) && !q.torn && LoopConservation.ProperHeld(q.held)
    requires PassedWithin([], q.forsaken, |q.saved.promises|)
    ensures Expecting(Close(q, result, env))
  {
    hide Expecting, Sound, CrankFailed, Closing, Commit, FailRunLoop, Awaiting, PassedWithin, LostByReturning, LoopConservation.ProperHeld;
    var closed := Closing(q, result, env);
    ClosingAwaits(q, result, env);
    ClosingStoreFrame(q, result, env);
    LoopConservation.ClosingBalances(q, result, env);
    FailedExpects(closed.q, env);
    DyingExpects(Uncommitted(closed.q));
    if !closed.threw { CommittingExpects(closed.q, result, env); }
  }

  lemma FinishingExpects(q: Q, end: DeliverEnd, env: Env)
    requires Expecting(q) && LoopConservation.Conserved(q) && MayFinish(q, end) && LoopConservation.ProperHeld(q.held)
    ensures Expecting(Finish(q, end, env))
  {
    hide Sound, CrankFailed, AbortStep, Close, AwaitsIn, OncePerPromise, PassedWithin, LoopConservation.ProperHeld, PromisesOf, LostByReturning;
    ForsakenWithin(q);
    SavedForsaken(q);
    FailedExpects(q, env);
    if end.Returned? {
      var result := ResultOf(q.phase.item, end.result);
      var aborted := AbortStep(q, result, env);
      AbortingExpects(q, result, env);
      AbortingFrame(q, result, env);
      LoopConservation.AbortingConserves(q, result, env);
      FailedExpects(aborted.q, env);
      if !aborted.threw {
        SavedForsaken(aborted.q);
        ClosingExpects(aborted.q, result, env);
        if result.terminate { TerminatingExpects(aborted.q, InCrank(q.phase.item, Terminating(result))); }
      }
    }
  }

  lemma TerminatingExpects(q: Q, phase: Phase)
    requires Awaiting(q) && SavedAwaiting(q) && phase.InCrank?
    ensures Expecting(q.(phase := phase))
  {
    SameAwaits(q, q.(phase := phase), q.db, q.db, q.resolvedInCrank);
    SameAwaits(q, q.(phase := phase), q.saved, q.saved, q.savedListed);
  }

  lemma TerminatedExpects(q: Q, env: Env)
    requires Expecting(q) && LoopConservation.Conserved(q) && q.phase.InCrank? && q.phase.stage.Terminating? && LoopConservation.ProperHeld(q.held)
    ensures Expecting(Terminated(q, env))
  {
    hide Sound, CrankFailed, Close, AllAwait, Within, OncePerPromise, PassedWithin, LoopConservation.ProperHeld, PromisesOf;
    var recorded := q.(rollbackAllowed := false);
    SavedForsaken(q);
    ForsakenWithin(q);
    FailedExpects(recorded, env);
    ClosingExpects(recorded, q.phase.stage.outcome, env);
  }

  // ------------------------------------------------------------------ every step

  lemma QuietExpects(q: Q, e: Event)
    requires Expecting(q) && Quiet(e)
    ensures Expecting(Outside(q, e))
  {
    hide Expecting, AcceptArrival, DiscardHeld, AbandonSubscriptions, QueueControl, AskToEnd, Register, Withdraw;
    WaitersAside(q, Discarded);
    match e
    case EvArrival(event) => ArrivingFrame(q, event); SameExpecting(q, AcceptArrival(q, event));
    case EvControl(caller, operation) => CallersAside(q, caller, operation); SameExpecting(q, QueueControl(q, caller, operation));
    case EvEnd => SameExpecting(q, AskToEnd(q));
    case EvDiscardArrivals => SameExpecting(q, q.(arrivals := []));
    case EvDiscardHeld => SameExpecting(q, DiscardHeld(q, Discarded));
    case EvRegister(caller) => CallersAside(q, caller, 0); SameExpecting(q, Register(q, caller));
    case EvUnregister(caller) => CallersAside(q, caller, 0); SameExpecting(q, Withdraw(q, caller));
    case EvAbandonSubscriptions => AbandoningExpects(q, Discarded);
    case _ =>
  }

  /** Nothing that is awaited, nor what it is awaited in, has changed. */
  predicate Aside(q: Q, r: Q) {
    && r.subscriptions == q.subscriptions && r.resolvedInCrank == q.resolvedInCrank && r.db == q.db && r.forsaken == q.forsaken
    && r.saved == q.saved && r.savedListed == q.savedListed && r.phase == q.phase
  }

  lemma CallersAside(q: Q, caller: Caller, operation: nat)
    ensures Aside(q, QueueControl(q, caller, operation)) && Aside(q, Register(q, caller)) && Aside(q, Withdraw(q, caller))
  {
    hide RemoveFirst;
  }

  lemma WaitersAside(q: Q, answer: Answer)
    ensures Aside(q, AskToEnd(q)) && Aside(q, DiscardHeld(q, answer))
  {
    hide TellAll, HoldersOf, SubscribersOf;
  }

  lemma AbandoningExpects(q: Q, answer: Answer)
    requires Expecting(q)
    ensures Expecting(AbandonSubscriptions(q, answer))
  {
    hide TellAll, SubscribersOf;
  }

  lemma WipingExpects(q: Q)
    requires q.phase.InCrank? && SavedAwaiting(q)
    ensures Expecting(Wipe(q))
  {
    hide Wipe;
    WipingFrame(q);
  }

  lemma OutsideExpects(q: Q, e: Event)
    requires Expecting(q) && LoopConservation.Conserved(q)
    ensures Expecting(Outside(q, e))
  {
    hide Expecting, Request, OpSteps, LoopConservation.Conserved, Accountable;
    match e
    case EvMessage(caller, target, methargs) => IssuingExpects(q, caller, HeldMessage(caller, target, methargs));
    case EvWrite(caller, ops) => IssuingExpects(q, caller, HeldWrite(caller, ops));
    case EvRequest(item) => if !Refused(q) { RequestingKeeps(q, HeldItem(item)); }
    case EvOps(ops) => CountedIsAccountable(q); OpsKeep(q, ops, InFlight(q));
    case _ => QuietExpects(q, e);
  }

  lemma IssuingExpects(q: Q, caller: Caller, h: HeldRequest)
    requires Expecting(q) && LoopConservation.Conserved(q)
    ensures !Refused(q) ==> Expecting(Request(Issue(q, caller), h))
  {
    hide Expecting, Request, Sound;
    if !Refused(q) {
      SameExpecting(q, Issue(q, caller));
      RequestingKeeps(Issue(q, caller), h);
    }
  }

  lemma StepExpects(q: Q, e: Event)
    requires Expecting(q) && LoopConservation.Conserved(q) && LoopConservation.ProperHeld(q.held)
    ensures Expecting(Step(q, e))
  {
    hide Expecting, LoopConservation.Conserved, Begin, DeliverStep, ServedStep, Finish, Terminated, Outside, Reported, Wipe, LoopConservation.ProperHeld;
    match e
    case EvStart => if q.phase.Idle? { SameExpecting(q, q.(phase := Top)); }
    case EvWake => if q.phase.Parked? && !q.wakeSet { SameExpecting(q, q.(phase := Top)); }
    case EvBegin(priority, endFault, heldFault) => if q.phase.Top? { BeginningExpects(q, priority, endFault, heldFault); }
    case EvDeliver(running) => if InStage(q, true) { DeliveringExpects(q, running); }
    case EvServed(failed) => if InStage(q, false) { ServingExpects(q, failed); }
    case EvWipe => if InStage(q, false) && q.phase.item.ControlItem? { InCrankSaves(q); WipingExpects(q); }
    case EvFinish(end, env) => if MayFinish(q, end) { FinishingExpects(q, end, env); }
    case EvTerminated(env) => if q.phase.InCrank? && q.phase.stage.Terminating? { TerminatedExpects(q, env); }
    case EvAfterCommit(throws) => if q.phase.AfterCommit? { ReportingExpects(q, throws); }
    case _ => OutsideExpects(q, e);
  }

  lemma InCrankSaves(q: Q)
    requires Expecting(q) && q.phase.InCrank?
    ensures SavedAwaiting(q)
  {
  }

  lemma ReportingExpects(q: Q, throws: bool)
    requires Expecting(q) && q.phase.AfterCommit?
    ensures Expecting(Reported(q, throws))
  {
    hide AwaitsIn, PassedWithin, FailRunLoop, Resume;
    ForsakenWithin(q);
    DyingExpects(q);
    ResumingExpects(q, q.phase.heldFailed);
  }

  lemma {:induction false} RunExpects(q: Q, events: seq<Event>)
    requires Expecting(q) && LoopConservation.Steady(q)
    ensures Expecting(Run(q, events)) && LoopConservation.Steady(Run(q, events))
    decreases |events|
  {
    hide Expecting, LoopConservation.Conserved, LoopConservation.ProperHeld, LoopConservation.ControlHoldsNothing, Step;
    if events != [] {
      StepExpects(q, events[0]);
      LoopConservation.StepConserves(q, events[0]);
      RunExpects(Step(q, events[0]), events[1..]);
    }
  }

  /**
   * Over every run: nobody subscribes to a promise somebody else awaits, and a promise awaited is still to be
   * decided unless, and only unless, its answer is listed for the next flush or an abort has dropped it.
   */
  lemma WhoAwaitsWhat(db: Store, events: seq<Event>, i: nat)
    requires Sound(db, multiset{}) && i < |Run(Init(db), events).subscriptions|
    ensures var q := Run(Init(db), events);
            && (forall j | 0 <= j < |q.subscriptions| && j != i :: q.subscriptions[j].kpid != q.subscriptions[i].kpid)
            && (Undecided(q.db, q.subscriptions[i].kpid) <==>
                  !IsResolved(q.resolvedInCrank, q.subscriptions[i].kpid) && q.subscriptions[i].kpid !in q.forsaken)
  {
    hide Run, Sound, LoopConservation.Steady;
    LoopConservation.InitIsSteady(db);
    NobodyYet(db);
    RunExpects(Init(db), events);
    ExpectingMeans(Run(Init(db), events), i);
  }

  lemma NobodyYet(db: Store)
    ensures Expecting(Init(db))
  {
  }

  lemma ExpectingMeans(q: Q, i: nat)
    requires Expecting(q) && i < |q.subscriptions|
    ensures forall j | 0 <= j < |q.subscriptions| && j != i :: q.subscriptions[j].kpid != q.subscriptions[i].kpid
    ensures Undecided(q.db, q.subscriptions[i].kpid) <==>
              !IsResolved(q.resolvedInCrank, q.subscriptions[i].kpid) && q.subscriptions[i].kpid !in q.forsaken
  {
    forall j | 0 <= j < |q.subscriptions| && j != i ensures q.subscriptions[j].kpid != q.subscriptions[i].kpid {
      assert OncePerPromise(q.subscriptions);
    }
    assert Undecided(q.db, q.subscriptions[i].kpid) <==> !Passed(q.resolvedInCrank, q.forsaken, q.subscriptions[i].kpid);
  }
}
