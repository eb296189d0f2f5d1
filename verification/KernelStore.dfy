/**
 * The part of the kernel store the run loop and the router write: the run queue, the crank buffer, the
 * promise table with its per-promise message queues, and the reference counts
 * (packages/ocap-kernel/src/store/methods).
 *
 * A reference count is a cache: every unit of it is owed to some reference the kernel holds elsewhere. What
 * is owed is recomputed here from the references themselves, as a multiset, and `Balanced` says the counts
 * agree with it. C-list entries and pins are not modelled one by one; `held` is what they hold together.
 */
module KernelStore {
  import opened Prelude

  type EndpointId = nat

  datatype KRef = KObject(id: nat) | KPromise(id: nat)

  /** `bare` says the data is one reference and nothing else. */
  datatype CapData = CapData(bare: bool, slots: seq<KRef>)

  datatype Message = Message(methargs: CapData, result: Option<nat>)

  datatype Item =
    | Send(target: KRef, message: Message)
    | Notify(endpoint: EndpointId, kpid: nat)
    | RestartVat(vat: EndpointId)
    | TerminateVat(vat: EndpointId)

  datatype Agent = Nobody | TheKernel | Endpoint(id: EndpointId)

  datatype PromiseState =
    | Unresolved(decider: Agent, subscribers: seq<EndpointId>)
    | Settled(rejected: bool, value: CapData)
    | Deleted

  datatype PromiseRow = PromiseRow(state: PromiseState, queue: seq<Message>)

  /** An object's owner, and whether it has been revoked. */
  datatype ObjectRow = ObjectRow(owner: Agent, revoked: bool)

  datatype Store = Store(
    runQueue: seq<Item>,
    crankBuffer: seq<Item>,
    promises: seq<PromiseRow>,
    objects: seq<ObjectRow>,
    counts: map<KRef, nat>,
    held: multiset<KRef>)

  /** What a step leaves, and whether it threw on the way: outside a crank nothing is rolled back. */
  datatype Outcome = Done(store: Store) | Threw(store: Store)

  // ------------------------------------------------------------------ what is owed

  function RefsOfMessage(m: Message): multiset<KRef> {
    multiset(m.methargs.slots) + (if m.result.Some? then multiset{KPromise(m.result.value)} else multiset{})
  }

  function RefsOfItem(item: Item): multiset<KRef> {
    match item
    case Send(target, message) => multiset{target} + RefsOfMessage(message)
    case Notify(_, kpid) => multiset{KPromise(kpid)}
    case _ => multiset{}
  }

  function RefsOfItems(items: seq<Item>): multiset<KRef> {
    if items == [] then multiset{} else RefsOfItems(items[..|items| - 1]) + RefsOfItem(items[|items| - 1])
  }

  /** A queued message holds its target as well as what it carries. */
  function RefsOfQueue(target: KRef, queue: seq<Message>): multiset<KRef> {
    if queue == [] then multiset{} else RefsOfItem(Send(target, queue[0])) + RefsOfQueue(target, queue[1..])
  }

  /** An unsettled promise is owed a decision; a settled one holds the slots of its value. */
  function RefsOfState(id: nat, state: PromiseState): multiset<KRef> {
    match state
    case Unresolved(_, _) => multiset{KPromise(id)}
    case Settled(_, value) => multiset(value.slots)
    case Deleted => multiset{}
  }

  function RefsOfRow(id: nat, row: PromiseRow): multiset<KRef> {
    RefsOfState(id, row.state) + RefsOfQueue(KPromise(id), row.queue)
  }

  function RefsOfPromises(rows: seq<PromiseRow>): multiset<KRef> {
    if rows == [] then multiset{}
    else RefsOfPromises(rows[..|rows| - 1]) + RefsOfRow(|rows| - 1, rows[|rows| - 1])
  }

  /** Every reference the kernel holds. */
  function Owed(s: Store): multiset<KRef> {
    RefsOfItems(s.runQueue) + RefsOfItems(s.crankBuffer) + RefsOfPromises(s.promises) + s.held
  }

  function Count(s: Store, k: KRef): nat {
    if k in s.counts then s.counts[k] else 0
  }

  /** The counts agree with what is owed, `inFlight` being references taken off a queue and not yet released. */
  ghost predicate Balanced(s: Store, inFlight: multiset<KRef>) {
    forall k :: Count(s, k) == Owed(s)[k] + inFlight[k]
  }

  /** A promise has a count exactly while it has not been deleted. */
  predicate Live(s: Store, id: nat) {
    id < |s.promises| && !s.promises[id].state.Deleted?
  }

  ghost predicate WellFormed(s: Store) {
    && (forall id: nat :: KPromise(id) in s.counts <==> Live(s, id))
    && (forall id: nat :: KObject(id) in s.counts ==> id < |s.objects|)
  }

  // ------------------------------------------------------------------ counting

  /** Taking a reference to something deleted is always a bug, so it is refused. */
  function Increment(s: Store, k: KRef): Outcome {
    if k in s.counts then Done(s.(counts := s.counts[k := s.counts[k] + 1])) else Threw(s)
  }

  /** Releasing a reference to an object already gone is ordinary; below zero nothing is released. */
  function Decrement(s: Store, k: KRef): Outcome {
    if k !in s.counts then (if k.KObject? then Done(s) else Threw(s))
    else if s.counts[k] == 0 then Threw(s)
    else Done(s.(counts := s.counts[k := s.counts[k] - 1]))
  }

  function ChargeAll(s: Store, ks: seq<KRef>): Outcome
    decreases |ks|
  {
    if ks == [] then Done(s)
    else match Increment(s, ks[0])
         case Threw(t) => Threw(t)
         case Done(t) => ChargeAll(t, ks[1..])
  }

  function ReleaseAll(s: Store, ks: seq<KRef>): Outcome
    decreases |ks|
  {
    if ks == [] then Done(s)
    else match Decrement(s, ks[0])
         case Threw(t) => Threw(t)
         case Done(t) => ReleaseAll(t, ks[1..])
  }

  /** A send's references in the order they are charged: target, result, slots. */
  function SendRefs(target: KRef, m: Message): seq<KRef> {
    [target] + ResultRef(m) + m.methargs.slots
  }

  function ResultRef(m: Message): seq<KRef> {
    if m.result.Some? then [KPromise(m.result.value)] else []
  }

  /** The two stores differ in their counts alone, and in no row's existence. */
  predicate OnlyCountsMoved(s: Store, t: Store) {
    t == s.(counts := t.counts) && t.counts.Keys == s.counts.Keys
  }

  /** Counts rose by exactly `m`. */
  ghost predicate Rose(s: Store, t: Store, m: multiset<KRef>) {
    forall k :: Count(t, k) == Count(s, k) + m[k]
  }

  predicate AllExist(s: Store, ks: seq<KRef>) {
    forall i | 0 <= i < |ks| :: ks[i] in s.counts
  }

  /** Charging counts each reference once, stopping at the first that does not exist. */
  lemma {:induction false} ChargeAllRaises(s: Store, ks: seq<KRef>)
    ensures OnlyCountsMoved(s, ChargeAll(s, ks).store)
    ensures ChargeAll(s, ks).Done? <==> AllExist(s, ks)
    ensures ChargeAll(s, ks).Done? ==> Rose(s, ChargeAll(s, ks).store, multiset(ks))
    decreases |ks|
  {
    if ks != [] {
      if ks[0] in s.counts {
        var t := Increment(s, ks[0]).store;
        ChargeAllRaises(t, ks[1..]);
        assert ks == [ks[0]] + ks[1..];
        forall k ensures Count(t, k) == Count(s, k) + multiset{ks[0]}[k] {}
        assert forall i | 0 <= i < |ks[1..]| :: ks[1..][i] == ks[i + 1];
        assert AllExist(t, ks[1..]) <==> AllExist(s, ks);
      }
    }
  }

  /** How much charging takes before it stops: everything ahead of the first missing reference. */
  function ChargedPrefix(s: Store, ks: seq<KRef>): (n: nat)
    ensures n <= |ks|
    ensures forall i | 0 <= i < n :: ks[i] in s.counts
    ensures n < |ks| ==> ks[n] !in s.counts
  {
    if ks == [] || ks[0] !in s.counts then 0 else 1 + ChargedPrefix(s, ks[1..])
  }

  lemma {:induction false} ChargeAllStops(s: Store, ks: seq<KRef>)
    ensures Rose(s, ChargeAll(s, ks).store, multiset(ks[..ChargedPrefix(s, ks)]))
    decreases |ks|
  {
    if ks != [] && ks[0] in s.counts {
      var t := Increment(s, ks[0]).store;
      ChargeAllStops(t, ks[1..]);
      PrefixIsStable(s, t, ks[1..]);
      var n := ChargedPrefix(s, ks[1..]);
      assert ks[..n + 1] == [ks[0]] + ks[1..][..n];
    }
  }

  lemma {:induction false} PrefixIsStable(s: Store, t: Store, ks: seq<KRef>)
    requires s.counts.Keys == t.counts.Keys
    ensures ChargedPrefix(s, ks) == ChargedPrefix(t, ks)
    decreases |ks|
  {
    if ks != [] { PrefixIsStable(s, t, ks[1..]); }
  }

  /** References that are owed can be released, each once, without running below zero. */
  lemma {:induction false} ReleaseAllLowers(s: Store, ks: seq<KRef>)
    requires forall k :: Count(s, k) >= multiset(ks)[k]
    ensures ReleaseAll(s, ks).Done?
    ensures OnlyCountsMoved(s, ReleaseAll(s, ks).store)
    ensures Rose(ReleaseAll(s, ks).store, s, multiset(ks))
    decreases |ks|
  {
    if ks != [] {
      assert ks == [ks[0]] + ks[1..];
      assert Count(s, ks[0]) >= multiset(ks)[ks[0]] >= 1;
      var t := Decrement(s, ks[0]).store;
      forall k ensures Count(s, k) == Count(t, k) + multiset{ks[0]}[k] {}
      ReleaseAllLowers(t, ks[1..]);
    }
  }

  // ------------------------------------------------------------------ algebra of the owed multiset

  lemma RefsOfItemsAppend(items: seq<Item>, item: Item)
    ensures RefsOfItems(items + [item]) == RefsOfItems(items) + RefsOfItem(item)
  {
    assert (items + [item])[..|items|] == items;
  }

  lemma {:induction false} RefsOfItemsConcat(a: seq<Item>, b: seq<Item>)
    ensures RefsOfItems(a + b) == RefsOfItems(a) + RefsOfItems(b)
    decreases |b|
  {
    if b == [] {
      assert a + b == a;
    } else {
      assert (a + b)[..|a + b| - 1] == a + b[..|b| - 1];
      RefsOfItemsConcat(a, b[..|b| - 1]);
    }
  }

  lemma {:induction false} RefsOfQueueAppend(target: KRef, queue: seq<Message>, m: Message)
    ensures RefsOfQueue(target, queue + [m]) == RefsOfQueue(target, queue) + RefsOfItem(Send(target, m))
    decreases |queue|
  {
    if queue == [] {
      assert queue + [m] == [m] && [m][1..] == [];
    } else {
      assert (queue + [m])[0] == queue[0] && (queue + [m])[1..] == queue[1..] + [m];
      RefsOfQueueAppend(target, queue[1..], m);
    }
  }

  /** Rewriting one promise row exchanges what that row holds. */
  lemma {:induction false} RefsOfPromisesUpdate(rows: seq<PromiseRow>, id: nat, row: PromiseRow)
    requires id < |rows|
    ensures RefsOfPromises(rows[id := row]) + RefsOfRow(id, rows[id]) == RefsOfPromises(rows) + RefsOfRow(id, row)
    decreases |rows|
  {
    hide RefsOfRow;
    var last := |rows| - 1;
    if id == last {
      assert rows[id := row][..last] == rows[..last];
    } else {
      var init := rows[..last];
      assert rows[id := row][..last] == init[id := row];
      RefsOfPromisesUpdate(init, id, row);
      Exchange(RefsOfPromises(init[id := row]), RefsOfRow(id, rows[id]), RefsOfPromises(init), RefsOfRow(id, row), RefsOfRow(last, rows[last]));
    }
  }

  lemma Exchange<T>(a: multiset<T>, b: multiset<T>, c: multiset<T>, d: multiset<T>, e: multiset<T>)
    requires a + b == c + d
    ensures (a + e) + b == (c + e) + d
  {
    assert (a + e) + b == (a + b) + e;
  }

  /** What is owed does not depend on the counts. */
  lemma SameRowsSameOwed(s: Store, t: Store)
    requires s == t.(counts := s.counts)
    ensures Owed(s) == Owed(t)
  {
  }

  lemma SendRefsAreItemRefs(target: KRef, m: Message)
    ensures multiset(SendRefs(target, m)) == RefsOfItem(Send(target, m))
  {
  }

  /** A reference owed to something exists. */
  lemma OwedExists(s: Store, inFlight: multiset<KRef>, k: KRef)
    requires Balanced(s, inFlight) && (k in Owed(s) || k in inFlight)
    ensures k in s.counts
  {
    assert Count(s, k) == Owed(s)[k] + inFlight[k];
  }
}
