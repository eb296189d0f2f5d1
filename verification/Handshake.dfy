/**
 * Two duplex streams synchronizing over a pair of first-in first-out channels
 * (packages/streams/src/BaseDuplexStream.ts:166-306).
 *
 * Each peer starts listening when it is made, and only what is sent to a listening peer reaches it. A step is
 * what a peer does between two awaits: it may be taken by either peer at any time.
 */
module Handshake {

  datatype Message<V> = Syn | Ack | Data(value: V)

  datatype Status = Idle | Pending | Complete | Broken

  /**
   * `inbox` is what has reached the peer and not been read. `sent`, `taken` and `seen` record what it has
   * dispatched, what it has read from its inbox, and what its consumer has been given.
   */
  datatype Peer<V> = Peer(
    listening: bool,
    status: Status,
    receivedSyn: bool,
    sentAck: bool,
    inbox: seq<Message<V>>,
    sent: seq<Message<V>>,
    taken: seq<Message<V>>,
    seen: seq<Message<V>>,
    written: seq<V>)

  // ------------------------------------------------------------------ what one peer does

  datatype Sent<V> = Sent(peer: Peer<V>, out: seq<Message<V>>)

  function Dispatch<V>(p: Peer<V>, out: seq<Message<V>>): Sent<V> {
    Sent(p.(sent := p.sent + out), out)
  }

  /** Begin to synchronize: announce oneself, and await the other's answer. */
  function Start<V>(p: Peer<V>): Sent<V> {
    Dispatch(p.(status := Pending, receivedSyn := false, sentAck := false), [Syn])
  }

  /** Read one message while synchronizing. */
  function Synchronize<V>(p: Peer<V>): (s: Sent<V>)
    requires p.inbox != []
    ensures s.peer.inbox == p.inbox[1..]
  {
    var head := p.inbox[0];
    var q := p.(inbox := p.inbox[1..], taken := p.taken + [head]);
    if head.Ack? then
      if p.sentAck then Dispatch(q.(status := Complete), []) else Dispatch(q.(status := Complete, sentAck := true), [Ack])
    else if head.Syn? then
      if p.receivedSyn then Dispatch(q.(status := Broken), [])
      else Dispatch(q.(receivedSyn := true, sentAck := true), [Ack])
    else Dispatch(q.(status := Broken), [])
  }

  /** Read one message for the consumer. A peer that announces itself again is synchronized with afresh. */
  function Read<V>(p: Peer<V>): Sent<V>
    requires p.inbox != []
  {
    var head := p.inbox[0];
    if head.Syn? then
      Dispatch(p.(inbox := p.inbox[1..], taken := p.taken + [head], status := Pending, receivedSyn := true, sentAck := true), [Syn, Ack])
    else Dispatch(p.(inbox := p.inbox[1..], taken := p.taken + [head], seen := p.seen + [head]), [])
  }

  function Write<V>(p: Peer<V>, v: V): Sent<V> {
    Dispatch(p.(written := p.written + [v]), [Data(v)])
  }

  // ------------------------------------------------------------------ the two together

  datatype Pair<V> = Pair(a: Peer<V>, b: Peer<V>)

  datatype Step<V> = Listen | Begin | Sync | Take | Put(value: V)

  function NewPeer<V>(): Peer<V> {
    Peer(false, Idle, false, false, [], [], [], [], [])
  }

  /** A peer takes a step if it can: before it listens it has no part in anything. */
  predicate Enabled<V>(p: Peer<V>, step: Step<V>) {
    match step
    case Listen => !p.listening
    case Begin => p.listening && p.status.Idle?
    case Sync => p.status.Pending? && p.inbox != []
    case Take => p.status.Complete? && p.inbox != []
    case Put(_) => p.status.Complete?
  }

  function Act<V>(p: Peer<V>, step: Step<V>): Sent<V>
    requires Enabled(p, step)
  {
    match step
    case Listen => Sent(p.(listening := true), [])
    case Begin => Start(p)
    case Sync => Synchronize(p)
    case Take => Read(p)
    case Put(v) => Write(p, v)
  }

  /** What is sent to a peer that listens reaches it, in order; what is sent to one that does not is lost. */
  function Deliver<V>(p: Peer<V>, out: seq<Message<V>>): Peer<V> {
    if p.listening then p.(inbox := p.inbox + out) else p
  }

  function Move<V>(pair: Pair<V>, left: bool, step: Step<V>): Pair<V> {
    if left then
      if Enabled(pair.a, step) then var s := Act(pair.a, step); Pair(s.peer, Deliver(pair.b, s.out)) else pair
    else
      if Enabled(pair.b, step) then var s := Act(pair.b, step); Pair(Deliver(pair.a, s.out), s.peer) else pair
  }

  function Run<V>(pair: Pair<V>, moves: seq<(bool, Step<V>)>): Pair<V>
    decreases |moves|
  {
    if moves == [] then pair else Run(Move(pair, moves[0].0, moves[0].1), moves[1..])
  }

  // ------------------------------------------------------------------ what every interleaving keeps

  function DataOf<V>(values: seq<V>): (d: seq<Message<V>>)
    ensures |d| == |values| && forall i | 0 <= i < |d| :: d[i] == Data(values[i])
  {
    seq(|values|, i requires 0 <= i < |values| => Data(values[i]))
  }

  /** A peer sends one SYN, then one ACK, and data only after both. */
  ghost predicate SendsInTurn<V>(p: Peer<V>) {
    match p.status
    case Idle => p.sent == [] && p.written == [] && !p.sentAck
    case Pending => p.sent == (if p.sentAck then [Syn, Ack] else [Syn]) && p.written == []
    case Complete => p.sentAck && p.sent == [Syn, Ack] + DataOf(p.written)
    case Broken => false
  }

  /** What has been read so far is a SYN, unless it was lost, and an ACK, and data only after both. */
  ghost predicate TakesInTurn<V>(p: Peer<V>) {
    var syn: seq<Message<V>> := if p.receivedSyn then [Syn] else [];
    match p.status
    case Idle => p.taken == [] && p.seen == [] && !p.receivedSyn
    case Pending => p.taken == syn && p.seen == [] && (p.sentAck <==> p.receivedSyn)
    case Complete => p.taken == syn + [Ack] + p.seen
    case Broken => false
  }

  /**
   * All that one peer sent reached the other, in order, but perhaps its SYN: that was lost if and only if the
   * other, having read something else or nothing, was not listening yet.
   */
  ghost predicate Carries<V>(from: Peer<V>, to: Peer<V>, lost: bool) {
    && (lost ==> from.sent != [] && !to.receivedSyn)
    && to.taken + to.inbox == (if lost then from.sent[1..] else from.sent)
    && (to.status.Complete? ==> lost || to.receivedSyn)
    && (!from.status.Idle? ==> from.listening)
    && (!lost && from.sent != [] ==> to.listening)
  }

  ghost predicate InStep<V>(p: Peer<V>, o: Peer<V>, lostP: bool, lostO: bool) {
    && SendsInTurn(p) && SendsInTurn(o) && TakesInTurn(p) && TakesInTurn(o)
    && Carries(p, o, lostP) && Carries(o, p, lostO) && !(lostP && lostO)
    && (p.inbox + p.taken != [] ==> p.listening) && (o.inbox + o.taken != [] ==> o.listening)
  }

  /** Whether a peer's SYN is lost once it has taken a step. */
  function LostBy<V>(o: Peer<V>, lost: bool, step: Step<V>): bool {
    if step.Begin? then !o.listening else lost
  }

  lemma BeginKeeps<V>(p: Peer<V>, o: Peer<V>, lostP: bool, lostO: bool)
    requires InStep(p, o, lostP, lostO) && Enabled(p, Begin)
    ensures InStep(Act(p, Begin).peer, Deliver(o, Act(p, Begin).out), !o.listening, lostO)
  {
    var q, r := Act(p, Begin).peer, Deliver(o, Act(p, Begin).out);
    assert q.sent == [Syn] && o.taken + o.inbox == [];
    assert q.sent[1..] == [];
  }

  /** What a synchronizing peer reads next: the other's SYN, unless it was lost or read, and then its ACK. */
  lemma NextInTurn<V>(p: Peer<V>, o: Peer<V>, lostO: bool)
    requires SendsInTurn(o) && TakesInTurn(p) && Carries(o, p, lostO) && p.inbox != [] && !o.status.Broken?
    ensures var n := |p.taken| + if lostO then 1 else 0;
            n < |o.sent| && p.inbox[0] == o.sent[n] && (n == 0 <==> p.inbox[0].Syn?) && (n == 1 <==> p.inbox[0].Ack?)
  {
    var all := p.taken + p.inbox;
    assert all[|p.taken|] == p.inbox[0];
  }

  /** The next message is the one a synchronizing peer awaits: a SYN it has not had, or an ACK. */
  predicate Awaited<V>(p: Peer<V>)
    requires p.inbox != []
  {
    p.inbox[0].Ack? || (p.inbox[0].Syn? && !p.receivedSyn)
  }

  lemma SyncingSends<V>(p: Peer<V>)
    requires SendsInTurn(p) && Enabled(p, Sync) && Awaited(p) && (p.sentAck <==> p.receivedSyn)
    ensures var s := Synchronize(p); SendsInTurn(s.peer) && s.peer.sent == p.sent + s.out
  {
    assert DataOf<V>([]) == [];
    assert Synchronize(p).peer.sent == [Syn, Ack];
  }

  lemma SyncingTakes<V>(p: Peer<V>)
    requires TakesInTurn(p) && Enabled(p, Sync) && Awaited(p)
    ensures TakesInTurn(Synchronize(p).peer)
  {
    var q := Synchronize(p).peer;
    assert q.taken == p.taken + [p.inbox[0]] + [];
  }

  lemma SyncingCarries<V>(p: Peer<V>, o: Peer<V>, lostO: bool)
    requires Carries(o, p, lostO) && Enabled(p, Sync) && Awaited(p)
    requires p.inbox[0].Syn? ==> !lostO
    requires p.inbox[0].Ack? ==> lostO || p.receivedSyn
    ensures Carries(o, Synchronize(p).peer, lostO)
  {
    hide SendsInTurn, TakesInTurn;
    assert Synchronize(p).peer.taken + Synchronize(p).peer.inbox == p.taken + p.inbox;
  }

  /** A synchronizing peer reads the other's SYN and answers, or reads its ACK and completes: nothing else comes. */
  lemma SyncInTurn<V>(p: Peer<V>, o: Peer<V>, lostO: bool)
    requires SendsInTurn(p) && TakesInTurn(p) && SendsInTurn(o) && Carries(o, p, lostO) && Enabled(p, Sync)
    ensures var q := Act(p, Sync).peer;
            && SendsInTurn(q) && TakesInTurn(q) && Carries(o, q, lostO) && q.sent == p.sent + Act(p, Sync).out
            && q.listening == p.listening && !q.status.Idle?
  {
    NextInTurn(p, o, lostO);
    assert |p.taken| == (if p.receivedSyn then 1 else 0) && (lostO ==> !p.receivedSyn);
    assert p.sentAck <==> p.receivedSyn;
    hide SendsInTurn, TakesInTurn, Carries;
    SyncingSends(p);
    SyncingTakes(p);
    SyncingCarries(p, o, lostO);
  }

  /** What a peer sends to one that listens is carried to it. */
  lemma SendingCarries<V>(p: Peer<V>, q: Peer<V>, o: Peer<V>, lostP: bool, out: seq<Message<V>>)
    requires Carries(p, o, lostP) && q.sent == p.sent + out && q.listening == p.listening && q.status.Idle? == p.status.Idle?
    requires o.listening
    ensures Carries(q, Deliver(o, out), lostP)
  {
    assert o.taken + (o.inbox + out) == o.taken + o.inbox + out;
    assert lostP ==> (p.sent + out)[1..] == p.sent[1..] + out;
  }

  lemma SyncKeeps<V>(p: Peer<V>, o: Peer<V>, lostP: bool, lostO: bool)
    requires InStep(p, o, lostP, lostO) && Enabled(p, Sync)
    ensures InStep(Act(p, Sync).peer, Deliver(o, Act(p, Sync).out), lostP, lostO)
  {
    hide Act, SendsInTurn, TakesInTurn, Carries;
    HeardFromListens(p, o, lostP, lostO);
    SyncInTurn(p, o, lostO);
    SendingCarries(p, Act(p, Sync).peer, o, lostP, Act(p, Sync).out);
    DeliveringKeeps(p, Act(p, Sync).peer, o, lostO, Act(p, Sync).out);
  }

  /** What reaches a peer's inbox changes nothing it has done, nor what it has sent. */
  lemma DeliveringKeeps<V>(p: Peer<V>, q: Peer<V>, o: Peer<V>, lostO: bool, out: seq<Message<V>>)
    requires SendsInTurn(o) && TakesInTurn(o) && Carries(o, q, lostO)
    ensures SendsInTurn(Deliver(o, out)) && TakesInTurn(Deliver(o, out)) && Carries(Deliver(o, out), q, lostO)
    ensures Deliver(o, out).listening == o.listening
  {
  }

  /** A peer that has something to read, or has read something, heard it from one that listens. */
  lemma HeardFromListens<V>(p: Peer<V>, o: Peer<V>, lostP: bool, lostO: bool)
    requires InStep(p, o, lostP, lostO) && p.inbox + p.taken != []
    ensures o.listening && p.listening && !p.status.Broken?
  {
    assert |p.inbox + p.taken| == |p.taken + p.inbox|;
  }

  lemma TakingTakes<V>(p: Peer<V>)
    requires TakesInTurn(p) && Enabled(p, Take) && p.inbox[0].Data?
    ensures TakesInTurn(Read(p).peer)
  {
    var q := Read(p).peer;
    assert q.taken == (if p.receivedSyn then [Syn] else []) + [Ack] + (p.seen + [p.inbox[0]]);
  }

  lemma TakingSends<V>(p: Peer<V>)
    requires SendsInTurn(p) && Enabled(p, Take) && !p.inbox[0].Syn?
    ensures SendsInTurn(Read(p).peer) && Read(p).peer.sent == p.sent && Read(p).out == []
  {
    assert p.sent + [] == p.sent;
  }

  lemma TakingCarries<V>(p: Peer<V>, o: Peer<V>, lostO: bool)
    requires Carries(o, p, lostO) && Enabled(p, Take) && !p.inbox[0].Syn?
    ensures Carries(o, Read(p).peer, lostO)
  {
    hide SendsInTurn, TakesInTurn;
    assert Read(p).peer.taken + Read(p).peer.inbox == p.taken + p.inbox;
  }

  lemma TakeInTurn<V>(p: Peer<V>, o: Peer<V>, lostO: bool)
    requires SendsInTurn(p) && TakesInTurn(p) && SendsInTurn(o) && Carries(o, p, lostO) && Enabled(p, Take)
    ensures var q := Act(p, Take).peer;
            && SendsInTurn(q) && TakesInTurn(q) && Carries(o, q, lostO) && q.sent == p.sent && Act(p, Take).out == []
            && q.listening == p.listening && !q.status.Idle? && p.inbox[0].Data?
  {
    NextInTurn(p, o, lostO);
    assert p.taken != [] && |p.taken| + (if lostO then 1 else 0) > 1;
    hide SendsInTurn, TakesInTurn, Carries;
    TakingTakes(p);
    TakingSends(p);
    TakingCarries(p, o, lostO);
  }

  lemma TakeKeeps<V>(p: Peer<V>, o: Peer<V>, lostP: bool, lostO: bool)
    requires InStep(p, o, lostP, lostO) && Enabled(p, Take)
    ensures InStep(Act(p, Take).peer, Deliver(o, Act(p, Take).out), lostP, lostO)
  {
    hide Act, SendsInTurn, TakesInTurn, Carries;
    HeardFromListens(p, o, lostP, lostO);
    TakeInTurn(p, o, lostO);
    assert p.sent + [] == p.sent;
    SendingCarries(p, Act(p, Take).peer, o, lostP, []);
    DeliveringKeeps(p, Act(p, Take).peer, o, lostO, []);
  }

  lemma PutInTurn<V>(p: Peer<V>, o: Peer<V>, lostO: bool, v: V)
    requires SendsInTurn(p) && TakesInTurn(p) && Carries(o, p, lostO) && Enabled(p, Put(v))
    ensures var q := Act(p, Put(v)).peer;
            && SendsInTurn(q) && TakesInTurn(q) && Carries(o, q, lostO) && q.sent == p.sent + Act(p, Put(v)).out
            && q.listening == p.listening && !q.status.Idle? && p.inbox + p.taken != []
  {
    assert DataOf(p.written + [v]) == DataOf(p.written) + [Data(v)];
    assert p.taken != [];
  }

  lemma PutKeeps<V>(p: Peer<V>, o: Peer<V>, lostP: bool, lostO: bool, v: V)
    requires InStep(p, o, lostP, lostO) && Enabled(p, Put(v))
    ensures InStep(Act(p, Put(v)).peer, Deliver(o, Act(p, Put(v)).out), lostP, lostO)
  {
    hide Act, SendsInTurn, TakesInTurn, Carries;
    PutInTurn(p, o, lostO, v);
    HeardFromListens(p, o, lostP, lostO);
    SendingCarries(p, Act(p, Put(v)).peer, o, lostP, Act(p, Put(v)).out);
    DeliveringKeeps(p, Act(p, Put(v)).peer, o, lostO, Act(p, Put(v)).out);
  }

  lemma StepKeeps<V>(p: Peer<V>, o: Peer<V>, lostP: bool, lostO: bool, step: Step<V>)
    requires InStep(p, o, lostP, lostO) && Enabled(p, step)
    ensures InStep(Act(p, step).peer, Deliver(o, Act(p, step).out), LostBy(o, lostP, step), lostO)
  {
    match step
    case Listen => assert o.inbox + [] == o.inbox;
    case Begin => BeginKeeps(p, o, lostP, lostO);
    case Sync => SyncKeeps(p, o, lostP, lostO);
    case Take => TakeKeeps(p, o, lostP, lostO);
    case Put(v) => PutKeeps(p, o, lostP, lostO, v);
  }

  ghost predicate Fits<V>(pair: Pair<V>) {
    exists lostA, lostB :: InStep(pair.a, pair.b, lostA, lostB)
  }

  lemma InStepSwaps<V>(p: Peer<V>, o: Peer<V>, lostP: bool, lostO: bool)
    requires InStep(p, o, lostP, lostO)
    ensures InStep(o, p, lostO, lostP)
  {
  }

  lemma MoveKeeps<V>(pair: Pair<V>, left: bool, step: Step<V>)
    requires Fits(pair)
    ensures Fits(Move(pair, left, step))
  {
    hide InStep, Act;
    var lostA, lostB :| InStep(pair.a, pair.b, lostA, lostB);
    if left && Enabled(pair.a, step) {
      StepKeeps(pair.a, pair.b, lostA, lostB, step);
      assert InStep(Move(pair, left, step).a, Move(pair, left, step).b, LostBy(pair.b, lostA, step), lostB);
    } else if !left && Enabled(pair.b, step) {
      InStepSwaps(pair.a, pair.b, lostA, lostB);
      StepKeeps(pair.b, pair.a, lostB, lostA, step);
      InStepSwaps(Move(pair, left, step).b, Move(pair, left, step).a, LostBy(pair.a, lostB, step), lostA);
      assert InStep(Move(pair, left, step).a, Move(pair, left, step).b, lostA, LostBy(pair.a, lostB, step));
    }
  }

  lemma {:induction false} RunKeeps<V>(pair: Pair<V>, moves: seq<(bool, Step<V>)>)
    requires Fits(pair)
    ensures Fits(Run(pair, moves))
    decreases |moves|
  {
    hide Fits, Move;
    if moves != [] {
      MoveKeeps(pair, moves[0].0, moves[0].1);
      RunKeeps(Move(pair, moves[0].0, moves[0].1), moves[1..]);
    }
  }

  lemma FreshPairFits<V>()
    ensures Fits<V>(Pair(NewPeer(), NewPeer()))
  {
    assert InStep<V>(NewPeer(), NewPeer(), false, false);
  }

  // ------------------------------------------------------------------ what both sides can count on

  /** What a peer's consumer has been given is what the other has written, so far as it has been read, and nothing else. */
  lemma SeenIsWritten<V>(p: Peer<V>, o: Peer<V>, lostP: bool, lostO: bool)
    requires InStep(p, o, lostP, lostO)
    ensures |p.seen| <= |o.written| && p.seen == DataOf(o.written[..|p.seen|])
    ensures p.status.Complete? && p.inbox == [] ==> p.seen == DataOf(o.written)
  {
    var skipped := if lostO then 1 else 0;
    if p.status.Complete? {
      var syn: seq<Message<V>> := if p.receivedSyn then [Syn] else [];
      assert |p.taken| == |syn| + 1 + |p.seen|;
      assert |p.taken + p.inbox| == |o.sent| - skipped;
      forall i | 0 <= i < |p.seen| ensures i < |o.written| && p.seen[i] == Data(o.written[i]) {
        assert p.taken[|syn| + 1 + i] == p.seen[i];
        assert (p.taken + p.inbox)[|syn| + 1 + i] == o.sent[2 + i];
      }
    }
  }

  /**
   * For any interleaving of two new peers' steps, whichever listens and begins first, and even if the first
   * SYN is lost: neither fails; each sends exactly one SYN and then one ACK before any data; and each consumer
   * is given exactly what the other has written, in order, with no handshake signal among it.
   */
  lemma SynchronizesSafely<V>(moves: seq<(bool, Step<V>)>)
    ensures var pair := Run(Pair(NewPeer(), NewPeer()), moves);
            && SendsInTurn(pair.a) && SendsInTurn(pair.b)
            && !pair.a.status.Broken? && !pair.b.status.Broken?
            && |pair.a.seen| <= |pair.b.written| && pair.a.seen == DataOf(pair.b.written[..|pair.a.seen|])
            && |pair.b.seen| <= |pair.a.written| && pair.b.seen == DataOf(pair.a.written[..|pair.b.seen|])
  {
    hide Run;
    var pair := Run(Pair(NewPeer(), NewPeer()), moves);
    FreshPairFits<V>();
    RunKeeps(Pair(NewPeer(), NewPeer()), moves);
    var lostA, lostB :| InStep(pair.a, pair.b, lostA, lostB);
    SeenIsWritten(pair.a, pair.b, lostA, lostB);
    InStepSwaps(pair.a, pair.b, lostA, lostB);
    SeenIsWritten(pair.b, pair.a, lostB, lostA);
  }

  // ------------------------------------------------------------------ progress

  /** How far a peer has come. */
  function Rank<V>(p: Peer<V>): nat {
    match p.status
    case Idle => if p.listening then 1 else 0
    case Pending => if p.receivedSyn then 3 else 2
    case Complete => 4
    case Broken => 4
  }

  /** The step a peer takes towards synchronizing. */
  function NextStep<V>(p: Peer<V>): Step<V> {
    match p.status
    case Idle => if p.listening then Begin else Listen
    case _ => Sync
  }

  lemma StepsAdvance<V>(p: Peer<V>, o: Peer<V>, lostP: bool, lostO: bool)
    requires InStep(p, o, lostP, lostO) && !p.status.Complete? && Enabled(p, NextStep(p))
    ensures Rank(Act(p, NextStep(p)).peer) > Rank(p)
  {
    if p.status.Pending? {
      NextInTurn(p, o, lostO);
      SyncInTurn(p, o, lostO);
    }
  }

  /** A peer waiting for an answer that has not come waits for one whose turn it is. */
  lemma NobodyStuck<V>(p: Peer<V>, o: Peer<V>, lostP: bool, lostO: bool)
    requires InStep(p, o, lostP, lostO) && !p.status.Complete? && !Enabled(p, NextStep(p))
    ensures !o.status.Complete? && Enabled(o, NextStep(o))
  {
    assert p.status.Pending? && p.inbox == [];
    assert |o.taken + o.inbox| == |p.sent| - if lostP then 1 else 0;
    assert |p.taken| == |o.sent| - if lostO then 1 else 0;
  }

  /** The peer on this side can take a step towards synchronizing, and it brings the pair further. */
  predicate Advances<V>(pair: Pair<V>, left: bool) {
    var p := if left then pair.a else pair.b;
    && !p.status.Complete? && Enabled(p, NextStep(p))
    && var after := Move(pair, left, NextStep(p)); Rank(after.a) + Rank(after.b) > Rank(pair.a) + Rank(pair.b)
  }

  lemma DeliveringRanks<V>(p: Peer<V>, out: seq<Message<V>>)
    ensures Rank(Deliver(p, out)) == Rank(p)
  {
  }

  /**
   * No deadlock: until both peers have synchronized one of them can take a step towards it, and each such step
   * brings the pair further.
   */
  lemma AlwaysProgress<V>(moves: seq<(bool, Step<V>)>)
    ensures var pair := Run(Pair(NewPeer(), NewPeer()), moves);
            && Rank(pair.a) + Rank(pair.b) <= 8
            && ((pair.a.status.Complete? && pair.b.status.Complete?) || Advances(pair, true) || Advances(pair, false))
  {
    hide Run, InStep, Act, Rank, Deliver, Enabled;
    var pair := Run(Pair(NewPeer(), NewPeer()), moves);
    FreshPairFits<V>();
    RunKeeps(Pair(NewPeer(), NewPeer()), moves);
    var lostA, lostB :| InStep(pair.a, pair.b, lostA, lostB);
    InStepSwaps(pair.a, pair.b, lostA, lostB);
    RankBounded(pair.a);
    RankBounded(pair.b);
    if !pair.a.status.Complete? && Enabled(pair.a, NextStep(pair.a)) {
      StepsAdvance(pair.a, pair.b, lostA, lostB);
      DeliveringRanks(pair.b, Act(pair.a, NextStep(pair.a)).out);
    } else if !pair.b.status.Complete? || !pair.a.status.Complete? {
      if !pair.a.status.Complete? { NobodyStuck(pair.a, pair.b, lostA, lostB); } else { Unfinished(pair.b, pair.a, lostB, lostA); }
      StepsAdvance(pair.b, pair.a, lostB, lostA);
      DeliveringRanks(pair.a, Act(pair.b, NextStep(pair.b)).out);
    }
  }

  /** No step takes a peer back: one that has synchronized is never sent another SYN to read. */
  lemma StepKeepsRank<V>(p: Peer<V>, o: Peer<V>, lostP: bool, lostO: bool, step: Step<V>)
    requires InStep(p, o, lostP, lostO) && Enabled(p, step)
    ensures Rank(Act(p, step).peer) >= Rank(p)
  {
    if step.Sync? {
      StepsAdvance(p, o, lostP, lostO);
    } else if step.Take? {
      TakeInTurn(p, o, lostO);
    }
  }

  function Ranks<V>(pair: Pair<V>): nat {
    Rank(pair.a) + Rank(pair.b)
  }

  lemma MoveKeepsRanks<V>(pair: Pair<V>, left: bool, step: Step<V>)
    requires Fits(pair)
    ensures Rank(Move(pair, left, step).a) >= Rank(pair.a) && Rank(Move(pair, left, step).b) >= Rank(pair.b)
  {
    hide InStep, Act, Rank, Deliver, Enabled;
    var lostA, lostB :| InStep(pair.a, pair.b, lostA, lostB);
    InStepSwaps(pair.a, pair.b, lostA, lostB);
    if left && Enabled(pair.a, step) {
      StepKeepsRank(pair.a, pair.b, lostA, lostB, step);
      DeliveringRanks(pair.b, Act(pair.a, step).out);
    } else if !left && Enabled(pair.b, step) {
      StepKeepsRank(pair.b, pair.a, lostB, lostA, step);
      DeliveringRanks(pair.a, Act(pair.b, step).out);
    }
  }

  /** How many of a run's moves are steps towards synchronizing. */
  ghost function Advanced<V>(pair: Pair<V>, moves: seq<(bool, Step<V>)>): nat
    decreases |moves|
  {
    if moves == [] then 0
    else
      var (left, step) := moves[0];
      (if step == NextStep(if left then pair.a else pair.b) && Advances(pair, left) then 1 else 0)
        + Advanced(Move(pair, left, step), moves[1..])
  }

  lemma {:induction false} RanksRise<V>(pair: Pair<V>, moves: seq<(bool, Step<V>)>)
    requires Fits(pair)
    ensures Ranks(pair) + Advanced(pair, moves) <= Ranks(Run(pair, moves))
    decreases |moves|
  {
    hide Fits, Move, Rank, NextStep;
    if moves != [] {
      MoveKeeps(pair, moves[0].0, moves[0].1);
      MoveKeepsRanks(pair, moves[0].0, moves[0].1);
      RanksRise(Move(pair, moves[0].0, moves[0].1), moves[1..]);
    }
  }

  lemma HighestIsComplete<V>(p: Peer<V>)
    ensures !p.status.Broken? ==> (Rank(p) == 4 <==> p.status.Complete?)
  {
  }

  /**
   * Eight steps towards synchronizing, in whatever order and whatever else is done between them, complete both
   * peers, and no run takes more: no step ever undoes one.
   */
  lemma EightStepsComplete<V>(moves: seq<(bool, Step<V>)>)
    ensures var pair := Run(Pair(NewPeer(), NewPeer()), moves);
            && Advanced(Pair(NewPeer(), NewPeer()), moves) <= 8
            && (Advanced(Pair(NewPeer(), NewPeer()), moves) == 8 ==> pair.a.status.Complete? && pair.b.status.Complete?)
  {
    hide Run, Rank, Fits, Advanced;
    var pair := Run(Pair(NewPeer(), NewPeer()), moves);
    FreshPairFits<V>();
    RanksRise(Pair(NewPeer(), NewPeer()), moves);
    SynchronizesSafely(moves);
    RankBounded(pair.a);
    RankBounded(pair.b);
    HighestIsComplete(pair.a);
    HighestIsComplete(pair.b);
  }

  lemma RankBounded<V>(p: Peer<V>)
    ensures Rank(p) <= 4
  {
  }

  /** If the other has synchronized, the answer is there. */
  lemma Unfinished<V>(p: Peer<V>, o: Peer<V>, lostP: bool, lostO: bool)
    requires InStep(p, o, lostP, lostO) && o.status.Complete? && !p.status.Complete?
    ensures Enabled(p, NextStep(p))
  {
    if !Enabled(p, NextStep(p)) { NobodyStuck(p, o, lostP, lostO); }
  }

  // ------------------------------------------------------------------ the stream itself

  /** Synchronizing over all that has arrived, stopping once it is over. */
  function SynchronizeAll<V>(p: Peer<V>, out: seq<Message<V>>): Sent<V>
    decreases |p.inbox|
  {
    if !p.status.Pending? || p.inbox == [] then Sent(p, out)
    else SynchronizeAll(Synchronize(p).peer, out + Synchronize(p).out)
  }

  class DuplexStream<V(==)> {
    var listening: bool
    var status: Status
    var receivedSyn: bool
    var sentAck: bool
    var inbox: seq<Message<V>>
    var outbox: seq<Message<V>>
    ghost var taken: seq<Message<V>>
    ghost var seen: seq<Message<V>>
    ghost var written: seq<V>

    ghost function View(): Peer<V>
      reads this
    {
      Peer(listening, status, receivedSyn, sentAck, inbox, outbox, taken, seen, written)
    }

    constructor ()
      ensures View() == NewPeer()
    {
      listening, status, receivedSyn, sentAck, inbox, outbox := false, Idle, false, false, [], [];
      taken, seen, written := [], [], [];
    }

    method SendMessage(m: Message<V>)
      modifies `outbox
      ensures outbox == old(outbox) + [m]
    {
      outbox := outbox + [m];
    }

    method NextMessage() returns (m: Message<V>)
      requires inbox != []
      modifies `inbox, `taken
      ensures m == old(inbox)[0] && inbox == old(inbox)[1..] && taken == old(taken) + [m]
    {
      m := inbox[0];
      inbox := inbox[1..];
      taken := taken + [m];
    }

    method SendAck()
      modifies `outbox, `sentAck
      ensures sentAck && outbox == old(outbox) + [Ack]
    {
      sentAck := true;
      SendMessage(Ack);
    }

    /** Announce oneself to the other. */
    method BeginSynchronization()
      modifies this
      ensures View() == Start(old(View())).peer
    {
      status, receivedSyn, sentAck := Pending, false, false;
      SendMessage(Syn);
    }

    /** Read one message of the handshake, and answer it. */
    method SynchronizeOne()
      requires inbox != []
      modifies this
      ensures View() == Synchronize(old(View())).peer && outbox == old(outbox) + Synchronize(old(View())).out
    {
      var m := NextMessage();
      if m.Ack? {
        if !sentAck { SendAck(); }
        status := Complete;
      } else if m.Syn? {
        if receivedSyn {
          status := Broken;
        } else {
          receivedSyn := true;
          SendAck();
        }
      } else {
        status := Broken;
      }
    }

    /** Answer what has arrived, until synchronized, or until there is nothing more to read for now. */
    method ContinueSynchronization()
      modifies this
      ensures View() == SynchronizeAll(old(View()), []).peer
      ensures outbox == old(outbox) + SynchronizeAll(old(View()), []).out
    {
      hide Synchronize;
      ghost var out: seq<Message<V>> := [];
      while status.Pending? && inbox != []
        invariant SynchronizeAll(old(View()), []) == SynchronizeAll(View(), out)
        invariant outbox == old(outbox) + out
        decreases |inbox|
      {
        out := out + Synchronize(View()).out;
        SynchronizeOne();
      }
    }

    /** Read a value; a peer that announces itself again is synchronized with afresh. */
    method Next() returns (m: Message<V>)
      requires inbox != [] && status.Complete?
      modifies this
      ensures m == old(inbox)[0] && View() == Read(old(View())).peer
      ensures m.Syn? ==> status.Pending? && receivedSyn && sentAck && outbox == old(outbox) + [Syn, Ack] && seen == old(seen)
      ensures !m.Syn? ==> status == old(status) && outbox == old(outbox) && seen == old(seen) + [m]
    {
      m := NextMessage();
      if m.Syn? {
        status := Pending;
        SendMessage(Syn);
        receivedSyn := true;
        SendAck();
      } else {
        seen := seen + [m];
      }
    }

    method WriteValue(v: V)
      requires status.Complete?
      modifies this
      ensures View() == Write(old(View()), v).peer
    {
      written := written + [v];
      SendMessage(Data(v));
    }
  }
}
