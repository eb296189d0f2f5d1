/**
 * What has arrived from remote peers and waits for a crank of its own: inbound messages and incarnation
 * changes, in one list (packages/ocap-kernel/src/KernelQueue.ts).
 */
module PeerArrivals {
  import opened Prelude

  type PeerId = nat
  type RemoteId = nat

  const MAX_ARRIVALS_PER_REMOTE: nat := 200

  /** `takenAhead` counts the messages put ahead of a waiting restart. */
  datatype Arrival =
    | Inbound(remote: RemoteId, peer: PeerId, number: nat, message: nat)
    | Incarnation(peer: PeerId, incarnation: nat, restart: bool, takenAhead: nat)

  type Message = a: Arrival | a.Inbound? witness Inbound(0, 0, 0, 0)

  predicate IsRestartOf(a: Arrival, peer: PeerId) {
    a.Incarnation? && a.peer == peer && a.restart
  }

  predicate IsInboundOf(a: Arrival, peer: PeerId) {
    a.Inbound? && a.peer == peer
  }

  /** A message of the remote and peer that no committed crank has taken. */
  predicate IsUncommitted(a: Arrival, remote: RemoteId, peer: PeerId, mark: nat) {
    a.Inbound? && a.remote == remote && a.peer == peer && mark < a.number
  }

  // ------------------------------------------------------------------ specification

  /** Where the peer's waiting restart stands, or the list's length if none waits. */
  function WaitingRestart(list: seq<Arrival>, peer: PeerId): (r: nat)
    ensures r <= |list|
    ensures r < |list| ==> IsRestartOf(list[r], peer)
    ensures forall i | 0 <= i < r :: !IsRestartOf(list[i], peer)
  {
    if list == [] || IsRestartOf(list[0], peer) then 0 else 1 + WaitingRestart(list[1..], peer)
  }

  /** The arrivals to keep, oldest first. */
  function Select(list: seq<Arrival>, keep: Arrival -> bool): (kept: seq<Arrival>)
    ensures |kept| <= |list|
  {
    if list == [] then []
    else if keep(list[0]) then [list[0]] + Select(list[1..], keep)
    else Select(list[1..], keep)
  }

  function UncommittedOf(remote: RemoteId, peer: PeerId, mark: nat): Arrival -> bool {
    a => IsUncommitted(a, remote, peer, mark)
  }

  /** What the remote holds that no committed crank has taken. */
  function Uncommitted(list: seq<Arrival>, remote: RemoteId, peer: PeerId, mark: nat): seq<Arrival> {
    Select(list, UncommittedOf(remote, peer, mark))
  }

  predicate HoldsNumber(held: seq<Arrival>, number: nat) {
    exists i | 0 <= i < |held| :: held[i].Inbound? && held[i].number == number
  }

  /** Put a message where it belongs: last, or just ahead of its peer's waiting restart. */
  function Place(list: seq<Arrival>, a: Message): seq<Arrival> {
    var r := WaitingRestart(list, a.peer);
    if r == |list| then list + [a] else PutAhead(list, r, a)
  }

  /** Count the message against the restart at `r`, and put it just ahead. */
  function PutAhead(list: seq<Arrival>, r: nat, a: Message): seq<Arrival>
    requires r < |list| && IsRestart(list[r])
  {
    list[..r] + [a, list[r].(takenAhead := list[r].takenAhead + 1)] + list[r + 1..]
  }

  /** The restart, if any, has not had its full share of messages put ahead of it. */
  predicate RoomAhead(list: seq<Arrival>, peer: PeerId) {
    var r := WaitingRestart(list, peer);
    r < |list| ==> list[r].takenAhead < MAX_ARRIVALS_PER_REMOTE
  }

  datatype Accepted = Held(list: seq<Arrival>) | Duplicate | Refused

  function Accept(list: seq<Arrival>, a: Message, mark: nat): Accepted {
    var held := Uncommitted(list, a.remote, a.peer, mark);
    if a.number <= mark || HoldsNumber(held, a.number) then Duplicate
    else if |held| >= MAX_ARRIVALS_PER_REMOTE || !RoomAhead(list, a.peer) then Refused
    else Held(Place(list, a))
  }

  /** A restart reported while another of the peer's waits takes that one's place. */
  function AcceptIncarnation(list: seq<Arrival>, peer: PeerId, incarnation: nat, restart: bool): seq<Arrival> {
    var r := WaitingRestart(list, peer);
    if restart && r < |list| then list[r := list[r].(incarnation := incarnation)]
    else list + [Incarnation(peer, incarnation, restart, 0)]
  }

  datatype Event =
    | AcceptMessage(arrival: Message, mark: nat)
    | AcceptChange(peer: PeerId, incarnation: nat, restart: bool)
    | TakeOldest

  function Apply(list: seq<Arrival>, e: Event): seq<Arrival> {
    match e
    case AcceptMessage(a, mark) => (match Accept(list, a, mark) case Held(l) => l case _ => list)
    case AcceptChange(peer, incarnation, restart) => AcceptIncarnation(list, peer, incarnation, restart)
    case TakeOldest => if list == [] then [] else list[1..]
  }

  function Run(list: seq<Arrival>, events: seq<Event>): seq<Arrival>
    decreases |events|
  {
    if events == [] then list else Run(Apply(list, events[0]), events[1..])
  }

  // ------------------------------------------------------------------ what every run keeps

  predicate OneRestartPerPeer(list: seq<Arrival>) {
    forall i, j | 0 <= i < j < |list| :: IsRestart(list[i]) && IsRestart(list[j]) ==> list[i].peer != list[j].peer
  }

  predicate IsRestart(a: Arrival) {
    a.Incarnation? && a.restart
  }

  /** No message of a peer stands behind that peer's waiting restart. */
  predicate NothingBehindRestart(list: seq<Arrival>) {
    forall i, j | 0 <= i < j < |list| :: IsRestart(list[i]) && list[j].Inbound? ==> list[i].peer != list[j].peer
  }

  predicate ShareBounded(list: seq<Arrival>) {
    forall i | 0 <= i < |list| :: list[i].Incarnation? ==> list[i].takenAhead <= 200
  }

  predicate Inv(list: seq<Arrival>) {
    OneRestartPerPeer(list) && NothingBehindRestart(list) && ShareBounded(list)
  }

  lemma ApplyKeepsInv(list: seq<Arrival>, e: Event)
    requires Inv(list)
    ensures Inv(Apply(list, e))
  {
    if e.AcceptMessage? && Accept(list, e.arrival, e.mark).Held? {
      PlaceKeepsInv(list, e.arrival);
    }
  }

  lemma PlaceKeepsInv(list: seq<Arrival>, a: Message)
    requires Inv(list) && RoomAhead(list, a.peer)
    ensures Inv(Place(list, a))
  {
    var placed := Place(list, a);
    var r := WaitingRestart(list, a.peer);
    if r < |list| {
      forall i | 0 <= i < |placed|
        ensures i < r ==> placed[i] == list[i]
        ensures i == r ==> placed[i] == a
        ensures i == r + 1 ==> placed[i] == list[r].(takenAhead := list[r].takenAhead + 1)
        ensures i > r + 1 ==> placed[i] == list[i - 1]
      {}
      forall i, j | 0 <= i < j < |placed| && IsRestart(placed[i])
        ensures IsRestart(placed[j]) ==> placed[i].peer != placed[j].peer
        ensures placed[j].Inbound? ==> placed[i].peer != placed[j].peer
      {
        var i0 := if i < r then i else i - 1;
        var j0 := if j < r then j else if j == r then r else j - 1;
        assert IsRestart(list[i0]) && list[i0].peer == placed[i].peer;
        if j != r { assert list[j0].peer == placed[j].peer && i0 < j0; }
      }
    }
  }

  lemma {:induction false} RunKeepsInv(list: seq<Arrival>, events: seq<Event>)
    requires Inv(list)
    ensures Inv(Run(list, events))
    decreases |events|
  {
    if events != [] {
      ApplyKeepsInv(list, events[0]);
      RunKeepsInv(Apply(list, events[0]), events[1..]);
    }
  }

  // ------------------------------------------------------------------ order of delivery

  function InboundOf(peer: PeerId): Arrival -> bool {
    a => IsInboundOf(a, peer)
  }

  /** The peer's messages in the list, oldest first. */
  function MessagesOf(list: seq<Arrival>, peer: PeerId): seq<Arrival> {
    Select(list, InboundOf(peer))
  }

  lemma {:induction false} SelectConcat(a: seq<Arrival>, b: seq<Arrival>, keep: Arrival -> bool)
    ensures Select(a + b, keep) == Select(a, keep) + Select(b, keep)
    decreases |a|
  {
    if a == [] {
      assert a + b == b;
    } else {
      assert (a + b)[0] == a[0] && (a + b)[1..] == a[1..] + b;
      SelectConcat(a[1..], b, keep);
    }
  }

  lemma SelectMiddle(ahead: seq<Arrival>, middle: seq<Arrival>, behind: seq<Arrival>, keep: Arrival -> bool)
    ensures Select(ahead + middle + behind, keep) == Select(ahead, keep) + Select(middle, keep) + Select(behind, keep)
  {
    SelectConcat(ahead + middle, behind, keep);
    SelectConcat(ahead, middle, keep);
  }

  /** A message of no peer behind that peer's restart: what is kept behind it belongs to others. */
  lemma NoneBehind(list: seq<Arrival>, r: nat, keep: Arrival -> bool)
    requires NothingBehindRestart(list) && r < |list| && IsRestart(list[r])
    requires forall a | keep(a) :: IsInboundOf(a, list[r].peer)
    ensures Select(list[r + 1..], keep) == []
  {
    var behind := list[r + 1..];
    forall k | 0 <= k < |behind| ensures !keep(behind[k]) { assert behind[k] == list[r + 1 + k]; }
    NoneKept(behind, keep);
  }

  lemma {:induction false} NoneKept(list: seq<Arrival>, keep: Arrival -> bool)
    requires forall k | 0 <= k < |list| :: !keep(list[k])
    ensures Select(list, keep) == []
    decreases |list|
  {
    if list != [] { NoneKept(list[1..], keep); }
  }

  /** Despite being spliced into the middle, a held message comes last among the messages of its peer. */
  lemma PlaceAppends(list: seq<Arrival>, a: Message, keep: Arrival -> bool)
    requires NothingBehindRestart(list)
    requires forall x | keep(x) :: x.Inbound?
    requires keep(a) ==> forall x | keep(x) :: IsInboundOf(x, a.peer)
    ensures Select(Place(list, a), keep) == Select(list, keep) + (if keep(a) then [a] else [])
  {
    var r := WaitingRestart(list, a.peer);
    if r == |list| {
      SelectConcat(list, [a], keep);
    } else {
      var ahead, behind := list[..r], list[r + 1..];
      var restart := list[r].(takenAhead := list[r].takenAhead + 1);
      assert list == ahead + [list[r]] + behind;
      assert Place(list, a) == ahead + [a, restart] + behind;
      SelectMiddle(ahead, [list[r]], behind, keep);
      SelectMiddle(ahead, [a, restart], behind, keep);
      SelectPair(a, restart, keep);
      if keep(a) { NoneBehind(list, r, keep); }
      SpliceEqualsAppend(Select(ahead, keep), Select(behind, keep), if keep(a) then [a] else []);
    }
  }

  lemma SelectPair(a: Arrival, b: Arrival, keep: Arrival -> bool)
    ensures Select([a, b], keep) == (if keep(a) then [a] else []) + (if keep(b) then [b] else [])
  {
    SelectConcat([a], [b], keep);
    assert [a] + [b] == [a, b];
  }

  lemma SpliceEqualsAppend(ahead: seq<Arrival>, behind: seq<Arrival>, added: seq<Arrival>)
    ensures behind == [] || added == [] ==> ahead + added + behind == ahead + behind + added
    ensures ahead + [] + behind == ahead + behind && ahead + (added + []) + behind == ahead + added + behind
  {
  }

  /** An incarnation change, recorded in place or last, moves no message. */
  lemma ChangeKeepsMessages(list: seq<Arrival>, peer: PeerId, incarnation: nat, restart: bool, keep: Arrival -> bool)
    requires forall x | keep(x) :: x.Inbound?
    ensures Select(AcceptIncarnation(list, peer, incarnation, restart), keep) == Select(list, keep)
  {
    var r := WaitingRestart(list, peer);
    if restart && r < |list| {
      var replaced := list[r].(incarnation := incarnation);
      assert list == list[..r] + [list[r]] + list[r + 1..];
      assert AcceptIncarnation(list, peer, incarnation, restart) == list[..r] + [replaced] + list[r + 1..];
      SelectMiddle(list[..r], [list[r]], list[r + 1..], keep);
      SelectMiddle(list[..r], [replaced], list[r + 1..], keep);
    } else {
      SelectConcat(list, [Incarnation(peer, incarnation, restart, 0)], keep);
    }
  }

  /** The peer's messages held, in the order they were accepted, over a run. */
  function AcceptedOf(list: seq<Arrival>, events: seq<Event>, peer: PeerId): seq<Arrival>
    decreases |events|
  {
    if events == [] then []
    else
      var e := events[0];
      var later := AcceptedOf(Apply(list, e), events[1..], peer);
      if e.AcceptMessage? && e.arrival.peer == peer && Accept(list, e.arrival, e.mark).Held? then [e.arrival] + later else later
  }

  /** The peer's messages taken, in the order they were taken, over a run. */
  function TakenOf(list: seq<Arrival>, events: seq<Event>, peer: PeerId): seq<Arrival>
    decreases |events|
  {
    if events == [] then []
    else
      var later := TakenOf(Apply(list, events[0]), events[1..], peer);
      if events[0].TakeOldest? && list != [] && IsInboundOf(list[0], peer) then [list[0]] + later else later
  }

  /** Each peer's messages are taken in the order they were accepted, none lost and none twice. */
  lemma {:induction false} TakenInAcceptedOrder(list: seq<Arrival>, events: seq<Event>, peer: PeerId)
    requires Inv(list)
    ensures TakenOf(list, events, peer) + MessagesOf(Run(list, events), peer) ==
            MessagesOf(list, peer) + AcceptedOf(list, events, peer)
    decreases |events|
  {
    if events != [] {
      var e := events[0];
      ApplyKeepsInv(list, e);
      var next := Apply(list, e);
      TakenInAcceptedOrder(next, events[1..], peer);
      OneEvent(list, e, peer);
      var added := if e.AcceptMessage? && e.arrival.peer == peer && Accept(list, e.arrival, e.mark).Held? then [e.arrival] else [];
      var taken := if e.TakeOldest? && list != [] && IsInboundOf(list[0], peer) then [list[0]] else [];
      Regroup(taken, TakenOf(next, events[1..], peer), MessagesOf(Run(list, events), peer),
        MessagesOf(next, peer), MessagesOf(list, peer), added, AcceptedOf(next, events[1..], peer));
    }
  }

  lemma Regroup<T>(taken: seq<T>, takenLater: seq<T>, final: seq<T>, next: seq<T>, now: seq<T>, added: seq<T>, addedLater: seq<T>)
    requires taken + next == now + added
    requires takenLater + final == next + addedLater
    ensures (taken + takenLater) + final == now + (added + addedLater)
    ensures [] + takenLater == takenLater && [] + addedLater == addedLater
  {
    assert (taken + takenLater) + final == taken + (takenLater + final);
    assert taken + (next + addedLater) == (taken + next) + addedLater;
    assert (now + added) + addedLater == now + (added + addedLater);
  }

  /** One event: what it takes from the peer's messages and what it adds to them. */
  lemma OneEvent(list: seq<Arrival>, e: Event, peer: PeerId)
    requires Inv(list)
    ensures var added := if e.AcceptMessage? && e.arrival.peer == peer && Accept(list, e.arrival, e.mark).Held? then [e.arrival] else [];
            var taken := if e.TakeOldest? && list != [] && IsInboundOf(list[0], peer) then [list[0]] else [];
            taken + MessagesOf(Apply(list, e), peer) == MessagesOf(list, peer) + added
  {
    match e
    case AcceptMessage(a, mark) =>
      if Accept(list, a, mark).Held? { PlaceAppends(list, a, InboundOf(peer)); }
    case AcceptChange(p, incarnation, restart) =>
      ChangeKeepsMessages(list, p, incarnation, restart, InboundOf(peer));
    case TakeOldest =>
  }

  // ------------------------------------------------------------------ the share of one remote

  predicate DistinctNumbers(held: seq<Arrival>) {
    forall i, j | 0 <= i < j < |held| :: held[i].Inbound? && held[j].Inbound? ==> held[i].number != held[j].number
  }

  /** At most a window of messages above the mark, no two with one number. */
  predicate ShareHeld(list: seq<Arrival>, remote: RemoteId, peer: PeerId, mark: nat) {
    var held := Uncommitted(list, remote, peer, mark);
    |held| <= 200 && DistinctNumbers(held)
  }

  /** What fewer keep, more keep too, at some place. */
  lemma {:induction false} Refound(list: seq<Arrival>, keep: Arrival -> bool, fewer: Arrival -> bool, j: nat) returns (k: nat)
    requires forall a | fewer(a) :: keep(a)
    requires j < |Select(list, fewer)|
    ensures k < |Select(list, keep)| && Select(list, keep)[k] == Select(list, fewer)[j]
    decreases |list|
  {
    if fewer(list[0]) && j == 0 {
      k := 0;
    } else {
      k := Refound(list[1..], keep, fewer, if fewer(list[0]) then j - 1 else j);
      if keep(list[0]) { k := k + 1; }
    }
  }

  lemma TailStaysDistinct(held: seq<Arrival>)
    requires held != [] && DistinctNumbers(held)
    ensures DistinctNumbers(held[1..])
  {
    forall i | 0 <= i < |held[1..]| ensures held[1..][i] == held[i + 1] {}
  }

  /** Keeping fewer keeps distinct numbers distinct. */
  lemma {:induction false} FewerStayDistinct(list: seq<Arrival>, keep: Arrival -> bool, fewer: Arrival -> bool)
    requires DistinctNumbers(Select(list, keep))
    requires forall a | fewer(a) :: keep(a)
    ensures DistinctNumbers(Select(list, fewer)) && |Select(list, fewer)| <= |Select(list, keep)|
    decreases |list|
  {
    if list != [] {
      var tail, kept := Select(list[1..], keep), Select(list, keep);
      if keep(list[0]) {
        TailStaysDistinct(kept);
        assert tail == kept[1..];
      }
      FewerStayDistinct(list[1..], keep, fewer);
      if fewer(list[0]) {
        var rest := Select(list[1..], fewer);
        forall j | 0 <= j < |rest| && list[0].Inbound? && rest[j].Inbound? ensures rest[j].number != list[0].number {
          var k := Refound(list[1..], keep, fewer, j);
          assert kept[k + 1] == rest[j] && kept[0] == list[0];
        }
      }
    }
  }

  /** Raising the mark keeps a remote's share within bounds. */
  lemma RisingMarkKeepsShare(list: seq<Arrival>, remote: RemoteId, peer: PeerId, mark: nat, higher: nat)
    requires mark <= higher && ShareHeld(list, remote, peer, mark)
    ensures ShareHeld(list, remote, peer, higher)
  {
    FewerStayDistinct(list, UncommittedOf(remote, peer, mark), UncommittedOf(remote, peer, higher));
  }

  /** Any event keeps every remote's share, a message being judged by the mark its remote has reached. */
  lemma ApplyKeepsShare(list: seq<Arrival>, e: Event, remote: RemoteId, peer: PeerId, mark: nat)
    requires Inv(list) && ShareHeld(list, remote, peer, mark)
    requires e.AcceptMessage? && e.arrival.remote == remote && e.arrival.peer == peer ==> e.mark == mark
    ensures ShareHeld(Apply(list, e), remote, peer, mark)
  {
    var held := Uncommitted(list, remote, peer, mark);
    match e
    case AcceptMessage(a, m) =>
      if Accept(list, a, m).Held? {
        PlaceAppends(list, a, UncommittedOf(remote, peer, mark));
      }
    case AcceptChange(p, incarnation, restart) =>
      ChangeKeepsMessages(list, p, incarnation, restart, UncommittedOf(remote, peer, mark));
    case TakeOldest =>
      if list != [] {
        var rest := Uncommitted(list[1..], remote, peer, mark);
        assert held == rest || (held != [] && rest == held[1..]);
      }
  }

  // ------------------------------------------------------------------ what is held, and what is not

  /** The numbers of the remote's messages in the list, above the mark. */
  function Numbers(list: seq<Arrival>, remote: RemoteId, peer: PeerId, mark: nat): multiset<nat> {
    if list == [] then multiset{}
    else match list[0]
         case Inbound(r, p, number, _) =>
           (if r == remote && p == peer && number > mark then multiset{number} else multiset{}) + Numbers(list[1..], remote, peer, mark)
         case _ => Numbers(list[1..], remote, peer, mark)
  }

  lemma {:induction false} NumbersAre(list: seq<Arrival>, remote: RemoteId, peer: PeerId, mark: nat, number: nat)
    ensures |Numbers(list, remote, peer, mark)| == |Uncommitted(list, remote, peer, mark)|
    ensures number in Numbers(list, remote, peer, mark) <==> HoldsNumber(Uncommitted(list, remote, peer, mark), number)
    decreases |list|
  {
    if list != [] {
      NumbersAre(list[1..], remote, peer, mark, number);
      var held, later := Uncommitted(list, remote, peer, mark), Uncommitted(list[1..], remote, peer, mark);
      if IsUncommitted(list[0], remote, peer, mark) {
        assert held == [list[0]] + later;
        if i :| 0 <= i < |later| && later[i].Inbound? && later[i].number == number { assert held[i + 1] == later[i]; }
        if i :| 0 <= i < |held| && held[i].Inbound? && held[i].number == number { if i > 0 { assert later[i - 1] == held[i]; } }
        if list[0].number == number { assert held[0].number == number; }
      }
    }
  }

  lemma FirstIsNoOther(held: seq<Arrival>)
    requires held != [] && held[0].Inbound? && DistinctNumbers(held)
    ensures !HoldsNumber(held[1..], held[0].number)
  {
    forall i | 0 <= i < |held[1..]| && held[1..][i].Inbound? ensures held[1..][i].number != held[0].number {
      assert held[1..][i] == held[i + 1];
    }
  }

  /** A share within bounds is of 200 numbers at most, each of one message. */
  lemma {:induction false} ShareIsOfNumbers(list: seq<Arrival>, remote: RemoteId, peer: PeerId, mark: nat, number: nat)
    requires DistinctNumbers(Uncommitted(list, remote, peer, mark))
    ensures Numbers(list, remote, peer, mark)[number] <= 1
    decreases |list|
  {
    if list != [] {
      var held := Uncommitted(list, remote, peer, mark);
      NumbersAre(list[1..], remote, peer, mark, number);
      if IsUncommitted(list[0], remote, peer, mark) {
        var later := Uncommitted(list[1..], remote, peer, mark);
        assert held == [list[0]] + later && held[1..] == later;
        TailStaysDistinct(held);
        FirstIsNoOther(held);
      }
      ShareIsOfNumbers(list[1..], remote, peer, mark, number);
    }
  }

  /** The peer's restart waits in the list, and has had 200 messages put ahead of it. */
  predicate FullAhead(list: seq<Arrival>, peer: PeerId) {
    exists i | 0 <= i < |list| :: list[i].Incarnation? && list[i].restart && list[i].peer == peer && list[i].takenAhead >= 200
  }

  /**
   * A message is passed over exactly as a copy, one its remote has sent before; of the others, one is refused exactly
   * when the remote has 200 held already or its peer's restart has had 200 put ahead; and any other is held.
   */
  lemma AcceptsExactly(list: seq<Arrival>, a: Message, mark: nat)
    requires Inv(list)
    ensures var held := Numbers(list, a.remote, a.peer, mark);
            && (Accept(list, a, mark).Duplicate? <==> a.number <= mark || a.number in held)
            && (Accept(list, a, mark).Refused? <==> a.number > mark && a.number !in held && (|held| >= 200 || FullAhead(list, a.peer)))
            && (Accept(list, a, mark).Held? ==> multiset(Apply(list, AcceptMessage(a, mark)))[a] == multiset(list)[a] + 1)
  {
    NumbersAre(list, a.remote, a.peer, mark, a.number);
    OneRestartIsFull(list, a.peer);
    if Accept(list, a, mark).Held? { PlacedOnce(list, a); }
  }

  lemma OneRestartIsFull(list: seq<Arrival>, peer: PeerId)
    requires OneRestartPerPeer(list)
    ensures RoomAhead(list, peer) <==> !FullAhead(list, peer)
  {
    var r := WaitingRestart(list, peer);
    if FullAhead(list, peer) {
      var i :| 0 <= i < |list| && list[i].Incarnation? && list[i].restart && list[i].peer == peer && list[i].takenAhead >= 200;
      assert IsRestart(list[i]) && r <= i && IsRestart(list[r]);
    }
  }

  lemma PlacedOnce(list: seq<Arrival>, a: Message)
    ensures multiset(Place(list, a))[a] == multiset(list)[a] + 1
  {
    var r := WaitingRestart(list, a.peer);
    if r < |list| {
      var ahead, behind := list[..r], list[r + 1..];
      assert list == ahead + [list[r]] + behind;
      assert Place(list, a) == ahead + [a, list[r].(takenAhead := list[r].takenAhead + 1)] + behind;
    }
  }

  /** A change of incarnation is always held: in the place of the peer's waiting restart, or else last. */
  lemma ChangesAreHeld(list: seq<Arrival>, peer: PeerId, incarnation: nat, restart: bool)
    ensures var after := Apply(list, AcceptChange(peer, incarnation, restart));
            if restart && exists i | 0 <= i < |list| :: list[i].Incarnation? && list[i].restart && list[i].peer == peer then
              |after| == |list| && exists i | 0 <= i < |list| ::
                list[i].Incarnation? && list[i].restart && list[i].peer == peer
                && after == list[i := Incarnation(peer, incarnation, true, list[i].takenAhead)]
            else after == list + [Incarnation(peer, incarnation, restart, 0)]
  {
    var r := WaitingRestart(list, peer);
    if restart && r < |list| { assert AcceptIncarnation(list, peer, incarnation, restart) == list[r := Incarnation(peer, incarnation, true, list[r].takenAhead)]; }
    if restart && (exists i | 0 <= i < |list| :: list[i].Incarnation? && list[i].restart && list[i].peer == peer) {
      var i :| 0 <= i < |list| && list[i].Incarnation? && list[i].restart && list[i].peer == peer;
      assert IsRestartOf(list[i], peer);
    }
  }

  // ------------------------------------------------------------------ the mark is reset

  /** Every message of the remote and peer in the list is above the mark. */
  predicate AllFresh(list: seq<Arrival>, remote: RemoteId, peer: PeerId, mark: nat) {
    forall i | 0 <= i < |list| :: IsUncommitted(list[i], remote, peer, 0) ==> mark < list[i].number
  }

  /** With every message above the mark, as many are above nothing at all. */
  lemma {:induction false} FreshFromZero(list: seq<Arrival>, remote: RemoteId, peer: PeerId, mark: nat)
    requires AllFresh(list, remote, peer, mark)
    ensures Uncommitted(list, remote, peer, 0) == Uncommitted(list, remote, peer, mark)
    decreases |list|
  {
    if list != [] {
      assert forall i | 0 <= i < |list[1..]| :: list[1..][i] == list[i + 1];
      FreshFromZero(list[1..], remote, peer, mark);
      assert IsUncommitted(list[0], remote, peer, 0) <==> IsUncommitted(list[0], remote, peer, mark);
    }
  }

  /** What a remote has sent since its peer's restart was taken may be counted from nothing again. */
  lemma ResetKeepsShare(list: seq<Arrival>, remote: RemoteId, peer: PeerId, mark: nat)
    requires ShareHeld(list, remote, peer, mark) && AllFresh(list, remote, peer, mark)
    ensures ShareHeld(list, remote, peer, 0) && AllFresh(list, remote, peer, 0)
  {
    FreshFromZero(list, remote, peer, mark);
  }

  /** Once its peer's restart has been taken, none of a remote's messages is left: all stood ahead of it. */
  lemma TakenRestartLeavesNone(list: seq<Arrival>, remote: RemoteId, peer: PeerId, mark: nat)
    requires Inv(list) && list != [] && IsRestartOf(list[0], peer)
    ensures AllFresh(list[1..], remote, peer, mark)
  {
    forall i | 0 <= i < |list[1..]| ensures list[1..][i] == list[i + 1] {}
  }

  /** Any event keeps messages above the mark there, a new one being judged by it. */
  lemma ApplyKeepsFresh(list: seq<Arrival>, e: Event, remote: RemoteId, peer: PeerId, mark: nat)
    requires AllFresh(list, remote, peer, mark)
    requires e.AcceptMessage? && e.arrival.remote == remote && e.arrival.peer == peer ==> e.mark == mark
    ensures AllFresh(Apply(list, e), remote, peer, mark)
  {
    match e
    case AcceptMessage(a, m) => if Accept(list, a, m).Held? { PlacingKeepsFresh(list, a, remote, peer, mark); }
    case AcceptChange(p, incarnation, restart) => ChangingKeepsFresh(list, p, incarnation, restart, remote, peer, mark);
    case TakeOldest => if list != [] { forall i | 0 <= i < |list[1..]| ensures list[1..][i] == list[i + 1] {} }
  }

  lemma PlacingKeepsFresh(list: seq<Arrival>, a: Message, remote: RemoteId, peer: PeerId, mark: nat)
    requires AllFresh(list, remote, peer, mark) && (a.remote == remote && a.peer == peer ==> mark < a.number)
    ensures AllFresh(Place(list, a), remote, peer, mark)
  {
    var r, placed := WaitingRestart(list, a.peer), Place(list, a);
    if r < |list| {
      forall i | 0 <= i < |placed|
        ensures i < r ==> placed[i] == list[i]
        ensures i == r ==> placed[i] == a
        ensures i == r + 1 ==> placed[i] == list[r].(takenAhead := list[r].takenAhead + 1)
        ensures i > r + 1 ==> placed[i] == list[i - 1]
      {}
    }
  }

  lemma ChangingKeepsFresh(list: seq<Arrival>, p: PeerId, incarnation: nat, restart: bool, remote: RemoteId, peer: PeerId, mark: nat)
    requires AllFresh(list, remote, peer, mark)
    ensures AllFresh(AcceptIncarnation(list, p, incarnation, restart), remote, peer, mark)
  {
  }

  // ------------------------------------------------------------------ bounded wait

  /** How many messages may still be put ahead of the restarts in the list. */
  function RoomLeft(list: seq<Arrival>): int {
    if list == [] then 0
    else RoomLeft(list[..|list| - 1]) +
         (var a := list[|list| - 1]; if IsRestart(a) then MAX_ARRIVALS_PER_REMOTE - a.takenAhead else 0)
  }

  /** The most arrivals that can be taken before the one at `i`. */
  function Potential(list: seq<Arrival>, i: nat): int
    requires i < |list|
  {
    i + RoomLeft(list[..i + 1])
  }

  lemma {:induction false} RoomLeftConcat(a: seq<Arrival>, b: seq<Arrival>)
    ensures RoomLeft(a + b) == RoomLeft(a) + RoomLeft(b)
    decreases |b|
  {
    if b == [] {
      assert a + b == a;
    } else {
      assert (a + b)[..|a + b| - 1] == a + b[..|b| - 1];
      RoomLeftConcat(a, b[..|b| - 1]);
    }
  }

  lemma RoomLeftMiddle(ahead: seq<Arrival>, middle: seq<Arrival>, behind: seq<Arrival>)
    ensures RoomLeft(ahead + middle + behind) == RoomLeft(ahead) + RoomLeft(middle) + RoomLeft(behind)
  {
    RoomLeftConcat(ahead + middle, behind);
    RoomLeftConcat(ahead, middle);
  }

  lemma {:induction false} RoomLeftIsNat(list: seq<Arrival>)
    requires ShareBounded(list)
    ensures RoomLeft(list) >= 0
    decreases |list|
  {
    if list != [] { RoomLeftIsNat(list[..|list| - 1]); }
  }

  /** Where an event leaves the arrival that stood at `i`: shifted by a message placed ahead of it, or one nearer, or taken. */
  function Follow(list: seq<Arrival>, i: nat, e: Event): Option<nat>
    requires i < |list|
  {
    match e
    case AcceptMessage(a, mark) =>
      if Accept(list, a, mark).Held? && WaitingRestart(list, a.peer) <= i then Some(i + 1) else Some(i)
    case AcceptChange(_, _, _) => Some(i)
    case TakeOldest => if i == 0 then None else Some(i - 1)
  }

  /** Two records of one arrival: a waiting restart may have been updated in place. */
  predicate SameArrival(a: Arrival, b: Arrival) {
    if IsRestart(a) then IsRestart(b) && a.peer == b.peer else a == b
  }

  /** No accept raises an arrival's potential, and every arrival taken ahead of it lowers it. */
  lemma PotentialFalls(list: seq<Arrival>, i: nat, e: Event)
    requires Inv(list) && i < |list|
    ensures match Follow(list, i, e)
            case None => true
            case Some(j) =>
              && j < |Apply(list, e)|
              && SameArrival(list[i], Apply(list, e)[j])
              && 0 <= Potential(Apply(list, e), j) <= Potential(list, i) - (if e.TakeOldest? then 1 else 0)
  {
    ApplyKeepsInv(list, e);
    match e
    case AcceptMessage(a, mark) =>
      if Accept(list, a, mark).Held? { PlacingKeepsPotential(list, i, a); } else { RoomLeftIsNat(list[..i + 1]); }
    case AcceptChange(p, incarnation, restart) =>
      ChangeKeepsPotential(list, i, p, incarnation, restart);
    case TakeOldest =>
      if i > 0 {
        TailUpTo(list, i);
        RoomLeftConcat([list[0]], list[1..][..i]);
        RoomLeftIsNat([list[0]]);
        RoomLeftIsNat(list[1..][..i]);
      }
  }

  lemma TailUpTo<T>(list: seq<T>, i: nat)
    requires i < |list|
    ensures list[..i + 1] == [list[0]] + list[1..][..i]
  {
  }

  lemma PlacingKeepsPotential(list: seq<Arrival>, i: nat, a: Message)
    requires Inv(list) && i < |list| && RoomAhead(list, a.peer)
    ensures var r, placed := WaitingRestart(list, a.peer), Place(list, a);
            var j := if r <= i then i + 1 else i;
            j < |placed| && SameArrival(list[i], placed[j]) && 0 <= Potential(placed, j) <= Potential(list, i)
  {
    PlaceKeepsInv(list, a);
    PlacedKeepsPotential(list, WaitingRestart(list, a.peer), i, a, Place(list, a));
  }

  lemma PlacedKeepsPotential(list: seq<Arrival>, r: nat, i: nat, a: Message, placed: seq<Arrival>)
    requires i < |list| && r <= |list| && (r < |list| ==> IsRestart(list[r]))
    requires placed == if r == |list| then list + [a] else PutAhead(list, r, a)
    requires ShareBounded(list) && ShareBounded(placed)
    ensures var j := if r <= i then i + 1 else i;
            j < |placed| && SameArrival(list[i], placed[j]) && 0 <= Potential(placed, j) <= Potential(list, i)
  {
    if r <= i {
      PuttingAheadKeepsPotential(list, r, i, a);
      RoomLeftIsNat(placed[..i + 2]);
    } else {
      RoomLeftIsNat(list[..i + 1]);
      assert placed[..i + 1] == list[..i + 1];
    }
  }

  lemma PuttingAheadKeepsPotential(list: seq<Arrival>, r: nat, i: nat, a: Message)
    requires r <= i < |list| && IsRestart(list[r])
    ensures var placed := PutAhead(list, r, a);
            |placed| == |list| + 1 && SameArrival(list[i], placed[i + 1]) && Potential(placed, i + 1) == Potential(list, i)
  {
    SpliceUpTo(list, r, i, a, list[r].(takenAhead := list[r].takenAhead + 1));
    RoomSpent(list[..r], list[r], list[r + 1..i + 1], a);
  }

  lemma SpliceUpTo<T>(list: seq<T>, r: nat, i: nat, a: T, b: T)
    requires r <= i < |list|
    ensures list[..i + 1] == list[..r] + [list[r]] + list[r + 1..i + 1]
    ensures var spliced := list[..r] + [a, b] + list[r + 1..];
            && |spliced| == |list| + 1
            && spliced[..i + 2] == list[..r] + [a, b] + list[r + 1..i + 1]
            && spliced[i + 1] == if i == r then b else list[i]
  {
  }

  /** Putting a message ahead of a restart spends one unit of its room. */
  lemma RoomSpent(ahead: seq<Arrival>, restart: Arrival, between: seq<Arrival>, a: Message)
    requires IsRestart(restart)
    ensures RoomLeft(ahead + [a, restart.(takenAhead := restart.takenAhead + 1)] + between) == RoomLeft(ahead + [restart] + between) - 1
  {
    var counted := restart.(takenAhead := restart.takenAhead + 1);
    RoomLeftMiddle(ahead, [restart], between);
    RoomLeftMiddle(ahead, [a, counted], between);
    RoomLeftConcat([a], [counted]);
    assert [a] + [counted] == [a, counted];
  }

  lemma ChangeKeepsPotential(list: seq<Arrival>, i: nat, p: PeerId, incarnation: nat, restart: bool)
    requires Inv(list) && i < |list|
    ensures var changed := AcceptIncarnation(list, p, incarnation, restart);
            SameArrival(list[i], changed[i]) && 0 <= Potential(changed, i) == Potential(list, i)
  {
    var r, changed := WaitingRestart(list, p), AcceptIncarnation(list, p, incarnation, restart);
    RoomLeftIsNat(list[..i + 1]);
    if restart && r <= i {
      var replaced := list[r].(incarnation := incarnation);
      var ahead, between := list[..r], list[r + 1..i + 1];
      assert list[..i + 1] == ahead + [list[r]] + between;
      assert changed[..i + 1] == ahead + [replaced] + between;
      RoomLeftMiddle(ahead, [list[r]], between);
      RoomLeftMiddle(ahead, [replaced], between);
    } else {
      assert changed[..i + 1] == list[..i + 1];
    }
  }

  // ------------------------------------------------------------------ taking turns with the run queue

  datatype Source = FromArrivals | FromRunQueue | FromNeither

  /** Which source a crank with no priority work takes from, and the flag it leaves. */
  function Pick(arrivals: nat, runQueue: nat, tookArrivalLast: bool): (Source, bool) {
    if !tookArrivalLast && arrivals > 0 then (FromArrivals, true)
    else if runQueue > 0 then (FromRunQueue, false)
    else if arrivals > 0 then (FromArrivals, true)
    else (FromNeither, false)
  }

  /** With both sources waiting at two picks in a row, the picks come from different sources. */
  lemma PicksAlternate(a1: nat, q1: nat, flag: bool, a2: nat, q2: nat)
    requires a1 > 0 && q1 > 0 && a2 > 0 && q2 > 0
    ensures var (first, next) := Pick(a1, q1, flag);
            var (second, _) := Pick(a2, q2, next);
            first != second && first != FromNeither && second != FromNeither
    ensures Pick(a1, q1, flag).0 == (if flag then FromRunQueue else FromArrivals)
  {
  }

  /** A pick leaves work behind only if there was none: it takes from neither source exactly when both are empty. */
  lemma PickTakesWhatThereIs(arrivals: nat, runQueue: nat, flag: bool)
    ensures Pick(arrivals, runQueue, flag).0 == FromNeither <==> arrivals == 0 && runQueue == 0
    ensures Pick(arrivals, runQueue, flag).0 == FromArrivals ==> arrivals > 0
    ensures Pick(arrivals, runQueue, flag).0 == FromRunQueue ==> runQueue > 0
    ensures Pick(arrivals, runQueue, flag).1 <==> Pick(arrivals, runQueue, flag).0 == FromArrivals
  {
  }

  /** What a peer, or its remote, has the queue accept. */
  type Accepting = e: Event | !e.TakeOldest? witness AcceptChange(0, 0, true)

  /** The picks an arrival has still to wait through, at most. */
  function Patience(list: seq<Arrival>, i: nat, tookArrivalLast: bool): int
    requires i < |list|
  {
    2 * Potential(list, i) + (if tookArrivalLast then 1 else 0)
  }
}
