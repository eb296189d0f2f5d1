/**
 * A readable stream's buffer and the reader around it (packages/streams/src/BaseStream.ts): values wait for
 * reads and reads wait for values, whichever come first, until the stream ends.
 */
module StreamReader {
  import opened Prelude

  datatype Entry<V> = Val(value: V) | Err(error: nat)
  datatype Outcome<V> = Got(value: V) | Failed(error: nat) | Finished

  /** How many reads had been made when the stream ended, and the error it ended with, if any. */
  datatype Ending = Ending(made: nat, error: Option<nat>)

  /** What a transport hands a reader: a value, which its validator accepts or not, or a signal. */
  datatype Input<V> = Data(value: V, valid: bool) | DoneSignal | ErrorSignal(error: nat) | MalformedSignal

  const INVALID_INPUT: nat := 0

  function ErrorOf<V>(input: Input<V>): Option<nat> {
    match input
    case Data(_, valid) => if valid then None else Some(INVALID_INPUT)
    case DoneSignal => None
    case ErrorSignal(e) => Some(e)
    case MalformedSignal => Some(INVALID_INPUT)
  }

  /**
   * What the `k`th read of a stream is answered, given what was put in it before its end: the `k`th of those,
   * if there are that many. Any other waits until the end and is answered with its error if it was made
   * before, or told that the stream is finished.
   */
  function AnswerTo<V>(puts: seq<Entry<V>>, ending: Option<Ending>, k: nat): Option<Outcome<V>> {
    if k < |puts| then Some(if puts[k].Val? then Got(puts[k].value) else Failed(puts[k].error))
    else match ending
         case None => None
         case Some(end) => Some(if k < end.made && end.error.Some? then Failed(end.error.value) else Finished)
  }

  /** Entries put while an error waits behind earlier values: values, and after them at most one error. */
  predicate ErrorLast<V>(puts: seq<Entry<V>>) {
    forall i | 0 <= i < |puts| - 1 :: puts[i].Val?
  }

  function Range(from: nat, to: nat): (r: seq<nat>)
    requires from <= to
    ensures |r| == to - from && forall i | 0 <= i < |r| :: r[i] == from + i
  {
    seq(to - from, i requires 0 <= i < to - from => from + i)
  }

  predicate HasError<V>(puts: seq<Entry<V>>) {
    puts != [] && puts[|puts| - 1].Err?
  }

  class Reader<V> {
    // Reads are numbered in the order they are made; `answers` holds those settled.
    var inputBuffer: seq<Entry<V>>
    var outputBuffer: seq<nat>
    var done: bool
    var hookSet: bool
    var hookRuns: nat
    var made: nat
    var answers: map<nat, Outcome<V>>
    /** Everything put before the end, and the end. */
    ghost var puts: seq<Entry<V>>
    ghost var ending: Option<Ending>

    /** Every read has been answered as it should be, or waits; unread values and pending reads never coexist. */
    ghost predicate Answering()
      reads this
    {
      && done == ending.Some? && hookSet == !done && hookRuns == (if done then 1 else 0)
      && (ending.Some? ==> ending.value.made <= made)
      && ErrorLast(puts)
      && inputBuffer == (if made < |puts| then puts[made..] else [])
      && outputBuffer == (if !done && |puts| < made then Range(|puts|, made) else [])
      && (forall k | k in answers :: k < made)
      && (forall k: nat | k < made :: (k in answers <==> AnswerTo(puts, ending, k).Some?)
                                      && (k in answers ==> answers[k] == AnswerTo(puts, ending, k).value))
    }

    ghost predicate Valid()
      reads this
    {
      Answering() && (HasError(puts) ==> done)
    }

    constructor ()
      ensures Valid() && puts == [] && ending == None && made == 0
    {
      inputBuffer, outputBuffer, done, hookSet, hookRuns, made, answers := [], [], false, true, 0, 0, map[];
      puts, ending := [], None;
    }

    /** Hand an entry to the oldest pending read, or keep it for a read to come. */
    method Put(entry: Entry<V>)
      requires Valid() && (entry.Err? ==> outputBuffer == [])
      modifies this
      ensures Answering() && ending == old(ending) && made == old(made)
      ensures puts == if old(done) then old(puts) else old(puts) + [entry]
    {
      if done { return; }
      if outputBuffer != [] {
        answers := answers[outputBuffer[0] := Got(entry.value)];
        outputBuffer := outputBuffer[1..];
      } else {
        inputBuffer := inputBuffer + [entry];
      }
      puts := puts + [entry];
    }

    /** Make a read: it takes the oldest unread entry, or learns of the end, or waits. */
    method Get() returns (k: nat)
      requires Valid()
      modifies this
      ensures Valid() && k == old(made) && made == k + 1 && puts == old(puts) && ending == old(ending)
    {
      k := made;
      made := made + 1;
      if inputBuffer != [] {
        answers := answers[k := if inputBuffer[0].Val? then Got(inputBuffer[0].value) else Failed(inputBuffer[0].error)];
        inputBuffer := inputBuffer[1..];
      } else if done {
        answers := answers[k := Finished];
      } else {
        outputBuffer := outputBuffer + [k];
      }
    }

    /** End the stream, settling every pending read, and call the end hook unless it has been called. */
    method End(error: Option<nat>)
      requires Answering()
      modifies this
      ensures Valid() && puts == old(puts) && made == old(made) && done
      ensures ending == if old(done) then old(ending) else Some(Ending(made, error))
      ensures forall k | k in old(answers) :: k in answers && answers[k] == old(answers)[k]
    {
      if !done {
        done := true;
        ghost var was := answers;
        var i := 0;
        while i < |outputBuffer|
          modifies `answers
          invariant 0 <= i <= |outputBuffer|
          invariant forall k :: k in answers <==> k in was || (|puts| <= k < |puts| + i)
          invariant forall k | k in was :: answers[k] == was[k]
          invariant forall k | |puts| <= k < |puts| + i :: k in answers && answers[k] == (if error.Some? then Failed(error.value) else Finished)
        {
          answers := answers[outputBuffer[i] := if error.Some? then Failed(error.value) else Finished];
          i := i + 1;
        }
        outputBuffer := [];
        ending := Some(Ending(made, error));
      }
      if hookSet {
        hookSet := false;
        hookRuns := hookRuns + 1;
      }
    }

    /** Take in what the transport hands over: a value, or an end, or something that ends the stream with an error. */
    method ReceiveInput(input: Input<V>)
      requires Valid()
      modifies this
      ensures Valid() && made == old(made)
      ensures old(done) ==> puts == old(puts) && ending == old(ending)
      ensures !old(done) && input.Data? && input.valid ==> puts == old(puts) + [Val(input.value)] && ending == None
      ensures !old(done) && input.DoneSignal? ==> puts == old(puts) && ending == Some(Ending(made, None))
      ensures !old(done) && (input.ErrorSignal? || input.MalformedSignal? || (input.Data? && !input.valid)) ==>
                var error := if input.ErrorSignal? then input.error else INVALID_INPUT;
                && ending == Some(Ending(made, Some(error)))
                && puts == old(puts) + if |old(puts)| < made then [] else [Entry.Err(error)]
    {
      var error := ErrorOf(input);
      if error.Some? {
        if outputBuffer == [] { Put(Entry.Err(error.value)); }
        End(error);
      } else if input.DoneSignal? {
        End(None);
      } else {
        Put(Val(input.value));
      }
    }
  }

  /**
   * An error received when reads are waiting rejects every one of them; received when none is, it is the
   * answer to exactly one read, the first after the values that were put. Either way every later read is told
   * that the stream is finished, and every earlier one has its value.
   */
  lemma ErrorSurfaces<V>(puts: seq<Entry<V>>, made: nat, error: nat, k: nat)
    requires forall i | 0 <= i < |puts| :: puts[i].Val?
    ensures var after := puts + if |puts| < made then [] else [Entry.Err(error)];
            AnswerTo(after, Some(Ending(made, Some(error))), k)
            == Some(if k < |puts| then Got(puts[k].value)
                    else if k < made || (made <= |puts| && k == |puts|) then Failed(error)
                    else Finished)
  {
  }

  // ------------------------------------------------------------------ splitting

  /** What a predicate does with a value. */
  datatype Verdict = Takes | Passes | Throws(error: nat)

  /** The first predicate that does not pass a value over, or their number if all do. */
  function FirstMatch<V>(predicates: seq<V -> Verdict>, v: V): (i: nat)
    ensures i <= |predicates|
    ensures i < |predicates| ==> !predicates[i](v).Passes?
    ensures forall j | 0 <= j < i :: predicates[j](v).Passes?
  {
    if predicates == [] || !predicates[0](v).Passes? then 0 else 1 + FirstMatch(predicates[1..], v)
  }

  /** Why a value goes to no split: every predicate passes it over, or the first that does not throws. */
  function Refusal<V>(predicates: seq<V -> Verdict>, v: V): Option<nat> {
    var i := FirstMatch(predicates, v);
    if i == |predicates| then Some(INVALID_INPUT)
    else match predicates[i](v)
         case Throws(error) => Some(error)
         case _ => None
  }

  /** A value goes to the split that takes it after all before it have passed; else some predicate throws, or all pass. */
  lemma RefusalMeans<V>(predicates: seq<V -> Verdict>, v: V)
    ensures Refusal(predicates, v).None? <==>
              exists i | 0 <= i < |predicates| :: predicates[i](v).Takes? && forall j | 0 <= j < i :: predicates[j](v).Passes?
    ensures (forall i | 0 <= i < |predicates| :: predicates[i](v).Passes?) ==> Refusal(predicates, v) == Some(INVALID_INPUT)
    ensures forall i | 0 <= i < |predicates| && predicates[i](v).Throws? && (forall j | 0 <= j < i :: predicates[j](v).Passes?) ::
              Refusal(predicates, v) == Some(predicates[i](v).error)
  {
    hide FirstMatch;
    forall i | 0 <= i < |predicates| && predicates[i](v).Throws? && (forall j | 0 <= j < i :: predicates[j](v).Passes?)
      ensures Refusal(predicates, v) == Some(predicates[i](v).error)
    {
      FirstFound(predicates, v, i);
    }
    if i :| 0 <= i < |predicates| && predicates[i](v).Takes? && forall j | 0 <= j < i :: predicates[j](v).Passes? { FirstFound(predicates, v, i); }
  }

  /** The values a split is to receive: those whose first match is its predicate, in order, up to one that goes to none. */
  function Share<V>(values: seq<V>, predicates: seq<V -> Verdict>, i: nat): seq<V> {
    if values == [] then []
    else if Refusal(predicates, values[0]).Some? then []
    else if FirstMatch(predicates, values[0]) == i then [values[0]] + Share(values[1..], predicates, i)
    else Share(values[1..], predicates, i)
  }

  /** How many of the values go to some split before one that goes to none. */
  function Matched<V>(values: seq<V>, predicates: seq<V -> Verdict>): (n: nat)
    ensures n <= |values|
    ensures forall j | 0 <= j < n :: Refusal(predicates, values[j]).None?
    ensures n < |values| ==> Refusal(predicates, values[n]).Some?
  {
    if values == [] || Refusal(predicates, values[0]).Some? then 0 else 1 + Matched(values[1..], predicates)
  }

  /** A split's consumer ends it, with an error or none, once so many of the parent's values have been forwarded. */
  datatype Quit = Quit(forwarded: nat, error: Option<nat>)

  /** The values forwarded while a split is still listening: all of them, unless its consumer ends it. */
  function Heard<V>(parent: seq<V>, quit: Option<Quit>): seq<V> {
    if quit.Some? && quit.value.forwarded < |parent| then parent[..quit.value.forwarded] else parent
  }

  function From<V>(values: seq<V>, n: nat): seq<V> {
    if n <= |values| then values[n..] else []
  }

  /** What a split has received, and what is still to come for it, make up its share. */
  ghost predicate SharedOut<V>(received: seq<seq<V>>, parent: seq<V>, n: nat, quits: seq<Option<Quit>>, predicates: seq<V -> Verdict>) {
    |received| == |predicates| == |quits|
    && forall i | 0 <= i < |predicates| ::
         Share(Heard(parent, quits[i]), predicates, i) == received[i] + Share(From(Heard(parent, quits[i]), n), predicates, i)
  }

  predicate Listens(quit: Option<Quit>, n: nat) {
    quit.None? || n < quit.value.forwarded
  }

  /** One value more: it goes to the split it matches, if that still listens. */
  lemma ForwardOne<V>(values: seq<V>, had: seq<V>, n: nat, predicates: seq<V -> Verdict>, i: nat)
    requires Share(values, predicates, i) == had + Share(From(values, n), predicates, i)
    requires n < |values|
    ensures Refusal(predicates, values[n]).Some? ==> Share(values, predicates, i) == had
    ensures Refusal(predicates, values[n]).None? ==>
              Share(values, predicates, i)
              == (if FirstMatch(predicates, values[n]) == i then had + [values[n]] else had) + Share(From(values, n + 1), predicates, i)
  {
    assert values[n..][0] == values[n] && values[n..][1..] == values[n + 1..];
  }

  lemma ShareOne<V>(received: seq<seq<V>>, parent: seq<V>, n: nat, quits: seq<Option<Quit>>, predicates: seq<V -> Verdict>)
    requires n < |parent| && SharedOut(received, parent, n, quits, predicates)
    ensures var m := FirstMatch(predicates, parent[n]);
            if Refusal(predicates, parent[n]).Some? then
              forall i | 0 <= i < |predicates| :: Share(Heard(parent, quits[i]), predicates, i) == received[i]
            else
              SharedOut(if Listens(quits[m], n) then received[m := received[m] + [parent[n]]] else received, parent, n + 1, quits, predicates)
  {
    hide Share, FirstMatch, Refusal, Heard;
    RefusedAtMost(predicates, parent[n]);
    var m := FirstMatch(predicates, parent[n]);
    var more := if m < |predicates| && Listens(quits[m], n) then received[m := received[m] + [parent[n]]] else received;
    forall i | 0 <= i < |predicates|
      ensures Refusal(predicates, parent[n]).Some? ==> Share(Heard(parent, quits[i]), predicates, i) == received[i]
      ensures Refusal(predicates, parent[n]).None? ==>
                Share(Heard(parent, quits[i]), predicates, i) == more[i] + Share(From(Heard(parent, quits[i]), n + 1), predicates, i)
    {
      ShareWith(received[i], parent, n, quits[i], predicates, i);
    }
  }

  /** What one value more makes of one split's share. */
  lemma ShareWith<V>(had: seq<V>, parent: seq<V>, n: nat, quit: Option<Quit>, predicates: seq<V -> Verdict>, i: nat)
    requires n < |parent| && Share(Heard(parent, quit), predicates, i) == had + Share(From(Heard(parent, quit), n), predicates, i)
    ensures Refusal(predicates, parent[n]).Some? ==> Share(Heard(parent, quit), predicates, i) == had
    ensures Refusal(predicates, parent[n]).None? ==>
              Share(Heard(parent, quit), predicates, i)
              == (if FirstMatch(predicates, parent[n]) == i && Listens(quit, n) then had + [parent[n]] else had)
                 + Share(From(Heard(parent, quit), n + 1), predicates, i)
  {
    hide Share, FirstMatch, Refusal;
    var heard := Heard(parent, quit);
    if n < |heard| {
      assert heard[n] == parent[n];
      ForwardOne(heard, had, n, predicates, i);
    } else {
      assert From(heard, n) == [] && From(heard, n + 1) == [];
      NothingShared(predicates, i);
    }
  }

  lemma NothingShared<V>(predicates: seq<V -> Verdict>, i: nat)
    ensures Share([], predicates, i) == []
  {
  }

  lemma RefusedAtMost<V>(predicates: seq<V -> Verdict>, v: V)
    ensures Refusal(predicates, v).None? ==> FirstMatch(predicates, v) < |predicates|
  {
  }

  method FindSplit<V>(predicates: seq<V -> Verdict>, v: V) returns (i: nat)
    ensures i == FirstMatch(predicates, v)
  {
    i := 0;
    while i < |predicates| && predicates[i](v).Passes?
      invariant 0 <= i <= |predicates| && forall j | 0 <= j < i :: predicates[j](v).Passes?
    {
      i := i + 1;
    }
    FirstFound(predicates, v, i);
  }

  /** How a split ends: as its consumer had it, or as they all do, with the parent's error or that of a value refused. */
  function SplitEnd<V>(parent: seq<V>, parentError: Option<nat>, predicates: seq<V -> Verdict>, quit: Option<Quit>): Option<nat> {
    var n := Matched(parent, predicates);
    if quit.Some? && quit.value.forwarded <= n then quit.value.error
    else if n < |parent| then Refusal(predicates, parent[n])
    else parentError
  }

  /**
   * Feed each value of the parent to the first split whose predicate it matches, and then end every split:
   * with the parent's error, or with that of a value that matches none or of a predicate that throws. A split its
   * consumer has ended takes nothing more; the parent, which that ends, yields what it still holds to the others.
   */
  method Split<V>(parent: seq<V>, parentError: Option<nat>, predicates: seq<V -> Verdict>, quits: seq<Option<Quit>>)
      returns (received: seq<seq<V>>, errors: seq<Option<nat>>)
    requires |quits| == |predicates|
    ensures |received| == |predicates| == |errors|
    ensures forall i | 0 <= i < |predicates| :: received[i] == Share(Heard(parent, quits[i]), predicates, i)
    ensures forall i | 0 <= i < |predicates| :: errors[i] == SplitEnd(parent, parentError, predicates, quits[i])
  {
    hide SharedOut, Share, FirstMatch, Refusal, Heard;
    received := seq(|predicates|, i => []);
    var error := parentError;
    NothingSharedYet(received, parent, quits, predicates);
    assert parent[0..] == parent;
    var n := 0;
    while n < |parent|
      invariant 0 <= n <= |parent| && |received| == |predicates| && error == parentError
      invariant Matched(parent, predicates) == n + Matched(parent[n..], predicates)
      invariant SharedOut(received, parent, n, quits, predicates)
    {
      var i := FindSplit(predicates, parent[n]);
      ShareOne(received, parent, n, quits, predicates);
      assert parent[n..][0] == parent[n] && parent[n..][1..] == parent[n + 1..];
      FoundRefusal(predicates, parent[n], i);
      if i == |predicates| { error := Some(INVALID_INPUT); break; }
      if predicates[i](parent[n]).Throws? { error := Some(predicates[i](parent[n]).error); break; }
      if Listens(quits[i], n) { received := received[i := received[i] + [parent[n]]]; }
      n := n + 1;
    }
    if n == |parent| { AllShared(received, parent, quits, predicates); }
    errors := EndSplits(parent, parentError, predicates, quits, n, error);
  }

  /** End the splits, each unless its consumer has. */
  method EndSplits<V>(parent: seq<V>, parentError: Option<nat>, predicates: seq<V -> Verdict>, quits: seq<Option<Quit>>, n: nat, error: Option<nat>)
      returns (errors: seq<Option<nat>>)
    requires n == Matched(parent, predicates)
    requires error == if n < |parent| then Refusal(predicates, parent[n]) else parentError
    ensures |errors| == |quits| && forall i | 0 <= i < |quits| :: errors[i] == SplitEnd(parent, parentError, predicates, quits[i])
  {
    errors := [];
    for i := 0 to |quits|
      invariant |errors| == i && forall k | 0 <= k < i :: errors[k] == SplitEnd(parent, parentError, predicates, quits[k])
    {
      errors := errors + [if quits[i].Some? && quits[i].value.forwarded <= n then quits[i].value.error else error];
    }
  }

  lemma NothingSharedYet<V>(received: seq<seq<V>>, parent: seq<V>, quits: seq<Option<Quit>>, predicates: seq<V -> Verdict>)
    requires |received| == |predicates| == |quits| && forall i | 0 <= i < |received| :: received[i] == []
    ensures SharedOut(received, parent, 0, quits, predicates)
  {
    forall i | 0 <= i < |predicates| ensures From(Heard(parent, quits[i]), 0) == Heard(parent, quits[i]) {}
  }

  lemma AllShared<V>(received: seq<seq<V>>, parent: seq<V>, quits: seq<Option<Quit>>, predicates: seq<V -> Verdict>)
    requires SharedOut(received, parent, |parent|, quits, predicates)
    ensures forall i | 0 <= i < |predicates| :: received[i] == Share(Heard(parent, quits[i]), predicates, i)
  {
    forall i | 0 <= i < |predicates| ensures From(Heard(parent, quits[i]), |parent|) == [] {}
  }

  /** A split that its consumer ends has received the beginning of its share. */
  lemma {:induction false} EndedSplitHasPrefix<V>(parent: seq<V>, quit: Option<Quit>, predicates: seq<V -> Verdict>, i: nat)
    ensures Share(Heard(parent, quit), predicates, i) <= Share(parent, predicates, i)
    decreases |parent|
  {
    if quit.Some? && 0 < quit.value.forwarded < |parent| {
      var tail, sooner := parent[1..], Some(Quit(quit.value.forwarded - 1, quit.value.error));
      EndedSplitHasPrefix(tail, sooner, predicates, i);
      assert Heard(parent, quit)[0] == parent[0] && Heard(parent, quit)[1..] == Heard(tail, sooner);
    }
  }

  lemma FirstFound<V>(predicates: seq<V -> Verdict>, v: V, i: nat)
    requires i <= |predicates| && (i < |predicates| ==> !predicates[i](v).Passes?) && forall j | 0 <= j < i :: predicates[j](v).Passes?
    ensures FirstMatch(predicates, v) == i
  {
    var k := FirstMatch(predicates, v);
    if k < |predicates| { assert !predicates[k](v).Passes?; }
  }

  lemma FoundRefusal<V>(predicates: seq<V -> Verdict>, v: V, i: nat)
    requires i == FirstMatch(predicates, v)
    ensures Refusal(predicates, v) ==
            if i == |predicates| then Some(INVALID_INPUT)
            else if predicates[i](v).Throws? then Some(predicates[i](v).error) else None
  {
  }

  /** Where a matched value lands: after those before it that go to the same split, and in no other. */
  lemma {:induction false} EachValueOnce<V>(values: seq<V>, predicates: seq<V -> Verdict>, n: nat, i: nat)
    requires n < Matched(values, predicates)
    ensures var before := Share(values[..n], predicates, i);
            if FirstMatch(predicates, values[n]) == i
            then |before| < |Share(values, predicates, i)| && Share(values, predicates, i)[|before|] == values[n]
                 && Share(values[..n + 1], predicates, i) == before + [values[n]]
            else Share(values[..n + 1], predicates, i) == before
    decreases n
  {
    if n == 0 {
      assert values[..0] == [] && values[..1] == [values[0]] && [values[0]][1..] == [];
    } else {
      EachValueOnce(values[1..], predicates, n - 1, i);
      assert values[..n][1..] == values[1..][..n - 1] && values[..n + 1][1..] == values[1..][..n];
    }
  }
}
