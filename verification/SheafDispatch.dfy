/**
 * Dispatching a call among the sections that cover it, and letting a policy try candidates in turn
 * (packages/sheaves/src/sheafify.ts, match.ts, metadata.ts).
 */
module SheafDispatch {
  import opened Prelude
  import opened Patterns
  import opened SheafGuards
  import opened SheafMetadata

  /** What a section or a policy throws. */
  datatype Error = Thrown(id: nat) | Unrecognized | NotARecord

  // ------------------------------------------------------------------ driving a policy

  /** What a policy does next: yields an offered candidate, or something that is none, or returns, or throws. */
  datatype Move = Yield(candidate: nat) | YieldForeign | Finish | Fault(e: Error)

  /** A policy's moves depend on the errors it has been shown; `closing` is what it throws when told to stop. */
  datatype Policy = Policy(next: (seq<Candidate>, Metadata, seq<Error>) -> Move, closing: Option<Error>)

  datatype Outcome =
    | Answer(v: Value)
    | NoSection
    | NoViable(errors: seq<Error>)
    | Failed(e: Error)
    | Unfinished

  /** The policy with its candidates and constraints given. */
  type Moves = seq<Error> -> Move

  /** What the n-th invocation returns or throws, by the section invoked. */
  type Calls = (nat, nat) -> Result<Value, Error>

  function Recognized(moves: Moves, errors: seq<Error>, offered: nat): Option<nat> {
    var move := moves(errors);
    if move.Yield? && move.candidate < offered then Some(move.candidate) else None
  }

  function Yields(moves: Moves, errors: seq<Error>): bool {
    moves(errors).Yield? || moves(errors).YieldForeign?
  }

  /** The attempts so far all failed: each error is that of the candidate yielded on seeing the errors before it. */
  predicate History(moves: Moves, calls: Calls, sections: seq<nat>, errors: seq<Error>, invoked: seq<nat>)
    decreases |errors|
  {
    if errors == [] then invoked == []
    else
      var before, last := errors[..|errors| - 1], errors[|errors| - 1];
      && Yields(moves, before)
      && match Recognized(moves, before, |sections|)
         case None => last == Unrecognized && History(moves, calls, sections, before, invoked)
         case Some(c) =>
           && invoked != []
           && invoked[|invoked| - 1] == sections[c]
           && calls(sections[c], |invoked| - 1) == Err(last)
           && History(moves, calls, sections, before, invoked[..|invoked| - 1])
  }

  /** The policy's next candidate answers, after the given failures. */
  predicate Answers(moves: Moves, calls: Calls, sections: seq<nat>, errors: seq<Error>, invoked: seq<nat>, v: Value) {
    && invoked != []
    && var before := invoked[..|invoked| - 1];
       && History(moves, calls, sections, errors, before)
       && Recognized(moves, errors, |sections|).Some?
       && invoked[|invoked| - 1] == sections[Recognized(moves, errors, |sections|).value]
       && calls(invoked[|invoked| - 1], |before|) == Ok(v)
  }

  /** How driving a policy may end, with the errors it was last shown. */
  ghost predicate Ended(moves: Moves, closing: Option<Error>, calls: Calls, sections: seq<nat>, errors: seq<Error>, invoked: seq<nat>, outcome: Outcome) {
    match outcome
    case Answer(v) => closing.None? && Answers(moves, calls, sections, errors, invoked, v)
    case NoViable(all) =>
      || (all == errors && moves(errors).Finish? && History(moves, calls, sections, errors, invoked))
      || (closing.Some? && all == errors + [closing.value] && exists v :: Answers(moves, calls, sections, errors, invoked, v))
    case Failed(e) => moves(errors) == Fault(e) && History(moves, calls, sections, errors, invoked)
    case Unfinished => History(moves, calls, sections, errors, invoked)
    case NoSection => false
  }

  /**
   * Tries the candidates a policy yields until one answers. `patience` bounds the attempts; it is reached only
   * by a policy that keeps yielding. A policy that throws on being closed has returned for good: the answer it
   * was closed over is reported as a failure, and no other section is invoked.
   */
  method DrivePolicy(moves: Moves, closing: Option<Error>, calls: Calls, sections: seq<nat>, patience: nat)
      returns (outcome: Outcome, errors: seq<Error>, invoked: seq<nat>)
    ensures Ended(moves, closing, calls, sections, errors, invoked, outcome)
    ensures outcome.Unfinished? ==> |errors| == patience
  {
    errors, invoked := [], [];
    while |errors| < patience
      invariant |errors| <= patience && History(moves, calls, sections, errors, invoked)
    {
      ghost var before, had := errors, invoked;
      match moves(errors)
      case Finish => return NoViable(errors), errors, invoked;
      case Fault(e) => return Failed(e), errors, invoked;
      case YieldForeign => errors := errors + [Unrecognized];
      case Yield(c) =>
        if c >= |sections| {
          errors := errors + [Unrecognized];
        } else {
          invoked := invoked + [sections[c]];
          assert invoked[..|invoked| - 1] == had;
          match calls(sections[c], |invoked| - 1)
          case Ok(v) =>
            assert Answers(moves, calls, sections, errors, invoked, v);
            return if closing.None? then Answer(v) else NoViable(errors + [closing.value]), errors, invoked;
          case Err(e) => errors := errors + [e];
        }
      assert errors[..|errors| - 1] == before;
    }
    outcome := Unfinished;
  }

  lemma {:induction false} EarlierAllFailed(moves: Moves, calls: Calls, sections: seq<nat>, errors: seq<Error>, invoked: seq<nat>, k: nat)
    requires History(moves, calls, sections, errors, invoked) && k < |invoked|
    ensures invoked[k] in sections && calls(invoked[k], k).Err? && calls(invoked[k], k).error in errors
    decreases |errors|
  {
    if errors != [] {
      var before := errors[..|errors| - 1];
      if Recognized(moves, before, |sections|).None? {
        EarlierAllFailed(moves, calls, sections, before, invoked, k);
      } else if k < |invoked| - 1 {
        EarlierAllFailed(moves, calls, sections, before, invoked[..|invoked| - 1], k);
      }
    }
  }

  /**
   * At most one invocation answers, and it is the last; the caller is told its answer unless closing the policy
   * throws, and is told a failure after an answer only then.
   */
  lemma FirstAnswerWins(moves: Moves, closing: Option<Error>, calls: Calls, sections: seq<nat>, errors: seq<Error>, invoked: seq<nat>, outcome: Outcome)
    requires Ended(moves, closing, calls, sections, errors, invoked, outcome)
    ensures forall k | 0 <= k < |invoked| && calls(invoked[k], k).Ok? :: k == |invoked| - 1
    ensures forall k | 0 <= k < |invoked| && calls(invoked[k], k).Ok? && closing.None? :: outcome == Answer(calls(invoked[k], k).value)
    ensures forall v | outcome == Answer(v) :: invoked != [] && calls(invoked[|invoked| - 1], |invoked| - 1) == Ok(v)
    ensures (exists k | 0 <= k < |invoked| :: calls(invoked[k], k).Ok?) && !outcome.Answer? ==> closing.Some? && outcome.NoViable?
    ensures closing.Some? ==> !outcome.Answer?
    ensures forall k | 0 <= k < |invoked| :: invoked[k] in sections
  {
    if History(moves, calls, sections, errors, invoked) {
      forall k | 0 <= k < |invoked| ensures calls(invoked[k], k).Err? && invoked[k] in sections {
        EarlierAllFailed(moves, calls, sections, errors, invoked, k);
      }
    }
    if v :| Answers(moves, calls, sections, errors, invoked, v) {
      var before := invoked[..|invoked| - 1];
      forall k | 0 <= k < |before| ensures calls(invoked[k], k).Err? && invoked[k] in sections {
        EarlierAllFailed(moves, calls, sections, errors, before, k);
      }
    }
  }

  /** A policy that yields its first candidate, whatever it is shown. */
  function AlwaysFirst(): Moves {
    errors => Yield(0)
  }

  function AlwaysAnswers(v: Value): Calls {
    (section, n) => Ok(v)
  }

  /** Such a policy that throws on being closed loses its section's answer: the caller is told no candidate was viable. */
  lemma AnswerIsLost(v: Value, id: nat, errors: seq<Error>, invoked: seq<nat>, outcome: Outcome)
    requires Ended(AlwaysFirst(), Some(Thrown(id)), AlwaysAnswers(v), [0], errors, invoked, outcome) && !outcome.Unfinished?
    ensures outcome == NoViable([Thrown(id)]) && invoked == [0]
  {
    if w :| Answers(AlwaysFirst(), AlwaysAnswers(v), [0], errors, invoked, w) {
      NothingFails(v, errors, invoked[..|invoked| - 1]);
      assert invoked == invoked[..|invoked| - 1] + [0];
    }
  }

  lemma NothingFails(v: Value, errors: seq<Error>, invoked: seq<nat>)
    requires History(AlwaysFirst(), AlwaysAnswers(v), [0], errors, invoked)
    ensures errors == [] && invoked == []
  {
  }

  /** A policy that is let run out is told every failure, in order. */
  lemma {:induction false} EveryFailureShown(moves: Moves, calls: Calls, sections: seq<nat>, errors: seq<Error>, invoked: seq<nat>, k: nat)
    requires History(moves, calls, sections, errors, invoked) && k < |errors|
    ensures moves(errors[..k]).Yield? || moves(errors[..k]).YieldForeign?
    ensures moves(errors[..k]).YieldForeign? || moves(errors[..k]).candidate >= |sections| ==> errors[k] == Unrecognized
    ensures moves(errors[..k]).Yield? && moves(errors[..k]).candidate < |sections| ==>
              exists n :: 0 <= n < |invoked| && invoked[n] == sections[moves(errors[..k]).candidate] && calls(invoked[n], n) == Err(errors[k])
    decreases |errors|
  {
    var before := errors[..|errors| - 1];
    var earlier := if Recognized(moves, before, |sections|).None? then invoked else invoked[..|invoked| - 1];
    if k < |before| {
      EveryFailureShown(moves, calls, sections, before, earlier, k);
      assert before[..k] == errors[..k];
      if c :| Recognized(moves, errors[..k], |sections|) == Some(c) {
        var n :| 0 <= n < |earlier| && earlier[n] == sections[c] && calls(earlier[n], n) == Err(errors[k]);
        assert invoked[n] == earlier[n];
      }
    } else {
      assert errors[..k] == before;
    }
  }

  // ------------------------------------------------------------------ evaluating metadata

  /** What a metadata specification produces. */
  datatype Raw = Nothing | Primitive | Array | Exotic | Plain(m: Metadata) | Throws(e: Error)

  datatype Provider = Provider(guard: Option<InterfaceGuard>, spec: Option<seq<Value> -> Raw>)

  function EvaluateMetadata(p: Provider, args: seq<Value>): Result<Metadata, Error> {
    if p.spec.None? then Ok([])
    else
      match p.spec.value(args)
      case Nothing => Ok([])
      case Plain(m) => Ok(m)
      case Throws(e) => Err(e)
      case _ => Err(NotARecord)
  }

  /** The record a provider's specification produces for the call, or none at all. */
  predicate Describes(p: Provider, args: seq<Value>, m: Metadata) {
    if p.spec.None? || p.spec.value(args).Nothing? then m == [] else p.spec.value(args) == Plain(m)
  }

  /** The specification throws, or produces something that is no plain record. */
  predicate Misdescribes(p: Provider, args: seq<Value>, e: Error) {
    p.spec.Some? &&
    match p.spec.value(args)
    case Throws(thrown) => e == thrown
    case Nothing => false
    case Plain(_) => false
    case _ => e == NotARecord
  }

  lemma EvaluatesExactly(p: Provider, args: seq<Value>)
    ensures forall m: Metadata :: EvaluateMetadata(p, args) == Ok(m) <==> Describes(p, args, m)
    ensures forall e: Error :: EvaluateMetadata(p, args) == Err(e) <==> Misdescribes(p, args, e)
  {
  }

  // ------------------------------------------------------------------ dispatch

  predicate ProviderCovers(u: bool, p: Provider, name: string, args: seq<Value>) {
    p.guard.Some? && name in p.guard.value.methods && Covers(u, p.guard.value.methods[name], args)
  }

  /** The positions of the providers that cover the call, ascending and without omission. */
  ghost predicate AreMatching(u: bool, ps: seq<Provider>, name: string, args: seq<Value>, ms: seq<nat>) {
    && (forall i | 0 <= i < |ms| :: ms[i] < |ps| && ProviderCovers(u, ps[ms[i]], name, args))
    && (forall i, j | 0 <= i < j < |ms| :: ms[i] < ms[j])
    && (forall i | 0 <= i < |ps| && ProviderCovers(u, ps[i], name, args) :: i in ms)
  }

  method GetMatchingProviders(u: bool, ps: seq<Provider>, name: string, args: seq<Value>) returns (ms: seq<nat>)
    ensures AreMatching(u, ps, name, args, ms)
  {
    ms := [];
    for i := 0 to |ps|
      invariant forall k | 0 <= k < |ms| :: ms[k] < i && ProviderCovers(u, ps[ms[k]], name, args)
      invariant forall k, l | 0 <= k < l < |ms| :: ms[k] < ms[l]
      invariant forall k | 0 <= k < i && ProviderCovers(u, ps[k], name, args) :: k in ms
    {
      if ps[i].guard.Some? {
        var covers := GuardCoversPoint(u, ps[i].guard.value, name, args);
        if covers { ms := ms + [i]; }
      }
    }
  }

  /** The candidates of the matching providers, each with its metadata evaluated. */
  ghost predicate AreCandidates(ps: seq<Provider>, args: seq<Value>, ms: seq<nat>, cs: seq<Candidate>) {
    && |cs| == |ms|
    && forall i | 0 <= i < |ms| :: ms[i] < |ps| && cs[i].exo == ms[i] && Describes(ps[ms[i]], args, cs[i].metadata)
  }

  method Evaluate(ps: seq<Provider>, args: seq<Value>, ms: seq<nat>) returns (r: Result<seq<Candidate>, Error>)
    requires forall i | 0 <= i < |ms| :: ms[i] < |ps|
    ensures r.Ok? ==> AreCandidates(ps, args, ms, r.value)
    ensures r.Err? ==> exists i :: 0 <= i < |ms| && Misdescribes(ps[ms[i]], args, r.error)
  {
    var cs := [];
    for i := 0 to |ms|
      invariant AreCandidates(ps, args, ms[..i], cs)
    {
      EvaluatesExactly(ps[ms[i]], args);
      match EvaluateMetadata(ps[ms[i]], args)
      case Err(e) => return Err(e);
      case Ok(m) => cs := cs + [Candidate(ms[i], m)];
    }
    assert ms[..|ms|] == ms;
    r := Ok(cs);
  }

  function Exos(cs: seq<Candidate>): (exos: seq<nat>)
    ensures |exos| == |cs| && forall i | 0 <= i < |cs| :: exos[i] == cs[i].exo
  {
    seq(|cs|, i requires 0 <= i < |cs| => cs[i].exo)
  }

  datatype Setting = Setting(text: nat -> string, leq: (string, string) -> bool, policy: Policy, calls: Calls, patience: nat)

  function Direct(s: Setting, exo: nat): Outcome {
    match s.calls(exo, 0)
    case Ok(v) => Answer(v)
    case Err(e) => Failed(e)
  }

  /** The policy's moves once it has been given what distinguishes the representatives and what they share. */
  function MovesOn(s: Setting, reps: seq<Candidate>): Moves {
    (errors: seq<Error>) => s.policy.next(Stripped(reps), Constraints(reps), errors)
  }

  /** How a call is answered, given its candidates. */
  ghost predicate Dispatched(s: Setting, cs: seq<Candidate>, outcome: Outcome, invoked: seq<nat>) {
    var reps := Firsts(s.text, s.leq, cs);
    if cs == [] then outcome == NoSection && invoked == []
    else if |reps| == 1 then invoked == [reps[0].exo] && outcome == Direct(s, reps[0].exo)
    else exists errors :: Ended(MovesOn(s, reps), s.policy.closing, s.calls, Exos(reps), errors, invoked, outcome)
  }

  method Among(s: Setting, cs: seq<Candidate>) returns (outcome: Outcome, invoked: seq<nat>)
    ensures Dispatched(s, cs, outcome, invoked)
  {
    if cs == [] { return NoSection, []; }
    if |cs| == 1 {
      assert cs[..0] == [] && Firsts(s.text, s.leq, cs) == cs;
      return Direct(s, cs[0].exo), [cs[0].exo];
    }
    var reps := CollapseEquivalent(s.text, s.leq, cs);
    if |reps| == 1 { return Direct(s, reps[0].exo), [reps[0].exo]; }
    var constraints, stripped := DecomposeMetadata(reps);
    var moves := MovesOn(s, reps);
    var errors;
    outcome, errors, invoked := DrivePolicy(moves, s.policy.closing, s.calls, Exos(reps), s.patience);
  }

  /** A section that covers the call is invoked, or none is; metadata that cannot be had fails the call beforehand. */
  method Dispatch(u: bool, s: Setting, ps: seq<Provider>, name: string, args: seq<Value>) returns (outcome: Outcome, invoked: seq<nat>, ms: seq<nat>)
    ensures AreMatching(u, ps, name, args, ms)
    ensures forall i | 0 <= i < |invoked| :: invoked[i] in ms
    ensures (exists cs :: AreCandidates(ps, args, ms, cs) && Dispatched(s, cs, outcome, invoked))
         || (outcome.Failed? && invoked == [] && exists i :: 0 <= i < |ms| && Misdescribes(ps[ms[i]], args, outcome.e))
  {
    ms := GetMatchingProviders(u, ps, name, args);
    var evaluated := Evaluate(ps, args, ms);
    if evaluated.Err? { return Failed(evaluated.error), [], ms; }
    outcome, invoked := Among(s, evaluated.value);
    InvokedAreCandidates(s, evaluated.value, outcome, invoked);
  }

  /** Only candidates' sections are invoked. */
  lemma InvokedAreCandidates(s: Setting, cs: seq<Candidate>, outcome: Outcome, invoked: seq<nat>)
    requires Dispatched(s, cs, outcome, invoked)
    ensures forall i | 0 <= i < |invoked| :: exists k :: 0 <= k < |cs| && cs[k].exo == invoked[i]
  {
    var reps := Firsts(s.text, s.leq, cs);
    FirstsCome(s.text, s.leq, cs);
    if |reps| == 1 {
      assert reps[0] in cs;
    } else if cs != [] {
      var errors :| Ended(MovesOn(s, reps), s.policy.closing, s.calls, Exos(reps), errors, invoked, outcome);
      FirstAnswerWins(MovesOn(s, reps), s.policy.closing, s.calls, Exos(reps), errors, invoked, outcome);
      forall i | 0 <= i < |invoked| ensures exists k :: 0 <= k < |cs| && cs[k].exo == invoked[i] {
        var r :| 0 <= r < |reps| && Exos(reps)[r] == invoked[i];
        assert reps[r] in cs;
      }
    }
  }

  /** With no candidate nothing is invoked; one alone, or several alike, is invoked once, and its answer or error is the caller's. */
  lemma SoleCandidateAnswers(s: Setting, cs: seq<Candidate>, outcome: Outcome, invoked: seq<nat>)
    requires Dispatched(s, cs, outcome, invoked)
    ensures cs == [] ==> outcome == NoSection && invoked == []
    ensures |Firsts(s.text, s.leq, cs)| == 1 ==>
              var exo := Firsts(s.text, s.leq, cs)[0].exo;
              invoked == [exo] && match s.calls(exo, 0) case Ok(v) => outcome == Answer(v) case Err(e) => outcome == Failed(e)
  {
    if cs == [] { assert Firsts(s.text, s.leq, cs) == []; }
  }

  /**
   * With several candidates apart, the policy is asked: shown what tells them apart and what they share, it yields the
   * first to be invoked, or ends the call itself.
   */
  lemma PolicyChooses(s: Setting, cs: seq<Candidate>, outcome: Outcome, invoked: seq<nat>)
    requires Dispatched(s, cs, outcome, invoked) && |Firsts(s.text, s.leq, cs)| > 1 && !outcome.Unfinished?
    ensures var reps := Firsts(s.text, s.leq, cs);
            match s.policy.next(Stripped(reps), Constraints(reps), [])
            case Finish => outcome == NoViable([]) && invoked == []
            case Fault(e) => outcome == Failed(e) && invoked == []
            case Yield(c) => c < |reps| ==> invoked != [] && invoked[0] == reps[c].exo
            case YieldForeign => true
  {
    var reps := Firsts(s.text, s.leq, cs);
    var moves := MovesOn(s, reps);
    var errors :| Ended(moves, s.policy.closing, s.calls, Exos(reps), errors, invoked, outcome);
    if History(moves, s.calls, Exos(reps), errors, invoked) { FirstMove(moves, s.calls, Exos(reps), errors, invoked); }
    if v :| Answers(moves, s.calls, Exos(reps), errors, invoked, v) {
      var before := invoked[..|invoked| - 1];
      FirstMove(moves, s.calls, Exos(reps), errors, before);
      if before != [] { assert invoked[0] == before[0]; }
    }
  }

  /** What a history of failures says of the first move. */
  lemma {:induction false} FirstMove(moves: Moves, calls: Calls, sections: seq<nat>, errors: seq<Error>, invoked: seq<nat>)
    requires History(moves, calls, sections, errors, invoked)
    ensures errors == [] ==> invoked == []
    ensures errors != [] ==> moves([]).Yield? || moves([]).YieldForeign?
    ensures errors != [] && moves([]).Yield? && moves([]).candidate < |sections| ==> invoked != [] && invoked[0] == sections[moves([]).candidate]
    decreases |errors|
  {
    if |errors| > 0 {
      var before := errors[..|errors| - 1];
      var earlier := if Recognized(moves, before, |sections|).None? then invoked else invoked[..|invoked| - 1];
      FirstMove(moves, calls, sections, before, earlier);
      if before == [] { assert earlier == []; } else if earlier != [] { assert invoked[0] == earlier[0]; }
    }
  }

  /** The caller's answer is one the last section invoked gave, and no section is invoked after one has answered. */
  lemma AnswerIsTheLastCalls(s: Setting, cs: seq<Candidate>, outcome: Outcome, invoked: seq<nat>)
    requires Dispatched(s, cs, outcome, invoked)
    ensures forall k | 0 <= k < |invoked| && s.calls(invoked[k], k).Ok? :: k == |invoked| - 1
    ensures forall v | outcome == Answer(v) :: invoked != [] && s.calls(invoked[|invoked| - 1], |invoked| - 1) == Ok(v)
    ensures s.policy.closing.None? ==> forall k | 0 <= k < |invoked| && s.calls(invoked[k], k).Ok? :: outcome == Answer(s.calls(invoked[k], k).value)
  {
    var reps := Firsts(s.text, s.leq, cs);
    if cs != [] && |reps| != 1 {
      var errors :| Ended(MovesOn(s, reps), s.policy.closing, s.calls, Exos(reps), errors, invoked, outcome);
      FirstAnswerWins(MovesOn(s, reps), s.policy.closing, s.calls, Exos(reps), errors, invoked, outcome);
    }
  }
}
