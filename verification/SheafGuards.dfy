/**
 * The union guard of a sheaf and the sections a call is dispatched to (packages/sheaves/src/guard.ts,
 * match.ts; packages/kernel-utils/src/guard-algebra.ts).
 */
module SheafGuards {
  import opened Prelude
  import opened Patterns

  // ------------------------------------------------------------------ covering a call

  /** The guard at an argument position: required, then optional, then the rest guard. */
  function GuardAt(g: MethodGuard, i: nat): Option<Pattern> {
    if i < |g.required| then Some(g.required[i])
    else if i - |g.required| < |g.optionals| then Some(g.optionals[i - |g.required|])
    else g.rest
  }

  function Fixed(g: MethodGuard): nat {
    |g.required| + |g.optionals|
  }

  /** A guard covers a call, each argument past the fixed positions being matched by the rest guard on its own. */
  predicate Covers(u: bool, g: MethodGuard, args: seq<Value>) {
    && |args| >= |g.required|
    && (g.rest.Some? || |args| <= Fixed(g))
    && (forall i | 0 <= i < |g.required| :: Matches(u, args[i], g.required[i]))
    && (forall i | |g.required| <= i < |args| && i < Fixed(g) :: Matches(u, args[i], g.optionals[i - |g.required|]))
    && (g.rest.Some? ==> forall i | Fixed(g) <= i < |args| :: Matches(u, args[i], g.rest.value))
  }

  /** Every argument has a guard at its position and matches it. */
  predicate EachMatches(u: bool, g: MethodGuard, args: seq<Value>) {
    forall i | 0 <= i < |args| :: GuardAt(g, i).Some? && Matches(u, args[i], GuardAt(g, i).value)
  }

  lemma CoversIsPositional(u: bool, g: MethodGuard, args: seq<Value>)
    ensures Covers(u, g, args) <==> |args| >= |g.required| && EachMatches(u, g, args)
  {
    hide Matches;
    if |args| >= |g.required| && EachMatches(u, g, args) {
      forall i | 0 <= i < |args|
        ensures i < |g.required| ==> Matches(u, args[i], g.required[i])
        ensures |g.required| <= i < Fixed(g) ==> Matches(u, args[i], g.optionals[i - |g.required|])
        ensures Fixed(g) <= i ==> g.rest.Some? && Matches(u, args[i], g.rest.value)
      {
        assert GuardAt(g, i).Some? && Matches(u, args[i], GuardAt(g, i).value);
      }
      if |args| > Fixed(g) { assert GuardAt(g, Fixed(g)).Some?; }
    }
  }

  /** The same, as it is computed: slices checked one after another. */
  method GuardCoversPoint(u: bool, guard: InterfaceGuard, name: string, args: seq<Value>) returns (covers: bool)
    ensures covers <==> name in guard.methods && Covers(u, guard.methods[name], args)
  {
    if name !in guard.methods { return false; }
    var g := guard.methods[name];
    if |args| < |g.required| || (g.rest.None? && |args| > Fixed(g)) { return false; }
    var i := 0;
    while i < |g.required|
      invariant 0 <= i <= |g.required| && forall j | 0 <= j < i :: Matches(u, args[j], g.required[j])
    {
      if !Matches(u, args[i], g.required[i]) { return false; }
      i := i + 1;
    }
    while i < |args| && i < Fixed(g)
      invariant |g.required| <= i && (i <= Fixed(g) || i == |g.required|) && i <= |args|
      invariant forall j | |g.required| <= j < i :: Matches(u, args[j], g.optionals[j - |g.required|])
    {
      if !Matches(u, args[i], g.optionals[i - |g.required|]) { return false; }
      i := i + 1;
    }
    if g.rest.Some? {
      var k := i;
      while i < |args|
        invariant k <= i <= |args| && forall j | k <= j < i :: Matches(u, args[j], g.rest.value)
      {
        if !Matches(u, args[i], g.rest.value) { return false; }
        i := i + 1;
      }
    }
    covers := true;
  }

  // ------------------------------------------------------------------ the union of several guards

  function UnionGuard(guards: seq<Pattern>): Pattern {
    if |guards| == 1 then guards[0] else Or(guards)
  }

  lemma UnionMatches(u: bool, v: Value, guards: seq<Pattern>, i: nat)
    requires i < |guards| && Matches(u, v, guards[i])
    ensures Matches(u, v, UnionGuard(guards))
  {
  }

  lemma UnionMatchesOneOf(u: bool, v: Value, guards: seq<Pattern>) returns (i: nat)
    requires Matches(u, v, UnionGuard(guards))
    ensures i < |guards| && Matches(u, v, guards[i])
  {
    if |guards| == 1 { i := 0; } else { i :| 0 <= i < |guards| && Matches(u, v, guards[i]); }
  }

  function MinRequired(ps: seq<MethodGuard>): (n: nat)
    requires ps != []
    ensures forall i | 0 <= i < |ps| :: n <= |ps[i].required|
    ensures exists i | 0 <= i < |ps| :: n == |ps[i].required|
  {
    if |ps| == 1 then assert |ps[0].required| == |ps[0].required|; |ps[0].required|
    else
      var m := MinRequired(ps[1..]);
      assert forall i | 0 < i < |ps| :: ps[i] == ps[1..][i - 1];
      if |ps[0].required| < m then |ps[0].required| else m
  }

  function MaxFixed(ps: seq<MethodGuard>): (n: nat)
    requires ps != []
    ensures forall i | 0 <= i < |ps| :: Fixed(ps[i]) <= n
    ensures exists i | 0 <= i < |ps| :: n == Fixed(ps[i])
  {
    if |ps| == 1 then assert Fixed(ps[0]) == Fixed(ps[0]); Fixed(ps[0])
    else
      var m := MaxFixed(ps[1..]);
      assert forall i | 0 < i < |ps| :: ps[i] == ps[1..][i - 1];
      if Fixed(ps[0]) > m then Fixed(ps[0]) else m
  }

  /** The guards the payloads have at a position. */
  function GuardsAt(ps: seq<MethodGuard>, i: nat): seq<Pattern> {
    if ps == [] then []
    else if GuardAt(ps[0], i).Some? then [GuardAt(ps[0], i).value] + GuardsAt(ps[1..], i)
    else GuardsAt(ps[1..], i)
  }

  function RestGuards(ps: seq<MethodGuard>): seq<Pattern> {
    if ps == [] then []
    else if ps[0].rest.Some? then [ps[0].rest.value] + RestGuards(ps[1..])
    else RestGuards(ps[1..])
  }

  function ResultsOf(ps: seq<MethodGuard>): seq<Pattern> {
    seq(|ps|, k requires 0 <= k < |ps| => ps[k].result)
  }

  function UnionsAt(ps: seq<MethodGuard>, from: nat, to: nat): (unions: seq<Pattern>)
    requires from <= to
    ensures |unions| == to - from && forall i | 0 <= i < |unions| :: unions[i] == UnionGuard(GuardsAt(ps, from + i))
  {
    seq(to - from, i requires 0 <= i < to - from => UnionGuard(GuardsAt(ps, from + i)))
  }

  lemma LeastUpToMost(ps: seq<MethodGuard>)
    requires ps != []
    ensures MinRequired(ps) <= MaxFixed(ps)
  {
    var k :| 0 <= k < |ps| && MinRequired(ps) == |ps[k].required|;
    assert Fixed(ps[k]) <= MaxFixed(ps);
  }

  /** The union of the methods' guards, position by position: what any of them requires is required only if all do. */
  function Collected(ps: seq<MethodGuard>): (g: MethodGuard)
    requires ps != []
    ensures |g.required| == MinRequired(ps) && Fixed(g) == MaxFixed(ps)
  {
    LeastUpToMost(ps);
    MethodGuard(
      UnionsAt(ps, 0, MinRequired(ps)),
      UnionsAt(ps, MinRequired(ps), MaxFixed(ps)),
      if RestGuards(ps) == [] then None else Some(UnionGuard(RestGuards(ps))),
      UnionGuard(ResultsOf(ps)))
  }

  lemma {:induction false} GuardIsAmong(ps: seq<MethodGuard>, k: nat, i: nat) returns (j: nat)
    requires k < |ps| && GuardAt(ps[k], i).Some?
    ensures j < |GuardsAt(ps, i)| && GuardsAt(ps, i)[j] == GuardAt(ps[k], i).value
  {
    if k == 0 {
      j := 0;
    } else {
      j := GuardIsAmong(ps[1..], k - 1, i);
      if GuardAt(ps[0], i).Some? { j := j + 1; }
    }
  }

  lemma {:induction false} RestIsAmong(ps: seq<MethodGuard>, k: nat) returns (j: nat)
    requires k < |ps| && ps[k].rest.Some?
    ensures j < |RestGuards(ps)| && RestGuards(ps)[j] == ps[k].rest.value
  {
    if k == 0 {
      j := 0;
    } else {
      j := RestIsAmong(ps[1..], k - 1);
      if ps[0].rest.Some? { j := j + 1; }
    }
  }

  lemma CollectedGuardAt(ps: seq<MethodGuard>, i: nat)
    requires ps != []
    ensures i < MaxFixed(ps) ==> GuardAt(Collected(ps), i) == Some(UnionGuard(GuardsAt(ps, i)))
    ensures i >= MaxFixed(ps) ==> GuardAt(Collected(ps), i) == Collected(ps).rest
  {
    hide UnionGuard, GuardsAt, RestGuards;
    var g := Collected(ps);
    assert i >= MinRequired(ps) && i < MaxFixed(ps) ==> g.optionals[i - MinRequired(ps)] == UnionGuard(GuardsAt(ps, MinRequired(ps) + (i - MinRequired(ps))));
  }

  /** The collected guard has a guard wherever one of the payloads has, and no position's union is empty. */
  lemma CollectedHasGuard(ps: seq<MethodGuard>, k: nat, i: nat)
    requires k < |ps| && GuardAt(ps[k], i).Some?
    ensures GuardAt(Collected(ps), i) == Some(UnionGuard(if i < MaxFixed(ps) then GuardsAt(ps, i) else RestGuards(ps)))
    ensures (if i < MaxFixed(ps) then GuardsAt(ps, i) else RestGuards(ps)) != []
  {
    CollectedGuardAt(ps, i);
    var j := GuardIsAmong(ps, k, i);
    if i >= MaxFixed(ps) {
      assert ps[k].rest.Some?;
      var r := RestIsAmong(ps, k);
    }
  }

  /** An optional slot of the collected guard stands for at least one section's guard. */
  lemma NoEmptyUnion(ps: seq<MethodGuard>, i: nat)
    requires ps != [] && i < MaxFixed(ps)
    ensures GuardsAt(ps, i) != []
  {
    var k :| 0 <= k < |ps| && MaxFixed(ps) == Fixed(ps[k]);
    var j := GuardIsAmong(ps, k, i);
  }

  /**
   * The union guard over-approximates its sections: a call any section's guard covers is covered by the
   * collected guard.
   */
  lemma CollectedCovers(u: bool, ps: seq<MethodGuard>, k: nat, args: seq<Value>)
    requires k < |ps| && Covers(u, ps[k], args)
    ensures Covers(u, Collected(ps), args)
  {
    hide Matches, Covers, Collected;
    CoversIsPositional(u, ps[k], args);
    CoversIsPositional(u, Collected(ps), args);
    assert EachMatches(u, ps[k], args);
    forall i | 0 <= i < |args| ensures GuardAt(Collected(ps), i).Some? && Matches(u, args[i], GuardAt(Collected(ps), i).value) {
      assert GuardAt(ps[k], i).Some? && Matches(u, args[i], GuardAt(ps[k], i).value);
      CollectedHasGuard(ps, k, i);
      if i < MaxFixed(ps) {
        var j := GuardIsAmong(ps, k, i);
        UnionMatches(u, args[i], GuardsAt(ps, i), j);
      } else {
        var j := RestIsAmong(ps, k);
        UnionMatches(u, args[i], RestGuards(ps), j);
      }
    }
  }

  /** And a result some section's return guard lets through, the collected one lets through, and no other. */
  lemma CollectedResultIsUnion(u: bool, ps: seq<MethodGuard>, v: Value)
    requires ps != []
    ensures Matches(u, v, Collected(ps).result) <==> exists k | 0 <= k < |ps| :: Matches(u, v, ps[k].result)
  {
    hide Matches;
    var results := ResultsOf(ps);
    assert Collected(ps).result == UnionGuard(results);
    if Matches(u, v, UnionGuard(results)) {
      var k := UnionMatchesOneOf(u, v, results);
      assert results[k] == ps[k].result;
    }
    if k :| 0 <= k < |ps| && Matches(u, v, ps[k].result) {
      assert results[k] == ps[k].result;
      UnionMatches(u, v, results, k);
    }
  }

  // ------------------------------------------------------------------ the other reading of a rest guard

  lemma SplitArrayByParts(u: bool, elems: seq<Value>, required: seq<Pattern>, optionals: seq<Pattern>, rest: Pattern)
    ensures Matches(u, Arr(elems), SplitArray(required, optionals, rest)) <==>
              && |required| <= |elems|
              && (forall i | 0 <= i < |required| :: Matches(u, elems[i], required[i]))
              && (forall i | 0 <= i < |optionals| && |required| + i < |elems| :: FillsOptional(u, elems[|required| + i], optionals[i]))
              && Matches(u, Arr(Beyond(elems, |required| + |optionals|)), rest)
  {
  }

  lemma AnyMatches(u: bool, v: Value)
    ensures Matches(u, v, Any)
  {
  }

  /** What an exo's reading comes to, position by position. */
  lemma AdmitsByParts(u: bool, g: MethodGuard, args: seq<Value>)
    ensures AdmitsArgs(u, g, args) <==>
              && |g.required| <= |args| && (g.rest.Some? || |args| <= Fixed(g))
              && (forall i | 0 <= i < |g.required| :: Matches(u, args[i], g.required[i]))
              && (forall i | 0 <= i < |g.optionals| && |g.required| + i < |args| :: FillsOptional(u, args[|g.required| + i], g.optionals[i]))
              && (g.rest.Some? ==> Matches(u, Arr(Beyond(args, Fixed(g))), g.rest.value))
  {
    hide Matches, FillsOptional;
    SplitArrayByParts(u, args, g.required, g.optionals, if g.rest.Some? then g.rest.value else Any);
    AnyMatches(u, Arr(Beyond(args, Fixed(g))));
  }

  lemma CollectedPair(one: MethodGuard, two: MethodGuard)
    requires one.required == [] && one.optionals == [] && one.rest.Some? && two.required == [] && |two.optionals| == 1
    ensures var g := Collected([one, two]);
            g.required == [] && |g.optionals| == 1 && g.optionals[0] == Or([one.rest.value, two.optionals[0]])
  {
    var ps := [one, two];
    assert ps[1..] == [two] && [two][1..] == [];
    assert GuardsAt([two], 0) == [two.optionals[0]];
    assert GuardsAt(ps, 0) == [one.rest.value, two.optionals[0]];
    CollectedGuardAt(ps, 0);
  }

  const ANY_STRINGS := MethodGuard([], [], Some(ArrayOf(StringKind)), Any)
  const MAYBE_ONE := MethodGuard([], [Eq(Num(1))], None, Any)

  lemma StringsAdmit(u: bool)
    ensures AdmitsArgs(u, ANY_STRINGS, [Str("a")])
  {
    AdmitsByParts(u, ANY_STRINGS, [Str("a")]);
    assert Beyond([Str("a")], 0) == [Str("a")];
    assert Matches(u, Arr([Str("a")]), ArrayOf(StringKind));
  }

  lemma NeitherMatches(u: bool)
    ensures !FillsOptional(u, Str("a"), Or([ArrayOf(StringKind), Eq(Num(1))]))
  {
    var v, ps := Str("a"), [ArrayOf(StringKind), Eq(Num(1))];
    assert !Matches(u, v, ps[0]) && !Matches(u, v, ps[1]);
  }

  /**
   * An exo reads a rest guard as matching the whole trailing array. Read so, the collected guard may refuse
   * what a section accepts: a section's rest guard, which is about arrays, is put at single positions.
   */
  lemma WholeArrayReadingLosesCalls(u: bool)
    ensures AdmitsArgs(u, ANY_STRINGS, [Str("a")]) && !AdmitsArgs(u, Collected([ANY_STRINGS, MAYBE_ONE]), [Str("a")])
  {
    hide Collected, Matches, FillsOptional, AdmitsArgs;
    StringsAdmit(u);
    var g := Collected([ANY_STRINGS, MAYBE_ONE]);
    CollectedPair(ANY_STRINGS, MAYBE_ONE);
    NeitherMatches(u);
    AdmitsByParts(u, g, [Str("a")]);
    assert !FillsOptional(u, [Str("a")][|g.required| + 0], g.optionals[0]);
  }

  /** Some section's guard at the position takes the argument. */
  predicate SomeTakes(u: bool, ps: seq<MethodGuard>, i: nat, v: Value) {
    exists k | 0 <= k < |ps| :: GuardAt(ps[k], i).Some? && FillsOptional(u, v, GuardAt(ps[k], i).value)
  }

  /** Some section's rest guard takes the array; or no section has one. */
  predicate SomeRestTakes(u: bool, ps: seq<MethodGuard>, elems: seq<Value>) {
    RestGuards(ps) == [] || exists k | 0 <= k < |ps| :: ps[k].rest.Some? && Matches(u, Arr(elems), ps[k].rest.value)
  }

  lemma {:induction false} AmongIsGuard(ps: seq<MethodGuard>, i: nat, j: nat) returns (k: nat)
    requires j < |GuardsAt(ps, i)|
    ensures k < |ps| && GuardAt(ps[k], i) == Some(GuardsAt(ps, i)[j])
  {
    if GuardAt(ps[0], i).Some? && j == 0 {
      k := 0;
    } else {
      var later := AmongIsGuard(ps[1..], i, if GuardAt(ps[0], i).Some? then j - 1 else j);
      k := later + 1;
    }
  }

  lemma {:induction false} AmongIsRest(ps: seq<MethodGuard>, j: nat) returns (k: nat)
    requires j < |RestGuards(ps)|
    ensures k < |ps| && ps[k].rest == Some(RestGuards(ps)[j])
  {
    if ps[0].rest.Some? && j == 0 {
      k := 0;
    } else {
      var later := AmongIsRest(ps[1..], if ps[0].rest.Some? then j - 1 else j);
      k := later + 1;
    }
  }

  /** At a fixed position the collected guard takes what some section takes there. */
  lemma TakesWhatSomeTakes(u: bool, ps: seq<MethodGuard>, i: nat, v: Value)
    requires ps != [] && i < MaxFixed(ps)
    ensures FillsOptional(u, v, UnionGuard(GuardsAt(ps, i))) <==> SomeTakes(u, ps, i, v)
  {
    hide Matches, GuardAt, GuardsAt, UnionGuard;
    NoEmptyUnion(ps, i);
    if Matches(u, v, UnionGuard(GuardsAt(ps, i))) {
      var j := UnionMatchesOneOf(u, v, GuardsAt(ps, i));
      var k := AmongIsGuard(ps, i, j);
    }
    var first := AmongIsGuard(ps, i, 0);
    if k :| 0 <= k < |ps| && GuardAt(ps[k], i).Some? && Matches(u, v, GuardAt(ps[k], i).value) {
      var j := GuardIsAmong(ps, k, i);
      UnionMatches(u, v, GuardsAt(ps, i), j);
    }
  }

  /** Past them, the collected rest guard takes what some section's does. */
  lemma RestTakesWhatSomeTakes(u: bool, ps: seq<MethodGuard>, elems: seq<Value>)
    ensures (RestGuards(ps) != [] ==> Matches(u, Arr(elems), UnionGuard(RestGuards(ps)))) <==> SomeRestTakes(u, ps, elems)
  {
    hide Matches, UnionGuard;
    if RestGuards(ps) != [] {
      if Matches(u, Arr(elems), UnionGuard(RestGuards(ps))) {
        var j := UnionMatchesOneOf(u, Arr(elems), RestGuards(ps));
        var k := AmongIsRest(ps, j);
      }
      if k :| 0 <= k < |ps| && ps[k].rest.Some? && Matches(u, Arr(elems), ps[k].rest.value) {
        var j := RestIsAmong(ps, k);
        UnionMatches(u, Arr(elems), RestGuards(ps), j);
      }
    }
  }

  /** A section's own guards take the arguments at its fixed positions, so the collected guard does. */
  lemma OwnGuardTakes(u: bool, ps: seq<MethodGuard>, k: nat, args: seq<Value>, i: nat)
    requires k < |ps| && AdmitsArgs(u, ps[k], args) && i < |args| && i < Fixed(ps[k])
    ensures SomeTakes(u, ps, i, args[i])
    ensures i < MinRequired(ps) ==> Matches(u, args[i], UnionGuard(GuardsAt(ps, i)))
  {
    hide Matches, UnionGuard, AdmitsArgs;
    var p := ps[k];
    AdmitsByParts(u, p, args);
    assert i >= |p.required| ==> FillsOptional(u, args[|p.required| + (i - |p.required|)], p.optionals[i - |p.required|]);
    assert FillsOptional(u, args[i], GuardAt(p, i).value);
    if i < MinRequired(ps) {
      var j := GuardIsAmong(ps, k, i);
      UnionMatches(u, args[i], GuardsAt(ps, i), j);
    }
  }

  lemma CollectedAdmitsByParts(u: bool, ps: seq<MethodGuard>, args: seq<Value>)
    requires ps != []
    ensures AdmitsArgs(u, Collected(ps), args) <==>
              && MinRequired(ps) <= |args| && (RestGuards(ps) != [] || |args| <= MaxFixed(ps))
              && (forall i | 0 <= i < MinRequired(ps) :: Matches(u, args[i], UnionGuard(GuardsAt(ps, i))))
              && (forall i | MinRequired(ps) <= i < MaxFixed(ps) && i < |args| :: FillsOptional(u, args[i], UnionGuard(GuardsAt(ps, i))))
              && (RestGuards(ps) != [] ==> Matches(u, Arr(Beyond(args, MaxFixed(ps))), UnionGuard(RestGuards(ps))))
  {
    hide Matches, FillsOptional, UnionGuard, GuardsAt, RestGuards, AdmitsArgs;
    var g := Collected(ps);
    AdmitsByParts(u, g, args);
    CollectedOptionals(u, ps, args);
    CollectedRequired(ps);
    hide Collected;
    assert (forall i | 0 <= i < |g.required| && i < |args| :: Matches(u, args[i], g.required[i]))
      <==> (forall i | 0 <= i < MinRequired(ps) && i < |args| :: Matches(u, args[i], UnionGuard(GuardsAt(ps, i))));
  }

  lemma CollectedRequired(ps: seq<MethodGuard>)
    requires ps != []
    ensures forall i | 0 <= i < MinRequired(ps) :: Collected(ps).required[i] == UnionGuard(GuardsAt(ps, i))
    ensures Collected(ps).rest == if RestGuards(ps) == [] then None else Some(UnionGuard(RestGuards(ps)))
  {
    hide UnionGuard, GuardsAt;
    assert forall i | 0 <= i < MinRequired(ps) :: Collected(ps).required[i] == UnionGuard(GuardsAt(ps, 0 + i));
  }

  lemma CollectedOptionals(u: bool, ps: seq<MethodGuard>, args: seq<Value>)
    requires ps != []
    ensures var g, least := Collected(ps), MinRequired(ps);
            (forall i | 0 <= i < |g.optionals| && least + i < |args| :: FillsOptional(u, args[least + i], g.optionals[i]))
            <==> (forall i | least <= i < MaxFixed(ps) && i < |args| :: FillsOptional(u, args[i], UnionGuard(GuardsAt(ps, i))))
  {
    hide FillsOptional, UnionGuard, GuardsAt;
    var g, least := Collected(ps), MinRequired(ps);
    assert forall i | 0 <= i < |g.optionals| :: g.optionals[i] == UnionGuard(GuardsAt(ps, least + i));
    hide Collected;
    if forall i | 0 <= i < |g.optionals| && least + i < |args| :: FillsOptional(u, args[least + i], g.optionals[i]) {
      forall i | least <= i < MaxFixed(ps) && i < |args| ensures FillsOptional(u, args[i], UnionGuard(GuardsAt(ps, i))) {
        assert FillsOptional(u, args[least + (i - least)], g.optionals[i - least]);
      }
    }
  }

  /** At the fixed positions the collected guard takes a section's arguments as far as the section's own guards reach. */
  lemma FixedPositionsFit(u: bool, ps: seq<MethodGuard>, k: nat, args: seq<Value>)
    requires k < |ps| && AdmitsArgs(u, ps[k], args) && MinRequired(ps) <= |args|
    ensures forall i | 0 <= i < MinRequired(ps) :: Matches(u, args[i], UnionGuard(GuardsAt(ps, i)))
    ensures (forall i | MinRequired(ps) <= i < MaxFixed(ps) && i < |args| :: FillsOptional(u, args[i], UnionGuard(GuardsAt(ps, i))))
            <==> (forall i | Fixed(ps[k]) <= i < |args| && i < MaxFixed(ps) :: SomeTakes(u, ps, i, args[i]))
  {
    hide Matches, FillsOptional, UnionGuard, SomeTakes, AdmitsArgs, GuardsAt;
    forall i | 0 <= i < |args| && i < MaxFixed(ps) ensures FillsOptional(u, args[i], UnionGuard(GuardsAt(ps, i))) <==> SomeTakes(u, ps, i, args[i]) {
      TakesWhatSomeTakes(u, ps, i, args[i]);
    }
    forall i | 0 <= i < |args| && i < Fixed(ps[k])
      ensures SomeTakes(u, ps, i, args[i]) && (i < MinRequired(ps) ==> Matches(u, args[i], UnionGuard(GuardsAt(ps, i))))
    {
      OwnGuardTakes(u, ps, k, args, i);
    }
    assert MinRequired(ps) <= |ps[k].required| && Fixed(ps[k]) <= MaxFixed(ps);
  }

  /**
   * Read so, the collected guard loses a call that a section accepts exactly when an argument the section's rest
   * guard takes stands at a position fixed elsewhere and no section's guard there takes it, or what stands past
   * every fixed position is taken by no section's rest guard though some section has one.
   */
  lemma LosesExactly(u: bool, ps: seq<MethodGuard>, k: nat, args: seq<Value>)
    requires k < |ps| && AdmitsArgs(u, ps[k], args)
    ensures AdmitsArgs(u, Collected(ps), args) <==>
              && (forall i | Fixed(ps[k]) <= i < |args| && i < MaxFixed(ps) :: SomeTakes(u, ps, i, args[i]))
              && SomeRestTakes(u, ps, Beyond(args, MaxFixed(ps)))
  {
    hide Matches, FillsOptional, UnionGuard, Collected, SomeTakes, SomeRestTakes, GuardsAt;
    var p := ps[k];
    AdmitsByParts(u, p, args);
    CollectedAdmitsByParts(u, ps, args);
    hide AdmitsArgs;
    FixedPositionsFit(u, ps, k, args);
    RestTakesWhatSomeTakes(u, ps, Beyond(args, MaxFixed(ps)));
    if p.rest.Some? { var j := RestIsAmong(ps, k); }
    assert MinRequired(ps) <= |p.required| && Fixed(p) <= MaxFixed(ps);
  }

  /** A section's rest guard begins where the collected guard's does, and allows there to be no more arguments. */
  predicate RestsAligned(u: bool, ps: seq<MethodGuard>)
    requires ps != []
  {
    forall k | 0 <= k < |ps| && ps[k].rest.Some? :: Fixed(ps[k]) == MaxFixed(ps) && Matches(u, Arr([]), ps[k].rest.value)
  }

  /** So none is lost if every rest guard begins past every section's fixed positions, and takes nothing at all. */
  lemma AlignedRestsLoseNone(u: bool, ps: seq<MethodGuard>, k: nat, args: seq<Value>)
    requires k < |ps| && RestsAligned(u, ps) && AdmitsArgs(u, ps[k], args)
    ensures AdmitsArgs(u, Collected(ps), args)
  {
    hide Matches, FillsOptional, Collected;
    LosesExactly(u, ps, k, args);
    AdmitsByParts(u, ps[k], args);
    hide AdmitsArgs;
    if ps[k].rest.None? && RestGuards(ps) != [] {
      assert Beyond(args, MaxFixed(ps)) == [];
      var m := AmongIsRest(ps, 0);
      assert Matches(u, Arr([]), ps[m].rest.value);
    }
  }

  // ------------------------------------------------------------------ collecting, section by section

  /** The guards a method has among the sections, in their order. */
  function PayloadsOf(sections: seq<Option<InterfaceGuard>>, name: string): seq<MethodGuard> {
    if sections == [] then []
    else
      var earlier, last := PayloadsOf(sections[..|sections| - 1], name), sections[|sections| - 1];
      if last.Some? && name in last.value.methods then earlier + [last.value.methods[name]] else earlier
  }

  /** Guards collected by method name, so far. */
  ghost predicate Gathered(sections: seq<Option<InterfaceGuard>>, payloads: map<string, seq<MethodGuard>>) {
    && (forall name | name in payloads :: payloads[name] != [] && payloads[name] == PayloadsOf(sections, name))
    && (forall i, name | 0 <= i < |sections| && sections[i].Some? && name in sections[i].value.methods :: name in payloads)
  }

  method GatherSection(sections: seq<Option<InterfaceGuard>>, guard: InterfaceGuard, payloads: map<string, seq<MethodGuard>>)
      returns (more: map<string, seq<MethodGuard>>)
    requires Gathered(sections, payloads)
    ensures Gathered(sections + [Some(guard)], more)
  {
    more := payloads;
    var names := guard.methods.Keys;
    while names != {}
      invariant names <= guard.methods.Keys
      invariant forall name | name in payloads || name in guard.methods.Keys - names :: name in more
      invariant forall name | name in more :: name in payloads || name in guard.methods.Keys - names
      invariant forall name | name in more :: more[name] == (if name in payloads then payloads[name] else [])
                                                            + (if name in guard.methods.Keys - names then [guard.methods[name]] else [])
      decreases names
    {
      var name :| name in names;
      more := more[name := (if name in more then more[name] else []) + [guard.methods[name]]];
      names := names - {name};
    }
    assert (sections + [Some(guard)])[..|sections|] == sections;
    forall name | name in more ensures more[name] != [] && more[name] == PayloadsOf(sections + [Some(guard)], name) {
      if name !in payloads { NotAmong(sections, payloads, name); }
    }
  }

  lemma {:induction false} NotAmong(sections: seq<Option<InterfaceGuard>>, payloads: map<string, seq<MethodGuard>>, name: string)
    requires name !in payloads
    requires forall i, n | 0 <= i < |sections| && sections[i].Some? && n in sections[i].value.methods :: n in payloads
    ensures PayloadsOf(sections, name) == []
    decreases |sections|
  {
    if sections != [] {
      var init := sections[..|sections| - 1];
      assert forall i | 0 <= i < |init| :: init[i] == sections[i];
      NotAmong(init, payloads, name);
    }
  }

  /** The collected interface guard names every method some section names, and guards it by the union of their guards. */
  method CollectSheafGuard(sections: seq<Option<InterfaceGuard>>) returns (collected: InterfaceGuard)
    ensures forall name :: name in collected.methods <==>
              exists i | 0 <= i < |sections| :: sections[i].Some? && name in sections[i].value.methods
    ensures forall name | name in collected.methods ::
              PayloadsOf(sections, name) != [] && collected.methods[name] == Collected(PayloadsOf(sections, name))
  {
    var payloads: map<string, seq<MethodGuard>> := map[];
    assert sections[..0] == [];
    for i := 0 to |sections|
      invariant Gathered(sections[..i], payloads)
    {
      assert sections[..i + 1] == sections[..i] + [sections[i]];
      if sections[i].Some? {
        payloads := GatherSection(sections[..i], sections[i].value, payloads);
      } else {
        assert (sections[..i] + [None])[..i] == sections[..i];
      }
    }
    assert sections[..|sections|] == sections;
    forall name | name in payloads
      ensures exists i | 0 <= i < |sections| :: sections[i].Some? && name in sections[i].value.methods
    {
      var i := NamedBy(sections, name);
    }
    var guards: map<string, MethodGuard> := map name | name in payloads :: Collected(payloads[name]);
    collected := InterfaceGuard(guards, Unnamed);
  }

  lemma {:induction false} NamedBy(sections: seq<Option<InterfaceGuard>>, name: string) returns (i: nat)
    requires PayloadsOf(sections, name) != []
    ensures i < |sections| && sections[i].Some? && name in sections[i].value.methods
    decreases |sections|
  {
    var n := |sections| - 1;
    if sections[n].Some? && name in sections[n].value.methods { i := n; } else { i := NamedBy(sections[..n], name); }
  }
}
