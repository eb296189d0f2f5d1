/**
 * Deriving the guard of a narrowing or a join from the guard of their common base
 * (packages/kernel-utils/src/narrow-interface-guard.ts).
 *
 * A delta is compiled into a guard in one of two renderings. What a delta MEANS is stated separately, in
 * `RowAdmits` and `DeltaAdmits`, by looking at the arguments alone; the theorems say that the compiled
 * guard admits exactly the calls the meaning admits, and that conjoining and disjoining deltas are
 * intersection and union of meanings.
 */
module NarrowGuard {
  import opened Prelude
  import opened Patterns

  /** One method's patterns by argument position, `None` at a hole. */
  type Row = seq<Option<Pattern>>

  type NarrowingDelta = map<string, Row>

  /** Disjunctive normal form: a method admits a call that any one of its rows admits. */
  type DisjunctiveDelta = map<string, seq<Row>>

  datatype NarrowError =
    | NoSuchMethod(name: string)
    | GuardedByDefault(name: string)
    | BeyondArity(name: string)
    | CannotAbsorb

  // ------------------------------------------------------------------ meaning

  predicate AllHoles(row: Row) {
    forall i | 0 <= i < |row| :: row[i].None?
  }

  /** The row's patterns hold of the arguments present at their positions of `g`. */
  predicate RowHolds(u: bool, g: MethodGuard, row: Row, args: seq<Value>) {
    forall i | 0 <= i < |row| && i < |args| ::
      row[i].Some? ==>
        if i < |g.required| then Matches(u, args[i], row[i].value)
        else FillsOptional(u, args[i], row[i].value)
  }

  /** The row's patterns hold, and every argument they address is present. */
  predicate RowDemands(u: bool, row: Row, args: seq<Value>) {
    forall i | 0 <= i < |row| :: row[i].Some? ==> i < |args| && Matches(u, args[i], row[i].value)
  }

  /** What one row over a base admits for a method. */
  predicate RowAdmits(u: bool, base: InterfaceGuard, name: string, row: Row, args: seq<Value>) {
    if name in base.methods then
      AdmitsArgs(u, base.methods[name], args) && RowHolds(u, base.methods[name], row, args)
    else
      base.defaults.Passable? && RowDemands(u, row, args)
  }

  predicate SomeRowAdmits(u: bool, base: InterfaceGuard, name: string, rows: seq<Row>, args: seq<Value>) {
    exists i | 0 <= i < |rows| :: RowAdmits(u, base, name, rows[i], args)
  }

  /** What a delta over a base admits: some row of the method admits the call. */
  predicate DeltaAdmits(u: bool, base: InterfaceGuard, d: DisjunctiveDelta, name: string, args: seq<Value>) {
    name in d && SomeRowAdmits(u, base, name, d[name], args)
  }

  /** A row reaches no argument the base method cannot take. */
  predicate RowFits(g: MethodGuard, row: Row) {
    g.rest.Some? || forall i | |g.required| + |g.optionals| <= i < |row| :: row[i].None?
  }

  /** The base has the method, or admits it by default, and every row fits its arity. */
  predicate MethodFits(base: InterfaceGuard, name: string, rows: seq<Row>) {
    if name in base.methods then forall i | 0 <= i < |rows| :: RowFits(base.methods[name], rows[i])
    else base.defaults.Passable?
  }

  predicate DeltaFits(base: InterfaceGuard, d: DisjunctiveDelta) {
    forall name | name in d :: MethodFits(base, name, d[name])
  }

  // ------------------------------------------------------------------ rows

  function Lift(delta: NarrowingDelta): DisjunctiveDelta {
    map name | name in delta :: [delta[name]]
  }

  function Conjoin(base: Pattern, p: Option<Pattern>): Pattern {
    if p.None? then base else And([base, p.value])
  }

  function At(row: Row, i: nat): Option<Pattern> {
    if i < |row| then row[i] else None
  }

  function Max(a: nat, b: nat): nat {
    if a < b then b else a
  }

  function ConjoinRows(left: Row, right: Row): Row {
    seq(Max(|left|, |right|), i requires 0 <= i =>
      if At(left, i).None? then At(right, i) else Some(Conjoin(At(left, i).value, At(right, i))))
  }

  function TrimmedLength(row: Row): (end: nat)
    ensures end <= |row|
    ensures end > 0 ==> row[end - 1].Some?
    ensures forall i | end <= i < |row| :: row[i].None?
  {
    if |row| > 0 && row[|row| - 1].None? then TrimmedLength(row[..|row| - 1]) else |row|
  }

  /** Drop a row's trailing holes, walking back from its end. */
  method TrimTrailingHoles(row: Row) returns (trimmed: Row)
    ensures trimmed == row[..TrimmedLength(row)]
    ensures trimmed != [] ==> trimmed[|trimmed| - 1].Some?
    ensures forall i | |trimmed| <= i < |row| :: row[i].None?
  {
    var end := |row|;
    while end > 0 && row[end - 1].None?
      invariant 0 <= end <= |row|
      invariant forall i | end <= i < |row| :: row[i].None?
    {
      end := end - 1;
    }
    trimmed := row[..end];
    assert end >= TrimmedLength(row);
  }

  function FillHoles(row: Row): seq<Pattern> {
    seq(|row|, i requires 0 <= i < |row| => if row[i].Some? then row[i].value else Any)
  }

  function Trimmed(row: Row): Row {
    row[..TrimmedLength(row)]
  }

  /** One row's argument guards, split as a method guard splits them. */
  datatype RowGuards = RowGuards(required: seq<Pattern>, optionals: seq<Pattern>, rest: Option<Pattern>)

  /** Conjoin the row's patterns from position `offset` on, each onto its guard. */
  function ConjoinFrom(guards: seq<Pattern>, row: Row, offset: nat): (conjoined: seq<Pattern>)
    ensures |conjoined| == |guards|
  {
    seq(|guards|, i requires 0 <= i < |guards| => Conjoin(guards[i], At(row, offset + i)))
  }

  function NarrowRow(name: string, g: MethodGuard, row: Row): Result<RowGuards, NarrowError> {
    var maxArity := |g.required| + |g.optionals|;
    var beyond := if maxArity <= |row| then row[maxArity..] else [];
    if !AllHoles(beyond) && g.rest.None? then Err(BeyondArity(name))
    else
      Ok(RowGuards(
        ConjoinFrom(g.required, row, 0),
        ConjoinFrom(g.optionals, row, |g.required|),
        if g.rest.None? || AllHoles(beyond) then g.rest
        else Some(And([g.rest.value, SplitArray([], FillHoles(Trimmed(beyond)), Any)]))))
  }

  /** The guards of a row over a method its base admits by default. */
  function SynthesizeRow(row: Row): RowGuards {
    RowGuards(FillHoles(Trimmed(row)), [], Some(Any))
  }

  /** The argument-array pattern of one row, for a guard with several. */
  function RowPattern(r: RowGuards): Pattern {
    SplitArray(r.required, r.optionals, if r.rest.Some? then r.rest.value else EMPTY_ARRAY)
  }

  /** One row is rendered positionally; several become one rest guard over the whole argument array. */
  function RenderMethodGuard(rows: seq<RowGuards>, result: Pattern): MethodGuard {
    if |rows| == 1 then MethodGuard(rows[0].required, rows[0].optionals, rows[0].rest, result)
    else MethodGuard([], [], Some(Or(seq(|rows|, i requires 0 <= i < |rows| => RowPattern(rows[i])))), result)
  }

  function NarrowRows(name: string, g: MethodGuard, rows: seq<Row>): (r: Result<seq<RowGuards>, NarrowError>)
    ensures r.Ok? <==> forall i | 0 <= i < |rows| :: NarrowRow(name, g, rows[i]).Ok?
    ensures r.Ok? ==> |r.value| == |rows| && forall i | 0 <= i < |rows| :: NarrowRow(name, g, rows[i]) == Ok(r.value[i])
    ensures r.Err? ==> r.error == BeyondArity(name)
  {
    if rows == [] then Ok([])
    else
      match NarrowRow(name, g, rows[0])
      case Err(e) => assert NarrowRow(name, g, rows[0]).Err?; Err(e)
      case Ok(first) =>
        match NarrowRows(name, g, rows[1..])
        case Err(e) =>
          assert exists i | 0 <= i < |rows[1..]| :: NarrowRow(name, g, rows[1..][i]).Err?;
          assert forall i | 0 <= i < |rows[1..]| :: rows[1..][i] == rows[i + 1];
          Err(e)
        case Ok(others) => Ok([first] + others)
  }

  /** The guard a base and a method's rows give, or why there is none. */
  function NarrowMethod(base: InterfaceGuard, name: string, rows: seq<Row>): Result<MethodGuard, NarrowError> {
    if name in base.methods then
      match NarrowRows(name, base.methods[name], rows)
      case Err(e) => Err(e)
      case Ok(guards) => Ok(RenderMethodGuard(guards, base.methods[name].result))
    else if base.defaults.Passable? then
      Ok(RenderMethodGuard(seq(|rows|, i requires 0 <= i < |rows| => SynthesizeRow(rows[i])), Any))
    else if base.defaults.Unnamed? then Err(NoSuchMethod(name))
    else Err(GuardedByDefault(name))
  }

  /** Every method of a derived guard keeps the return guard its base gives it, and one the base leaves unnamed has none. */
  ghost predicate InheritsResults(g: InterfaceGuard, base: InterfaceGuard) {
    forall name | name in g.methods :: g.methods[name].result == if name in base.methods then base.methods[name].result else Any
  }

  lemma MethodInheritsResult(base: InterfaceGuard, name: string, rows: seq<Row>)
    requires NarrowMethod(base, name, rows).Ok?
    ensures NarrowMethod(base, name, rows).value.result == if name in base.methods then base.methods[name].result else Any
  {
    hide NarrowRows;
  }

  /** The error says what is wrong with the method's rows over the base. */
  predicate Blames(base: InterfaceGuard, name: string, rows: seq<Row>, e: NarrowError) {
    match e
    case NoSuchMethod(n) => n == name && name !in base.methods && base.defaults.Unnamed?
    case GuardedByDefault(n) => n == name && name !in base.methods && !base.defaults.Unnamed? && !base.defaults.Passable?
    case BeyondArity(n) => n == name && name in base.methods && exists i | 0 <= i < |rows| :: !RowFits(base.methods[name], rows[i])
    case CannotAbsorb => false
  }

  /** Derive the guard of a narrowing of a base, method by method. */
  method NarrowInterfaceGuard(base: InterfaceGuard, d: DisjunctiveDelta) returns (r: Result<InterfaceGuard, NarrowError>)
    ensures r.Ok? <==> DeltaFits(base, d)
    ensures r.Err? ==> exists name | name in d :: Blames(base, name, d[name], r.error)
    ensures r.Ok? ==> r.value.defaults.Unnamed? && r.value.methods.Keys == d.Keys
    ensures r.Ok? ==> InheritsResults(r.value, base)
    ensures r.Ok? ==> forall name | name in d :: NarrowMethod(base, name, d[name]) == Ok(r.value.methods[name])
    ensures r.Ok? ==> forall u, name, args :: Admits(u, r.value, name, args) <==> DeltaAdmits(u, base, d, name, args)
  {
    var narrowed: map<string, MethodGuard> := map[];
    var todo := d.Keys;
    while todo != {}
      invariant todo <= d.Keys && narrowed.Keys == d.Keys - todo
      invariant forall name | name in narrowed :: NarrowMethod(base, name, d[name]) == Ok(narrowed[name])
      decreases todo
    {
      var name :| name in todo;
      NarrowMethodFits(base, name, d[name]);
      match NarrowMethod(base, name, d[name]) {
        case Err(e) =>
          assert Blames(base, name, d[name], e);
          return Err(e);
        case Ok(g) => narrowed := narrowed[name := g];
      }
      todo := todo - {name};
    }
    var derived := InterfaceGuard(narrowed, Unnamed);
    forall name | name in d ensures MethodFits(base, name, d[name]) { NarrowMethodFits(base, name, d[name]); }
    forall name | name in d ensures derived.methods[name].result == if name in base.methods then base.methods[name].result else Any {
      MethodInheritsResult(base, name, d[name]);
    }
    forall u: bool, name: string, args: seq<Value>
      ensures Admits(u, derived, name, args) <==> DeltaAdmits(u, base, d, name, args)
    {
      if name in d { NarrowMethodIsExact(u, base, name, d[name], args); }
    }
    r := Ok(derived);
  }

  lemma NarrowMethodFits(base: InterfaceGuard, name: string, rows: seq<Row>)
    ensures NarrowMethod(base, name, rows).Ok? <==> MethodFits(base, name, rows)
  {
    if name in base.methods {
      var g := base.methods[name];
      forall i | 0 <= i < |rows| ensures NarrowRow(name, g, rows[i]).Ok? <==> RowFits(g, rows[i]) {
        NarrowRowFits(name, g, rows[i]);
      }
    }
  }

  lemma NarrowRowFits(name: string, g: MethodGuard, row: Row)
    ensures NarrowRow(name, g, row).Ok? <==> RowFits(g, row)
  {
    var maxArity := |g.required| + |g.optionals|;
    if maxArity <= |row| {
      forall i | maxArity <= i < |row| ensures row[i] == row[maxArity..][i - maxArity] {}
    }
  }

  // ------------------------------------------------------------------ exactness of the renderings

  /** A rendered row admits a call: its guards read positionally. */
  predicate GuardsAdmit(u: bool, r: RowGuards, args: seq<Value>) {
    AdmitsArgs(u, MethodGuard(r.required, r.optionals, r.rest, Any), args)
  }

  predicate AllMatch(u: bool, ps: seq<Pattern>, xs: seq<Value>) {
    forall i | 0 <= i < |ps| && i < |xs| :: Matches(u, xs[i], ps[i])
  }

  predicate AllFill(u: bool, ps: seq<Pattern>, xs: seq<Value>) {
    forall i | 0 <= i < |ps| && i < |xs| :: FillsOptional(u, xs[i], ps[i])
  }

  /** `M.splitArray`, category by category. */
  lemma SplitArrayParts(u: bool, required: seq<Pattern>, optionals: seq<Pattern>, rest: Pattern, args: seq<Value>)
    ensures Matches(u, Arr(args), SplitArray(required, optionals, rest)) <==>
            && |required| <= |args|
            && AllMatch(u, required, args)
            && AllFill(u, optionals, Beyond(args, |required|))
            && Matches(u, Arr(Beyond(args, |required| + |optionals|)), rest)
  {
    if |required| <= |args| {
      var later := Beyond(args, |required|);
      forall i | 0 <= i < |optionals| && i < |later| ensures later[i] == args[|required| + i] {}
      if AllFill(u, optionals, later) {
        forall i | 0 <= i < |optionals| && |required| + i < |args|
          ensures FillsOptional(u, args[|required| + i], optionals[i])
        {
          assert later[i] == args[|required| + i];
        }
      }
    }
  }

  /** The two renderings of a row agree, the rest guard `[]` standing for none. */
  lemma RenderingsAgree(u: bool, r: RowGuards, args: seq<Value>)
    ensures Matches(u, Arr(args), RowPattern(r)) <==> GuardsAdmit(u, r, args)
  {
    if r.rest.None? {
      SplitArrayParts(u, r.required, r.optionals, EMPTY_ARRAY, args);
      SplitArrayParts(u, r.required, r.optionals, Any, args);
    }
  }

  lemma ConjoinIsBoth(u: bool, v: Value, p: Pattern, q: Option<Pattern>)
    ensures Matches(u, v, Conjoin(p, q)) <==> Matches(u, v, p) && (q.Some? ==> Matches(u, v, q.value))
  {
    if q.Some? {
      assert [p, q.value][0] == p && [p, q.value][1] == q.value;
    }
  }

  function From(row: Row, n: nat): Row {
    if n <= |row| then row[n..] else []
  }

  /** The row's patterns hold strictly of the first `n` arguments. */
  predicate HoldsOfRequired(u: bool, row: Row, n: nat, args: seq<Value>) {
    forall i | 0 <= i < n && i < |row| && i < |args| && row[i].Some? :: Matches(u, args[i], row[i].value)
  }

  /** The row's patterns hold of the arguments present, each in an optional slot, among the first `n`. */
  predicate HoldsOfOptionals(u: bool, row: Row, n: nat, args: seq<Value>) {
    forall i | 0 <= i < n && i < |row| && i < |args| && row[i].Some? :: FillsOptional(u, args[i], row[i].value)
  }

  /** `RowHolds` read category by category: required, optional, rest. */
  lemma RowHoldsByCategory(u: bool, g: MethodGuard, row: Row, args: seq<Value>)
    ensures RowHolds(u, g, row, args) <==>
            && HoldsOfRequired(u, row, |g.required|, args)
            && HoldsOfOptionals(u, From(row, |g.required|), |g.optionals|, Beyond(args, |g.required|))
            && var beyond := From(row, |g.required| + |g.optionals|);
               HoldsOfOptionals(u, beyond, |beyond|, Beyond(args, |g.required| + |g.optionals|))
  {
    var nr := |g.required|;
    var fixed := nr + |g.optionals|;
    var middle, beyond := From(row, nr), From(row, fixed);
    forall i | nr <= i < |row| && i < |args| ensures middle[i - nr] == row[i] && Beyond(args, nr)[i - nr] == args[i] {}
    forall i | fixed <= i < |row| && i < |args| ensures beyond[i - fixed] == row[i] && Beyond(args, fixed)[i - fixed] == args[i] {}
  }

  /** The optional slots conjoined onto a rest guard constrain exactly the arguments present. */
  lemma RestSlotsAreExact(u: bool, beyond: Row, extra: seq<Value>)
    ensures Matches(u, Arr(extra), SplitArray([], FillHoles(Trimmed(beyond)), Any)) <==>
            HoldsOfOptionals(u, beyond, |beyond|, extra)
  {
    var slots := FillHoles(Trimmed(beyond));
    SplitArrayParts(u, [], slots, Any, extra);
    assert Beyond(extra, 0) == extra;
    forall i | 0 <= i < |slots| && i < |extra|
      ensures FillsOptional(u, extra[i], slots[i]) <==> (beyond[i].Some? ==> FillsOptional(u, extra[i], beyond[i].value))
    {
      assert slots[i] == if beyond[i].Some? then beyond[i].value else Any;
    }
  }

  lemma RequiredConjoined(u: bool, guards: seq<Pattern>, row: Row, args: seq<Value>)
    ensures AllMatch(u, ConjoinFrom(guards, row, 0), args) <==>
            AllMatch(u, guards, args) && HoldsOfRequired(u, row, |guards|, args)
  {
    var conjoined := ConjoinFrom(guards, row, 0);
    forall i | 0 <= i < |guards| && i < |args|
      ensures Matches(u, args[i], conjoined[i]) <==>
              Matches(u, args[i], guards[i]) && (i < |row| && row[i].Some? ==> Matches(u, args[i], row[i].value))
    {
      ConjoinIsBoth(u, args[i], guards[i], At(row, i));
    }
  }

  lemma OptionalsConjoined(u: bool, guards: seq<Pattern>, row: Row, offset: nat, later: seq<Value>)
    ensures AllFill(u, ConjoinFrom(guards, row, offset), later) <==>
            AllFill(u, guards, later) && HoldsOfOptionals(u, From(row, offset), |guards|, later)
  {
    var conjoined := ConjoinFrom(guards, row, offset);
    var shifted := From(row, offset);
    forall i | 0 <= i < |guards| && i < |later|
      ensures FillsOptional(u, later[i], conjoined[i]) <==>
              FillsOptional(u, later[i], guards[i]) && (i < |shifted| && shifted[i].Some? ==> FillsOptional(u, later[i], shifted[i].value))
    {
      assert At(row, offset + i) == At(shifted, i);
      ConjoinIsBoth(u, later[i], guards[i], At(row, offset + i));
    }
  }

  /** `AdmitsArgs`, category by category. */
  predicate PartsAdmit(u: bool, required: seq<Pattern>, optionals: seq<Pattern>, rest: Option<Pattern>, args: seq<Value>) {
    && |required| <= |args|
    && AllMatch(u, required, args)
    && AllFill(u, optionals, Beyond(args, |required|))
    && Matches(u, Arr(Beyond(args, |required| + |optionals|)), if rest.Some? then rest.value else Any)
    && (rest.Some? || |args| <= |required| + |optionals|)
  }

  lemma AdmitsByParts(u: bool, g: MethodGuard, args: seq<Value>)
    ensures AdmitsArgs(u, g, args) <==> PartsAdmit(u, g.required, g.optionals, g.rest, args)
  {
    SplitArrayParts(u, g.required, g.optionals, if g.rest.Some? then g.rest.value else Any, args);
  }

  lemma PartsConjoined(u: bool, name: string, g: MethodGuard, row: Row, args: seq<Value>)
    requires NarrowRow(name, g, row).Ok?
    ensures var r := NarrowRow(name, g, row).value;
            PartsAdmit(u, r.required, r.optionals, r.rest, args) <==>
            PartsAdmit(u, g.required, g.optionals, g.rest, args) && RowHolds(u, g, row, args)
  {
    hide AllMatch, AllFill, Matches, HoldsOfRequired, HoldsOfOptionals, RowHolds, ConjoinFrom, FillHoles, Trimmed, AllHoles;
    var fixed := |g.required| + |g.optionals|;
    RequiredConjoined(u, g.required, row, args);
    OptionalsConjoined(u, g.optionals, row, |g.required|, Beyond(args, |g.required|));
    RestConjoined(u, NarrowRow(name, g, row).value.rest, g.rest, From(row, fixed), Beyond(args, fixed));
    RowHoldsByCategory(u, g, row, args);
  }

  /** Narrowing a base method by one row admits exactly what both the base and the row admit. */
  lemma NarrowRowIsExact(u: bool, name: string, g: MethodGuard, row: Row, args: seq<Value>)
    requires NarrowRow(name, g, row).Ok?
    ensures GuardsAdmit(u, NarrowRow(name, g, row).value, args) <==> AdmitsArgs(u, g, args) && RowHolds(u, g, row, args)
  {
    var r := NarrowRow(name, g, row).value;
    PartsConjoined(u, name, g, row, args);
    AdmitsByParts(u, g, args);
    AdmitsByParts(u, MethodGuard(r.required, r.optionals, r.rest, Any), args);
  }

  lemma RestConjoined(u: bool, narrowed: Option<Pattern>, rest: Option<Pattern>, beyond: Row, extra: seq<Value>)
    requires narrowed == if rest.None? || AllHoles(beyond) then rest
                         else Some(And([rest.value, SplitArray([], FillHoles(Trimmed(beyond)), Any)]))
    requires AllHoles(beyond) || rest.Some?
    ensures Matches(u, Arr(extra), if narrowed.Some? then narrowed.value else Any) <==>
            && Matches(u, Arr(extra), if rest.Some? then rest.value else Any)
            && HoldsOfOptionals(u, beyond, |beyond|, extra)
  {
    RestSlotsAreExact(u, beyond, extra);
    if !AllHoles(beyond) {
      ConjoinIsBoth(u, Arr(extra), rest.value, Some(SplitArray([], FillHoles(Trimmed(beyond)), Any)));
    }
  }

  /** A synthesized row admits exactly the calls that present every argument it addresses and meet its patterns. */
  lemma SynthesizeRowIsExact(u: bool, row: Row, args: seq<Value>)
    ensures GuardsAdmit(u, SynthesizeRow(row), args) <==> RowDemands(u, row, args)
  {
    var r := SynthesizeRow(row);
    SplitArrayParts(u, r.required, [], Any, args);
    forall i | 0 <= i < |r.required| ensures r.required[i] == if row[i].Some? then row[i].value else Any {}
    if GuardsAdmit(u, r, args) {
      forall i | 0 <= i < |row| && row[i].Some? ensures i < |args| && Matches(u, args[i], row[i].value) {
        assert i < TrimmedLength(row);
        assert r.required[i] == row[i].value;
      }
    }
    if RowDemands(u, row, args) && r.required != [] {
      assert row[TrimmedLength(row) - 1].Some?;
    }
  }

  /** A rendered method guard admits a call exactly when one of its rows does. */
  lemma RenderIsExact(u: bool, rows: seq<RowGuards>, result: Pattern, args: seq<Value>)
    ensures AdmitsArgs(u, RenderMethodGuard(rows, result), args) <==>
            exists i | 0 <= i < |rows| :: GuardsAdmit(u, rows[i], args)
  {
    if |rows| == 1 {
      assert AdmitsArgs(u, RenderMethodGuard(rows, result), args) <==> GuardsAdmit(u, rows[0], args);
    } else {
      var alternatives := seq(|rows|, i requires 0 <= i < |rows| => RowPattern(rows[i]));
      assert Beyond(args, 0) == args;
      assert AdmitsArgs(u, RenderMethodGuard(rows, result), args) <==> Matches(u, Arr(args), Or(alternatives));
      forall i | 0 <= i < |rows|
        ensures Matches(u, Arr(args), alternatives[i]) <==> GuardsAdmit(u, rows[i], args)
      {
        RenderingsAgree(u, rows[i], args);
      }
      if j :| 0 <= j < |rows| && GuardsAdmit(u, rows[j], args) {
        assert Matches(u, Arr(args), alternatives[j]);
      }
    }
  }

  /** One method of a derived guard admits exactly what its rows mean over the base. */
  lemma NarrowMethodIsExact(u: bool, base: InterfaceGuard, name: string, rows: seq<Row>, args: seq<Value>)
    requires NarrowMethod(base, name, rows).Ok?
    ensures AdmitsArgs(u, NarrowMethod(base, name, rows).value, args) <==> SomeRowAdmits(u, base, name, rows, args)
  {
    if name in base.methods {
      var g := base.methods[name];
      var guards := NarrowRows(name, g, rows).value;
      RenderIsExact(u, guards, g.result, args);
      forall i | 0 <= i < |rows| ensures GuardsAdmit(u, guards[i], args) <==> RowAdmits(u, base, name, rows[i], args) {
        NarrowRowIsExact(u, name, g, rows[i], args);
      }
    } else {
      var guards := seq(|rows|, i requires 0 <= i < |rows| => SynthesizeRow(rows[i]));
      RenderIsExact(u, guards, Any, args);
      forall i | 0 <= i < |rows| ensures GuardsAdmit(u, guards[i], args) <==> RowAdmits(u, base, name, rows[i], args) {
        SynthesizeRowIsExact(u, rows[i], args);
      }
    }
  }

  /** A derived guard never admits a call its base refuses. */
  lemma NarrowingNeverWidens(u: bool, base: InterfaceGuard, d: DisjunctiveDelta, name: string, args: seq<Value>)
    requires DeltaAdmits(u, base, d, name, args)
    ensures Admits(u, base, name, args)
  {
  }
}
