/**
 * Combining recorded deltas: conjunction for narrowing a narrowing, disjunction for a join, and the delta a
 * base contributes when it absorbs (packages/kernel-utils/src/narrow-interface-guard.ts).
 */
module DeltaAlgebra {
  import opened Prelude
  import opened Patterns
  import opened NarrowGuard

  // ------------------------------------------------------------------ conjunction

  function ConjoinEach(inherited: seq<Row>, row: Row): seq<Row> {
    seq(|inherited|, i requires 0 <= i < |inherited| => ConjoinRows(inherited[i], row))
  }

  function Conjoined(existing: DisjunctiveDelta, incoming: NarrowingDelta): DisjunctiveDelta
    requires incoming.Keys <= existing.Keys
  {
    map name | name in incoming :: ConjoinEach(existing[name], incoming[name])
  }

  /** Keys come from `incoming` alone; one that `existing` lacks is a method the narrowing no longer has. */
  method ConjoinDeltas(existing: DisjunctiveDelta, incoming: NarrowingDelta) returns (r: Result<DisjunctiveDelta, NarrowError>)
    ensures r.Ok? <==> incoming.Keys <= existing.Keys
    ensures r.Ok? ==> r.value == Conjoined(existing, incoming)
    ensures r.Err? ==> r.error.NoSuchMethod? && r.error.name in incoming && r.error.name !in existing
  {
    var combined: DisjunctiveDelta := map[];
    var todo := incoming.Keys;
    while todo != {}
      invariant todo <= incoming.Keys && combined.Keys == incoming.Keys - todo
      invariant combined.Keys <= existing.Keys
      invariant forall name | name in combined :: combined[name] == ConjoinEach(existing[name], incoming[name])
      decreases todo
    {
      var name :| name in todo;
      if name !in existing {
        return Err(NoSuchMethod(name));
      }
      combined := combined[name := ConjoinEach(existing[name], incoming[name])];
      todo := todo - {name};
    }
    r := Ok(combined);
  }

  /** A conjoined row admits exactly the calls both rows admit. */
  lemma ConjoinRowsIsBoth(u: bool, base: InterfaceGuard, name: string, left: Row, right: Row, args: seq<Value>)
    ensures RowAdmits(u, base, name, ConjoinRows(left, right), args) <==>
            RowAdmits(u, base, name, left, args) && RowAdmits(u, base, name, right, args)
  {
    var both := ConjoinRows(left, right);
    forall i | 0 <= i < |both| && i < |args|
      ensures (both[i].Some? ==> Matches(u, args[i], both[i].value)) <==>
              (At(left, i).Some? ==> Matches(u, args[i], At(left, i).value)) &&
              (At(right, i).Some? ==> Matches(u, args[i], At(right, i).value))
    {
      if At(left, i).Some? { ConjoinIsBoth(u, args[i], At(left, i).value, At(right, i)); }
    }
    if name in base.methods {
      NamedRowsConjoin(u, base.methods[name], left, right, args);
    } else {
      forall i | 0 <= i < |both| ensures both[i].Some? <==> At(left, i).Some? || At(right, i).Some? {}
      DemandsConjoin(u, left, right, args);
    }
  }

  lemma NamedRowsConjoin(u: bool, g: MethodGuard, left: Row, right: Row, args: seq<Value>)
    ensures RowHolds(u, g, ConjoinRows(left, right), args) <==> RowHolds(u, g, left, args) && RowHolds(u, g, right, args)
  {
    var both := ConjoinRows(left, right);
    forall i | 0 <= i < |both| && i < |args| && both[i].Some?
      ensures Matches(u, args[i], both[i].value) <==>
              (At(left, i).Some? ==> Matches(u, args[i], At(left, i).value)) &&
              (At(right, i).Some? ==> Matches(u, args[i], At(right, i).value))
    {
      if At(left, i).Some? { ConjoinIsBoth(u, args[i], At(left, i).value, At(right, i)); }
    }
    if RowHolds(u, g, both, args) {
      forall i | 0 <= i < |left| && i < |args| && left[i].Some?
        ensures if i < |g.required| then Matches(u, args[i], left[i].value) else FillsOptional(u, args[i], left[i].value)
      {
        assert both[i].Some? && At(left, i) == left[i];
      }
      forall i | 0 <= i < |right| && i < |args| && right[i].Some?
        ensures if i < |g.required| then Matches(u, args[i], right[i].value) else FillsOptional(u, args[i], right[i].value)
      {
        assert both[i].Some? && At(right, i) == right[i];
      }
    }
  }

  lemma DemandsConjoin(u: bool, left: Row, right: Row, args: seq<Value>)
    ensures RowDemands(u, ConjoinRows(left, right), args) <==> RowDemands(u, left, args) && RowDemands(u, right, args)
  {
    var both := ConjoinRows(left, right);
    forall i | 0 <= i < |both| && i < |args| && both[i].Some?
      ensures Matches(u, args[i], both[i].value) <==>
              (At(left, i).Some? ==> Matches(u, args[i], At(left, i).value)) &&
              (At(right, i).Some? ==> Matches(u, args[i], At(right, i).value))
    {
      if At(left, i).Some? { ConjoinIsBoth(u, args[i], At(left, i).value, At(right, i)); }
    }
    if RowDemands(u, both, args) {
      forall i | 0 <= i < |left| && left[i].Some? ensures i < |args| && Matches(u, args[i], left[i].value) {
        assert both[i].Some? && At(left, i) == left[i];
      }
      forall i | 0 <= i < |right| && right[i].Some? ensures i < |args| && Matches(u, args[i], right[i].value) {
        assert both[i].Some? && At(right, i) == right[i];
      }
    }
  }

  /** Flattening: the conjoined delta means the inner narrowing and the new row together. */
  lemma ConjoinIsIntersection(u: bool, base: InterfaceGuard, existing: DisjunctiveDelta, incoming: NarrowingDelta, name: string, args: seq<Value>)
    requires incoming.Keys <= existing.Keys
    ensures DeltaAdmits(u, base, Conjoined(existing, incoming), name, args) <==>
            DeltaAdmits(u, base, existing, name, args) && DeltaAdmits(u, base, Lift(incoming), name, args)
  {
    if name in incoming {
      var rows, row := existing[name], incoming[name];
      forall i | 0 <= i < |rows|
        ensures RowAdmits(u, base, name, ConjoinEach(rows, row)[i], args) <==>
                RowAdmits(u, base, name, rows[i], args) && RowAdmits(u, base, name, row, args)
      {
        ConjoinRowsIsBoth(u, base, name, rows[i], row, args);
      }
      assert SomeRowAdmits(u, base, name, [row], args) <==> RowAdmits(u, base, name, row, args) by {
        assert [row][0] == row;
      }
      if SomeRowAdmits(u, base, name, rows, args) && RowAdmits(u, base, name, row, args) {
        var i :| 0 <= i < |rows| && RowAdmits(u, base, name, rows[i], args);
        assert RowAdmits(u, base, name, ConjoinEach(rows, row)[i], args);
      }
    }
  }

  /** The conjoined delta fits the base exactly when both parts do, for the methods it keeps. */
  lemma ConjoinedFits(base: InterfaceGuard, existing: DisjunctiveDelta, incoming: NarrowingDelta)
    requires incoming.Keys <= existing.Keys && DeltaFits(base, existing)
    requires forall name | name in existing :: existing[name] != []
    ensures DeltaFits(base, Conjoined(existing, incoming)) <==> DeltaFits(base, Lift(incoming))
    ensures forall name, e | name in incoming ::
              Blames(base, name, Conjoined(existing, incoming)[name], e) <==> Blames(base, name, [incoming[name]], e)
  {
    forall name | name in incoming
      ensures MethodFits(base, name, ConjoinEach(existing[name], incoming[name])) <==> MethodFits(base, name, [incoming[name]])
    {
      assert [incoming[name]][0] == incoming[name];
      if name in base.methods {
        assert MethodFits(base, name, existing[name]);
        RowsFitTogether(base.methods[name], existing[name], incoming[name]);
      }
    }
    assert forall name | name in incoming :: Conjoined(existing, incoming)[name] == ConjoinEach(existing[name], incoming[name]);
    assert forall name | name in incoming :: Lift(incoming)[name] == [incoming[name]];
  }

  lemma RowsFitTogether(g: MethodGuard, rows: seq<Row>, row: Row)
    requires rows != [] && forall i | 0 <= i < |rows| :: RowFits(g, rows[i])
    ensures (forall i | 0 <= i < |rows| :: RowFits(g, ConjoinEach(rows, row)[i])) <==> RowFits(g, row)
  {
    forall i | 0 <= i < |rows| ensures RowFits(g, ConjoinRows(rows[i], row)) <==> RowFits(g, row) {
      var both := ConjoinRows(rows[i], row);
      var fixed := |g.required| + |g.optionals|;
      forall k | fixed <= k < |both| && g.rest.None? ensures both[k] == At(row, k) {}
      if g.rest.None? && RowFits(g, both) {
        forall k | fixed <= k < |row| ensures row[k].None? { assert both[k] == At(row, k); }
      }
    }
    assert ConjoinEach(rows, row)[0] == ConjoinRows(rows[0], row);
  }

  // ------------------------------------------------------------------ disjunction

  function RowsOf(d: DisjunctiveDelta, name: string): seq<Row> {
    if name in d then d[name] else []
  }

  predicate SomeRowIsAllHoles(rows: seq<Row>) {
    exists i | 0 <= i < |rows| :: AllHoles(rows[i])
  }

  /** A row of holes admits everything the base does, so it absorbs the method's other rows. */
  function Absorb(rows: seq<Row>): seq<Row> {
    if SomeRowIsAllHoles(rows) then [[]] else rows
  }

  function Disjoined(left: DisjunctiveDelta, right: DisjunctiveDelta): DisjunctiveDelta {
    map name | name in left.Keys + right.Keys :: Absorb(RowsOf(left, name) + RowsOf(right, name))
  }

  method DisjoinDeltas(left: DisjunctiveDelta, right: DisjunctiveDelta) returns (disjoined: DisjunctiveDelta)
    ensures disjoined == Disjoined(left, right)
  {
    disjoined := map[];
    var todo := left.Keys + right.Keys;
    while todo != {}
      invariant todo <= left.Keys + right.Keys && disjoined.Keys == left.Keys + right.Keys - todo
      invariant forall name | name in disjoined :: disjoined[name] == Absorb(RowsOf(left, name) + RowsOf(right, name))
      decreases todo
    {
      var name :| name in todo;
      var rows := RowsOf(left, name) + RowsOf(right, name);
      disjoined := disjoined[name := if exists i | 0 <= i < |rows| :: AllHoles(rows[i]) then [[]] else rows];
      todo := todo - {name};
    }
  }

  /** The empty row admits whatever any row of the method admits. */
  lemma EmptyRowAdmitsMost(u: bool, base: InterfaceGuard, name: string, row: Row, args: seq<Value>)
    requires RowAdmits(u, base, name, row, args)
    ensures RowAdmits(u, base, name, [], args)
  {
  }

  lemma HolesAdmitAsTheBase(u: bool, base: InterfaceGuard, name: string, row: Row, args: seq<Value>)
    requires AllHoles(row)
    ensures RowAdmits(u, base, name, row, args) <==> RowAdmits(u, base, name, [], args)
  {
  }

  /** Absorption changes nothing a method admits. */
  lemma AbsorbKeepsMeaning(u: bool, base: InterfaceGuard, name: string, rows: seq<Row>, args: seq<Value>)
    ensures SomeRowAdmits(u, base, name, Absorb(rows), args) <==> SomeRowAdmits(u, base, name, rows, args)
  {
    if SomeRowIsAllHoles(rows) {
      var h :| 0 <= h < |rows| && AllHoles(rows[h]);
      assert SomeRowAdmits(u, base, name, [[]], args) <==> RowAdmits(u, base, name, [], args) by {
        var only: seq<Row> := [[]];
        assert only[0] == [];
      }
      HolesAdmitAsTheBase(u, base, name, rows[h], args);
      if i :| 0 <= i < |rows| && RowAdmits(u, base, name, rows[i], args) {
        EmptyRowAdmitsMost(u, base, name, rows[i], args);
      }
    }
  }

  lemma ConcatenationIsUnion(u: bool, base: InterfaceGuard, name: string, left: seq<Row>, right: seq<Row>, args: seq<Value>)
    ensures SomeRowAdmits(u, base, name, left + right, args) <==>
            SomeRowAdmits(u, base, name, left, args) || SomeRowAdmits(u, base, name, right, args)
  {
    var rows := left + right;
    if i :| 0 <= i < |left| && RowAdmits(u, base, name, left[i], args) {
      assert rows[i] == left[i];
    }
    if i :| 0 <= i < |right| && RowAdmits(u, base, name, right[i], args) {
      assert rows[|left| + i] == right[i];
    }
  }

  /** A disjoined delta means exactly the union of the two. */
  lemma DisjoinIsUnion(u: bool, base: InterfaceGuard, left: DisjunctiveDelta, right: DisjunctiveDelta, name: string, args: seq<Value>)
    ensures DeltaAdmits(u, base, Disjoined(left, right), name, args) <==>
            DeltaAdmits(u, base, left, name, args) || DeltaAdmits(u, base, right, name, args)
  {
    AbsorbKeepsMeaning(u, base, name, RowsOf(left, name) + RowsOf(right, name), args);
    ConcatenationIsUnion(u, base, name, RowsOf(left, name), RowsOf(right, name), args);
  }

  /** Disjoining deltas that fit the base never makes one that does not. */
  lemma DisjoinedFits(base: InterfaceGuard, left: DisjunctiveDelta, right: DisjunctiveDelta)
    requires DeltaFits(base, left) && DeltaFits(base, right)
    ensures DeltaFits(base, Disjoined(left, right))
  {
  }

  /** A base that guards no method by default contributes every method it names, unconstrained. */
  function AbsorbingDelta(base: InterfaceGuard): Result<DisjunctiveDelta, NarrowError> {
    if !base.defaults.Unnamed? then Err(CannotAbsorb) else Ok(map name | name in base.methods :: [[]])
  }

  /** The absorbing delta means the base itself, and always fits it. */
  lemma AbsorbingDeltaIsTheBase(u: bool, base: InterfaceGuard, name: string, args: seq<Value>)
    requires AbsorbingDelta(base).Ok?
    ensures DeltaAdmits(u, base, AbsorbingDelta(base).value, name, args) <==> Admits(u, base, name, args)
    ensures DeltaFits(base, AbsorbingDelta(base).value)
  {
    var only: seq<Row> := [[]];
    assert only[0] == [];
    if name in base.methods {
      assert AbsorbingDelta(base).value[name] == only;
      assert RowAdmits(u, base, name, [], args) <==> AdmitsArgs(u, base.methods[name], args);
    }
  }

  // ------------------------------------------------------------------ lattice laws

  /** Narrowing distributes over joining, on the methods both operands name. */
  lemma NarrowingDistributes(u: bool, base: InterfaceGuard, a: DisjunctiveDelta, b: DisjunctiveDelta, x: NarrowingDelta, name: string, args: seq<Value>)
    requires x.Keys <= a.Keys && x.Keys <= b.Keys
    ensures DeltaAdmits(u, base, Conjoined(Disjoined(a, b), x), name, args) <==>
            DeltaAdmits(u, base, Disjoined(Conjoined(a, x), Conjoined(b, x)), name, args)
  {
    ConjoinIsIntersection(u, base, Disjoined(a, b), x, name, args);
    DisjoinIsUnion(u, base, a, b, name, args);
    DisjoinIsUnion(u, base, Conjoined(a, x), Conjoined(b, x), name, args);
    ConjoinIsIntersection(u, base, a, x, name, args);
    ConjoinIsIntersection(u, base, b, x, name, args);
  }

  /** A chain of narrowings over one base, each link naming only methods the one before it kept. */
  predicate Chain(existing: DisjunctiveDelta, links: seq<NarrowingDelta>)
    decreases |links|
  {
    links != [] ==> links[0].Keys <= existing.Keys && Chain(Conjoined(existing, links[0]), links[1..])
  }

  function Flattened(existing: DisjunctiveDelta, links: seq<NarrowingDelta>): DisjunctiveDelta
    requires Chain(existing, links)
    decreases |links|
  {
    if links == [] then existing else Flattened(Conjoined(existing, links[0]), links[1..])
  }

  /** A flattened chain of any depth admits exactly what its root and every link admit, and only loses methods. */
  lemma {:induction false} ChainIsIntersection(u: bool, base: InterfaceGuard, existing: DisjunctiveDelta, links: seq<NarrowingDelta>, name: string, args: seq<Value>)
    requires Chain(existing, links)
    ensures DeltaAdmits(u, base, Flattened(existing, links), name, args) <==>
            && DeltaAdmits(u, base, existing, name, args)
            && forall i | 0 <= i < |links| :: DeltaAdmits(u, base, Lift(links[i]), name, args)
    ensures Flattened(existing, links).Keys <= existing.Keys
    ensures forall i | 0 <= i < |links| :: Flattened(existing, links).Keys <= links[i].Keys
    decreases |links|
  {
    if links != [] {
      ConjoinIsIntersection(u, base, existing, links[0], name, args);
      ChainIsIntersection(u, base, Conjoined(existing, links[0]), links[1..], name, args);
      forall i | 0 <= i < |links|
        ensures Flattened(existing, links).Keys <= links[i].Keys
        ensures DeltaAdmits(u, base, Flattened(existing, links), name, args) ==> DeltaAdmits(u, base, Lift(links[i]), name, args)
      {
        if i > 0 { assert links[i] == links[1..][i - 1]; }
      }
      forall i | 0 <= i < |links[1..]| ensures links[1..][i] == links[i + 1] {}
    }
  }

  function JoinAll(ds: seq<DisjunctiveDelta>): DisjunctiveDelta
    requires ds != []
  {
    if |ds| == 1 then ds[0] else Disjoined(JoinAll(ds[..|ds| - 1]), ds[|ds| - 1])
  }

  predicate SomeDeltaAdmits(u: bool, base: InterfaceGuard, ds: seq<DisjunctiveDelta>, name: string, args: seq<Value>) {
    exists i | 0 <= i < |ds| :: DeltaAdmits(u, base, ds[i], name, args)
  }

  lemma {:induction false} JoinAllIsUnion(u: bool, base: InterfaceGuard, ds: seq<DisjunctiveDelta>, name: string, args: seq<Value>)
    requires ds != []
    ensures DeltaAdmits(u, base, JoinAll(ds), name, args) <==> SomeDeltaAdmits(u, base, ds, name, args)
    decreases |ds|
  {
    var k := |ds| - 1;
    if k == 0 {
      assert SomeDeltaAdmits(u, base, ds, name, args) <==> DeltaAdmits(u, base, ds[0], name, args);
    } else {
      var init, last := ds[..k], ds[k];
      JoinAllIsUnion(u, base, init, name, args);
      DisjoinIsUnion(u, base, JoinAll(init), last, name, args);
      LastOrEarlier(u, base, ds, name, args);
    }
  }

  lemma LastOrEarlier(u: bool, base: InterfaceGuard, ds: seq<DisjunctiveDelta>, name: string, args: seq<Value>)
    requires ds != []
    ensures SomeDeltaAdmits(u, base, ds, name, args) <==>
            SomeDeltaAdmits(u, base, ds[..|ds| - 1], name, args) || DeltaAdmits(u, base, ds[|ds| - 1], name, args)
  {
    var init := ds[..|ds| - 1];
    if i :| 0 <= i < |init| && DeltaAdmits(u, base, init[i], name, args) {
      assert ds[i] == init[i];
    }
    if i :| 0 <= i < |ds| && DeltaAdmits(u, base, ds[i], name, args) && i < |init| {
      assert init[i] == ds[i];
    }
  }

  /** A join depends only on which operands it has: it is commutative, associative and idempotent up to admission. */
  lemma JoinIsASemilattice(u: bool, base: InterfaceGuard, ds: seq<DisjunctiveDelta>, es: seq<DisjunctiveDelta>, name: string, args: seq<Value>)
    requires ds != [] && es != []
    requires forall d :: d in ds <==> d in es
    ensures DeltaAdmits(u, base, JoinAll(ds), name, args) <==> DeltaAdmits(u, base, JoinAll(es), name, args)
  {
    JoinAllIsUnion(u, base, ds, name, args);
    JoinAllIsUnion(u, base, es, name, args);
    if i :| 0 <= i < |ds| && DeltaAdmits(u, base, ds[i], name, args) {
      assert ds[i] in es;
    }
    if i :| 0 <= i < |es| && DeltaAdmits(u, base, es[i], name, args) {
      assert es[i] in ds;
    }
  }

  /** The base absorbs: joined with it, any narrowing that fits admits exactly what the base admits. */
  lemma BaseAbsorbs(u: bool, base: InterfaceGuard, d: DisjunctiveDelta, name: string, args: seq<Value>)
    requires AbsorbingDelta(base).Ok? && DeltaFits(base, d)
    ensures DeltaAdmits(u, base, Disjoined(d, AbsorbingDelta(base).value), name, args) <==> Admits(u, base, name, args)
  {
    DisjoinIsUnion(u, base, d, AbsorbingDelta(base).value, name, args);
    AbsorbingDeltaIsTheBase(u, base, name, args);
    if DeltaAdmits(u, base, d, name, args) { NarrowingNeverWidens(u, base, d, name, args); }
  }
}
