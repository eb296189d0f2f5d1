/**
 * Minting narrowings and joins, and the provenance table that makes them compose
 * (packages/kernel-utils/src/narrowing.ts).
 */
module Narrowing {
  import opened Prelude
  import opened Patterns
  import opened NarrowGuard
  import opened DeltaAlgebra

  type Ref = nat

  /** What a minted narrowing was minted from. */
  datatype Provenance = Provenance(base: Ref, delta: DisjunctiveDelta, baseGuard: InterfaceGuard)

  datatype MintError =
    | NoInterfaceGuard
    | NothingMinted
    | DifferentBases
    | NotMinted(index: nat)
    | Refused(error: NarrowError)

  /** A guard admits exactly the calls a delta means over a base. */
  ghost predicate Means(g: InterfaceGuard, base: InterfaceGuard, d: DisjunctiveDelta) {
    forall u, name, args :: Admits(u, g, name, args) <==> DeltaAdmits(u, base, d, name, args)
  }

  predicate NoEmptyMethod(d: DisjunctiveDelta) {
    forall name | name in d :: d[name] != []
  }

  /** A call some operand's guard admits. */
  ghost predicate SomeAdmits(u: bool, guards: map<Ref, InterfaceGuard>, refs: seq<Ref>, name: string, args: seq<Value>) {
    exists i | 0 <= i < |refs| :: refs[i] in guards && Admits(u, guards[refs[i]], name, args)
  }

  /**
   * Every capability in reach that has an interface guard, and the record of the minted ones. A guard never
   * changes once its exo is made.
   */
  class NarrowingLibrary {
    var guards: map<Ref, InterfaceGuard>
    var provenance: map<Ref, Provenance>
    var nextRef: Ref

    ghost predicate RecordHolds(r: Ref)
      reads this
      requires r in provenance
    {
      var p := provenance[r];
      && r in guards
      && p.base in guards && p.base !in provenance
      && guards[p.base] == p.baseGuard
      && NoEmptyMethod(p.delta)
      && DeltaFits(p.baseGuard, p.delta)
      && guards[r].defaults.Unnamed?
      && Means(guards[r], p.baseGuard, p.delta)
      && InheritsResults(guards[r], p.baseGuard)
    }

    ghost predicate Valid()
      reads this
    {
      && (forall r | r in guards :: r < nextRef)
      && (forall r | r in provenance :: RecordHolds(r))
    }

    /** The base a narrowing of `r` forwards to: one hop, whatever the depth of the chain. */
    function Origin(r: Ref): Ref
      reads this
    {
      if r in provenance then provenance[r].base else r
    }

    /** A delta narrows `r`: it names only methods `r` still has, and fits the base they come from. */
    ghost predicate Narrows(r: Ref, delta: NarrowingDelta)
      reads this
    {
      && r in guards
      && (r in provenance ==> delta.Keys <= provenance[r].delta.Keys)
      && Origin(r) in guards
      && DeltaFits(guards[Origin(r)], Lift(delta))
    }

    /** Why `delta` does not narrow `r`: a method `r` no longer has, no guard, or what the base makes of the delta. */
    ghost predicate NarrowingFails(r: Ref, delta: NarrowingDelta, e: MintError)
      reads this
    {
      if r in provenance && !(delta.Keys <= provenance[r].delta.Keys) then
        e.Refused? && e.error.NoSuchMethod? && e.error.name in delta && e.error.name !in provenance[r].delta
      else if Origin(r) !in guards then e.NoInterfaceGuard?
      else e.Refused? && exists name | name in delta :: Blames(guards[Origin(r)], name, [delta[name]], e.error)
    }

    /** Why the refs do not join. */
    ghost predicate JoiningFails(refs: seq<Ref>, e: MintError)
      reads this
    {
      match e
      case NothingMinted => forall i | 0 <= i < |refs| :: refs[i] !in provenance
      case DifferentBases =>
        exists i, j | 0 <= i < |refs| && 0 <= j < |refs| ::
          refs[i] in provenance && refs[j] in provenance && Origin(refs[i]) != Origin(refs[j])
      case NotMinted(k) =>
        && k < |refs| && refs[k] !in provenance
        && exists j | 0 <= j < |refs| :: refs[j] in provenance && Origin(refs[j]) != refs[k]
      case Refused(reason) =>
        && reason.CannotAbsorb?
        && exists i | 0 <= i < |refs| :: refs[i] !in provenance && refs[i] in guards && !guards[refs[i]].defaults.Unnamed?
      case NoInterfaceGuard => false
    }

    /** The refs share a base, some ref was minted, and only a base that can absorb stands unminted. */
    ghost predicate Joins(refs: seq<Ref>)
      reads this
    {
      && (exists i | 0 <= i < |refs| :: refs[i] in provenance)
      && (forall i, j | 0 <= i < |refs| && 0 <= j < |refs| :: Origin(refs[i]) == Origin(refs[j]))
      && (forall i | 0 <= i < |refs| && refs[i] !in provenance :: refs[i] in guards && guards[refs[i]].defaults.Unnamed?)
    }

    constructor (capabilities: map<Ref, InterfaceGuard>, bound: Ref)
      requires forall r | r in capabilities :: r < bound
      ensures Valid() && guards == capabilities && provenance == map[]
    {
      guards := capabilities;
      provenance := map[];
      nextRef := bound;
    }

    /** Mint an exo under the guard `delta` derives from `baseGuard`, and record what it was minted from. */
    method Mint(base: Ref, baseGuard: InterfaceGuard, delta: DisjunctiveDelta) returns (r: Result<Ref, MintError>)
      requires Valid()
      requires base in guards && base !in provenance && guards[base] == baseGuard && NoEmptyMethod(delta)
      modifies this
      ensures Valid()
      ensures r.Ok? <==> DeltaFits(baseGuard, delta)
      ensures r.Err? ==> unchanged(this) && r.error.Refused? && exists name | name in delta :: Blames(baseGuard, name, delta[name], r.error.error)
      ensures r.Ok? ==>
                && r.value !in old(guards) && r.value in guards
                && guards - {r.value} == old(guards) - {r.value}
                && provenance == old(provenance)[r.value := Provenance(base, delta, baseGuard)]
                && Means(guards[r.value], baseGuard, delta) && InheritsResults(guards[r.value], baseGuard)
    {
      var derived := NarrowInterfaceGuard(baseGuard, delta);
      match derived
      case Err(e) =>
        r := Err(Refused(e));
      case Ok(g) =>
        guards := guards[nextRef := g];
        provenance := provenance[nextRef := Provenance(base, delta, baseGuard)];
        r := Ok(nextRef);
        nextRef := nextRef + 1;
        assert Means(g, baseGuard, delta);
        forall other | other in provenance ensures RecordHolds(other) {
          if other != r.value {
            assert other in old(provenance) && old(RecordHolds(other));
          }
        }
    }

    /** Narrow a capability; narrowing a narrowing conjoins onto its record and forwards to its base. */
    method Narrow(base: Ref, delta: NarrowingDelta) returns (r: Result<Ref, MintError>)
      requires Valid()
      modifies this
      ensures Valid()
      ensures r.Ok? <==> old(Narrows(base, delta))
      ensures r.Err? ==> unchanged(this) && NarrowingFails(base, delta, r.error)
      ensures r.Ok? ==>
                && r.value !in old(guards) && r.value in guards
                && guards - {r.value} == old(guards) - {r.value}
                && provenance.Keys == old(provenance.Keys) + {r.value}
                && provenance - {r.value} == old(provenance) - {r.value}
                && Origin(r.value) == old(Origin(base)) && InheritsResults(guards[r.value], guards[Origin(r.value)])
      ensures r.Ok? ==>
                forall u, name, args :: Admits(u, guards[r.value], name, args) <==>
                  Admits(u, old(guards)[base], name, args) && DeltaAdmits(u, old(guards)[old(Origin(base))], Lift(delta), name, args)
    {
      var target := Origin(base);
      var combined: DisjunctiveDelta;
      if base in provenance {
        assert RecordHolds(base);
        var c := ConjoinDeltas(provenance[base].delta, delta);
        if c.Err? {
          return Err(Refused(c.error));
        }
        combined := c.value;
        ConjoinedFits(provenance[base].baseGuard, provenance[base].delta, delta);
      } else {
        combined := Lift(delta);
      }
      if target !in guards {
        return Err(NoInterfaceGuard);
      }
      ghost var before := guards;
      forall u: bool, name: string, args: seq<Value>
        ensures DeltaAdmits(u, before[target], combined, name, args) <==>
                Admits(u, before[base], name, args) && DeltaAdmits(u, before[target], Lift(delta), name, args)
      {
        if base in provenance {
          ConjoinIsIntersection(u, before[target], provenance[base].delta, delta, name, args);
          assert Means(guards[base], provenance[base].baseGuard, provenance[base].delta);
        } else if DeltaAdmits(u, before[target], combined, name, args) {
          NarrowingNeverWidens(u, before[target], combined, name, args);
        }
      }
      r := Mint(target, guards[target], combined);
    }

    /** Join refs of one base into a narrowing that admits exactly what any of them admits. */
    method Join(refs: seq<Ref>) returns (r: Result<Ref, MintError>)
      requires Valid()
      modifies this
      ensures Valid()
      ensures r.Ok? <==> old(Joins(refs))
      ensures r.Err? ==> unchanged(this) && JoiningFails(refs, r.error)
      ensures r.Ok? ==>
                && r.value !in old(guards) && r.value in guards
                && guards - {r.value} == old(guards) - {r.value}
                && provenance.Keys == old(provenance.Keys) + {r.value}
                && provenance - {r.value} == old(provenance) - {r.value}
                && Origin(r.value) == old(Origin(refs[0])) && InheritsResults(guards[r.value], guards[Origin(r.value)])
                && (forall i | 0 <= i < |refs| :: refs[i] in old(guards))
      ensures r.Ok? ==>
                forall u, name, args :: Admits(u, guards[r.value], name, args) <==>
                  SomeAdmits(u, old(guards), refs, name, args)
    {
      hide Admits, DeltaAdmits, SomeAdmits, DeltaFits, NoEmptyMethod, AbsorbingDelta, Disjoined, Blames, InheritsResults;
      var first := 0;
      while first < |refs| && refs[first] !in provenance
        invariant 0 <= first <= |refs|
        invariant forall i | 0 <= i < first :: refs[i] !in provenance
      {
        first := first + 1;
      }
      if first == |refs| {
        return Err(NothingMinted);
      }
      assert RecordHolds(refs[first]);
      var base, baseGuard := provenance[refs[first]].base, provenance[refs[first]].baseGuard;
      if exists i | 0 <= i < |refs| :: refs[i] in provenance && provenance[refs[i]].base != base {
        return Err(DifferentBases);
      }
      var joined: DisjunctiveDelta := map[];
      NothingJoined(baseGuard, guards);
      var k := 0;
      while k < |refs|
        invariant unchanged(this) && 0 <= k <= |refs|
        invariant forall i | 0 <= i < k :: refs[i] in guards && Origin(refs[i]) == base
        invariant forall i | 0 <= i < k && refs[i] !in provenance :: guards[refs[i]].defaults.Unnamed?
        invariant NoEmptyMethod(joined) && DeltaFits(baseGuard, joined)
        invariant forall u, name, args :: DeltaAdmits(u, baseGuard, joined, name, args) <==> SomeAdmits(u, guards, refs[..k], name, args)
      {
        var delta: DisjunctiveDelta;
        if refs[k] in provenance {
          assert RecordHolds(refs[k]);
          delta := provenance[refs[k]].delta;
        } else {
          if refs[k] != base {
            assert Origin(refs[k]) != Origin(refs[first]);
            return Err(NotMinted(k));
          }
          AbsorbingNeedsNames(baseGuard);
          var absorbing := AbsorbingDelta(baseGuard);
          if absorbing.Err? {
            assert refs[k] in guards && !guards[refs[k]].defaults.Unnamed?;
            return Err(Refused(absorbing.error));
          }
          delta := absorbing.value;
          AbsorbingDeltaMeansBase(baseGuard);
        }
        assert Means(guards[refs[k]], baseGuard, delta);
        JoinStep(baseGuard, joined, delta, guards, refs[..k], refs[k]);
        assert refs[..k + 1] == refs[..k] + [refs[k]];
        if k == 0 {
          joined := delta;
        } else {
          joined := DisjoinDeltas(joined, delta);
        }
        k := k + 1;
      }
      assert refs[..k] == refs;
      assert forall i | 0 <= i < |refs| :: refs[i] in guards && Origin(refs[i]) == base;
      r := Mint(base, baseGuard, joined);
    }
  }

  /** Before any operand: no call is admitted, by the delta or by an operand. */
  lemma NothingJoined(base: InterfaceGuard, guards: map<Ref, InterfaceGuard>)
    ensures NoEmptyMethod(map[]) && DeltaFits(base, map[])
    ensures forall u, name, args :: DeltaAdmits(u, base, map[], name, args) <==> SomeAdmits(u, guards, [], name, args)
  {
  }

  lemma AbsorbingNeedsNames(base: InterfaceGuard)
    ensures AbsorbingDelta(base).Ok? <==> base.defaults.Unnamed?
    ensures AbsorbingDelta(base).Err? ==> AbsorbingDelta(base).error == CannotAbsorb
  {
  }

  lemma AbsorbingDeltaMeansBase(base: InterfaceGuard)
    requires AbsorbingDelta(base).Ok?
    ensures Means(base, base, AbsorbingDelta(base).value)
    ensures DeltaFits(base, AbsorbingDelta(base).value) && NoEmptyMethod(AbsorbingDelta(base).value)
  {
    forall u: bool, name: string, args: seq<Value>
      ensures Admits(u, base, name, args) <==> DeltaAdmits(u, base, AbsorbingDelta(base).value, name, args)
    {
      AbsorbingDeltaIsTheBase(u, base, name, args);
    }
    AbsorbingDeltaIsTheBase(true, base, "", []);
  }

  /** One operand more: the delta so far and the operand's, against the operands so far and this one. */
  lemma JoinStep(base: InterfaceGuard, joined: DisjunctiveDelta, delta: DisjunctiveDelta, guards: map<Ref, InterfaceGuard>, refs: seq<Ref>, ref: Ref)
    requires ref in guards && Means(guards[ref], base, delta)
    requires NoEmptyMethod(joined) && DeltaFits(base, joined) && NoEmptyMethod(delta) && DeltaFits(base, delta)
    requires forall u, name, args :: DeltaAdmits(u, base, joined, name, args) <==> SomeAdmits(u, guards, refs, name, args)
    ensures NoEmptyMethod(Disjoined(joined, delta)) && DeltaFits(base, Disjoined(joined, delta))
    ensures forall u, name, args :: DeltaAdmits(u, base, Disjoined(joined, delta), name, args) <==> SomeAdmits(u, guards, refs + [ref], name, args)
    ensures refs == [] ==> forall u, name, args :: DeltaAdmits(u, base, delta, name, args) <==> SomeAdmits(u, guards, refs + [ref], name, args)
  {
    DisjoinedFits(base, joined, delta);
    forall u: bool, name: string, args: seq<Value>
      ensures DeltaAdmits(u, base, Disjoined(joined, delta), name, args) <==> SomeAdmits(u, guards, refs + [ref], name, args)
      ensures refs == [] ==> (DeltaAdmits(u, base, delta, name, args) <==> SomeAdmits(u, guards, refs + [ref], name, args))
    {
      DisjoinIsUnion(u, base, joined, delta, name, args);
      OneOperandMore(u, guards, refs, ref, name, args);
    }
  }

  lemma OneOperandMore(u: bool, guards: map<Ref, InterfaceGuard>, refs: seq<Ref>, ref: Ref, name: string, args: seq<Value>)
    requires ref in guards
    ensures SomeAdmits(u, guards, refs + [ref], name, args) <==>
            SomeAdmits(u, guards, refs, name, args) || Admits(u, guards[ref], name, args)
  {
    var more := refs + [ref];
    if i :| 0 <= i < |refs| && refs[i] in guards && Admits(u, guards[refs[i]], name, args) {
      assert more[i] == refs[i];
    }
    assert more[|refs|] == ref;
  }
}
