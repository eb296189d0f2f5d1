/** Prefix patterns over segment arrays (packages/kernel-utils/src/narrowing.ts). */
module PathUnder {
  import opened Patterns

  const PARENT: string := ".."

  function PathUnder(segments: seq<string>): Pattern {
    SplitArray(
      seq(|segments|, i requires 0 <= i < |segments| => Eq(Str(segments[i]))),
      [],
      ArrayOf(And([StringKind, Not(Eq(Str(PARENT)))])))
  }

  /** An array of strings, none of them `..`. */
  predicate Descends(vs: seq<Value>) {
    forall i | 0 <= i < |vs| :: vs[i].Str? && vs[i].s != PARENT
  }

  /** The pattern matches exactly the arrays that start with the prefix and then only descend. */
  lemma PathUnderMatches(u: bool, v: Value, segments: seq<string>)
    ensures Matches(u, v, PathUnder(segments)) <==>
            && v.Arr? && |segments| <= |v.elems|
            && (forall i | 0 <= i < |segments| :: v.elems[i] == Str(segments[i]))
            && Descends(v.elems[|segments|..])
  {
    if v.Arr? && |segments| <= |v.elems| {
      var parts := [StringKind, Not(Eq(Str(PARENT)))];
      assert parts[0] == StringKind && parts[1] == Not(Eq(Str(PARENT)));
      var tail := Beyond(v.elems, |segments|);
      assert tail == v.elems[|segments|..];
      forall w: Value ensures Matches(u, w, And(parts)) <==> w.Str? && w.s != PARENT {}
      assert Matches(u, Arr(tail), ArrayOf(And(parts))) <==> Descends(tail);
      var required := PathUnder(segments).required;
      forall i | 0 <= i < |segments| ensures Matches(u, v.elems[i], required[i]) <==> v.elems[i] == Str(segments[i]) {}
    }
  }

  function Segments(names: seq<string>): seq<Value> {
    seq(|names|, i requires 0 <= i < |names| => Str(names[i]))
  }

  /**
   * A longer prefix matches no more than a shorter one, exactly when the segments added hold no `..`: the
   * exclusion guards the remainder only, so a `..` written into the prefix itself climbs out.
   */
  lemma LongerPrefixNarrows(u: bool, prefix: seq<string>, more: seq<string>)
    ensures (forall v :: Matches(u, v, PathUnder(prefix + more)) ==> Matches(u, v, PathUnder(prefix))) <==> PARENT !in more
  {
    var longer := prefix + more;
    if PARENT !in more {
      forall v | Matches(u, v, PathUnder(longer)) ensures Matches(u, v, PathUnder(prefix)) {
        PathUnderMatches(u, v, longer);
        PathUnderMatches(u, v, prefix);
        assert forall i | 0 <= i < |prefix| :: longer[i] == prefix[i];
        forall i | |prefix| <= i < |v.elems| ensures v.elems[i].Str? && v.elems[i].s != PARENT {
          if i < |longer| {
            assert longer[i] == more[i - |prefix|];
          } else {
            assert v.elems[|longer|..][i - |longer|] == v.elems[i];
          }
        }
      }
    } else {
      var k :| 0 <= k < |more| && more[k] == PARENT;
      var v := Arr(Segments(longer));
      PathUnderMatches(u, v, longer);
      PathUnderMatches(u, v, prefix);
      assert v.elems[|prefix|..][k] == Str(longer[|prefix| + k]);
      assert Matches(u, v, PathUnder(longer)) && !Matches(u, v, PathUnder(prefix));
    }
  }

  /** No prefix without `..` admits a path holding one anywhere. */
  lemma NoClimbing(u: bool, v: Value, segments: seq<string>)
    requires Matches(u, v, PathUnder(segments)) && PARENT !in segments
    ensures Descends(v.elems)
  {
    PathUnderMatches(u, v, segments);
    forall i | 0 <= i < |v.elems| ensures v.elems[i].Str? && v.elems[i].s != PARENT {
      if i < |segments| {
        assert v.elems[i].s == segments[i] && segments[i] in segments;
      } else {
        assert v.elems[|segments|..][i - |segments|] == v.elems[i];
      }
    }
  }
}
