/**
 * Passable values, the patterns that match them, and the guards made of patterns.
 *
 * The matcher vocabulary is the part of `@endo/patterns` the narrowing code builds with. Every other
 * matcher is an `Other` leaf, so a base guard may contain anything.
 *
 * `u` says whether an explicit `undefined` fills an optional slot of `M.splitArray`. The repository's own
 * documents leave that open, so every result below is proved for both answers.
 */
module Patterns {
  import opened Prelude

  datatype Value =
    | Undefined
    | Str(s: string)
    | Num(n: int)
    | Arr(elems: seq<Value>)
    | Ref(id: nat)

  datatype Pattern =
    | Any
    | StringKind
    | Eq(v: Value)
    | Not(p: Pattern)
    | And(ps: seq<Pattern>)
    | Or(ps: seq<Pattern>)
    | ArrayOf(p: Pattern)
    | SplitArray(required: seq<Pattern>, optionals: seq<Pattern>, rest: Pattern)
    | Other(test: Value -> bool)

  /** The pattern written `[]`: only the empty array matches it. */
  const EMPTY_ARRAY: Pattern := Eq(Arr([]))

  /** The elements past the first `n`. */
  function Beyond(xs: seq<Value>, n: nat): seq<Value> {
    if n <= |xs| then xs[n..] else []
  }

  predicate Matches(u: bool, v: Value, p: Pattern)
    decreases p
  {
    match p
    case Any => true
    case StringKind => v.Str?
    case Eq(w) => v == w
    case Not(q) => !Matches(u, v, q)
    case And(ps) => forall i | 0 <= i < |ps| :: Matches(u, v, ps[i])
    case Or(ps) => exists i | 0 <= i < |ps| :: Matches(u, v, ps[i])
    case ArrayOf(q) => v.Arr? && forall i | 0 <= i < |v.elems| :: Matches(u, v.elems[i], q)
    case SplitArray(required, optionals, rest) =>
      && v.Arr?
      && |required| <= |v.elems|
      && (forall i | 0 <= i < |required| :: Matches(u, v.elems[i], required[i]))
      && (forall i | 0 <= i < |optionals| ::
            |required| + i < |v.elems| ==>
              (u && v.elems[|required| + i].Undefined?) || Matches(u, v.elems[|required| + i], optionals[i]))
      && Matches(u, Arr(Beyond(v.elems, |required| + |optionals|)), rest)
    case Other(test) => test(v)
  }

  /** An argument that is present meets an optional slot's pattern. */
  predicate FillsOptional(u: bool, v: Value, p: Pattern) {
    (u && v.Undefined?) || Matches(u, v, p)
  }

  datatype MethodGuard = MethodGuard(
    required: seq<Pattern>,
    optionals: seq<Pattern>,
    rest: Option<Pattern>,
    result: Pattern)

  /** How an interface guards the methods it does not name. */
  datatype Defaults = Unnamed | Passable | Raw

  datatype InterfaceGuard = InterfaceGuard(methods: map<string, MethodGuard>, defaults: Defaults)

  /**
   * A method guard admits a call: the whole argument array against `M.splitArray` of the guard's positions,
   * and, without a rest guard, the count against the fixed arity.
   */
  predicate AdmitsArgs(u: bool, g: MethodGuard, args: seq<Value>) {
    && Matches(u, Arr(args), SplitArray(g.required, g.optionals, if g.rest.Some? then g.rest.value else Any))
    && (g.rest.Some? || |args| <= |g.required| + |g.optionals|)
  }

  predicate Admits(u: bool, g: InterfaceGuard, name: string, args: seq<Value>) {
    if name in g.methods then AdmitsArgs(u, g.methods[name], args) else !g.defaults.Unnamed?
  }
}
