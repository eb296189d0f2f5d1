/**
 * Metadata of the candidates for a dispatch: the key that tells candidates apart, collapsing the alike,
 * and splitting what all share from what distinguishes them (packages/sheaves/src/sheafify.ts).
 *
 * `text` gives the JSON text of an object, by identity; `leq` is the locale's comparison of property names.
 */
module SheafMetadata {
  import opened Prelude

  /** A metadata value. `Object.is` is equality here: objects and functions go by identity, `Number(0.0)` is +0. */
  datatype MValue =
    | Undefined
    | Null
    | NotANumber
    | Infinite(positive: bool)
    | NegativeZero
    | Number(n: real)
    | BigInt(i: int)
    | Text(s: string)
    | Truth(b: bool)
    | Obj(id: nat)
    | Callable(id: nat)

  datatype Prop = Prop(name: string, value: MValue)

  /** A plain object: its own properties, in the order they were made. */
  type Metadata = seq<Prop>

  predicate IsRecord(m: Metadata) {
    forall i, j | 0 <= i < j < |m| :: m[i].name != m[j].name
  }

  function Lookup(m: Metadata, name: string): Option<MValue> {
    if m == [] then None else if m[0].name == name then Some(m[0].value) else Lookup(m[1..], name)
  }

  // ------------------------------------------------------------------ the key of a record

  datatype Json = JNull | JNumber(n: real) | JNumeral(i: int) | JString(s: string) | JTruth(b: bool) | JObject(text: string)

  /** The second field of an entry: the value's `typeof`, or a name for what JSON would conflate. */
  datatype Tag =
    | TagUndefined | TagBigInt | TagNaN | TagInfinity | TagMinusInfinity | TagMinusZero
    | TagNumber | TagString | TagBoolean | TagObject | TagFunction

  datatype Encoded = Encoded(key: string, tag: Tag, value: Json)

  function EncodeEntry(text: nat -> string, key: string, v: MValue): Encoded {
    match v
    case Undefined => Encoded(key, TagUndefined, JNull)
    case BigInt(i) => Encoded(key, TagBigInt, JNumeral(i))
    case NotANumber => Encoded(key, TagNaN, JNull)
    case Infinite(positive) => Encoded(key, if positive then TagInfinity else TagMinusInfinity, JNull)
    case NegativeZero => Encoded(key, TagMinusZero, JNull)
    case Number(n) => Encoded(key, TagNumber, JNumber(n))
    case Text(s) => Encoded(key, TagString, JString(s))
    case Truth(b) => Encoded(key, TagBoolean, JTruth(b))
    case Null => Encoded(key, TagObject, JNull)
    case Obj(id) => Encoded(key, TagObject, JObject(text(id)))
    case Callable(_) => Encoded(key, TagFunction, JNull)
  }

  /** Values a key cannot tell apart: the same value, objects with the same JSON text, any two functions. */
  predicate AlikeValues(text: nat -> string, v: MValue, w: MValue) {
    || v == w
    || (v.Obj? && w.Obj? && text(v.id) == text(w.id))
    || (v.Callable? && w.Callable?)
  }

  lemma EncodingTellsApart(text: nat -> string, k: string, l: string, v: MValue, w: MValue)
    ensures EncodeEntry(text, k, v) == EncodeEntry(text, l, w) <==> k == l && AlikeValues(text, v, w)
  {
  }

  function Encodings(text: nat -> string, m: Metadata): (es: seq<Encoded>)
    ensures |es| == |m| && forall i | 0 <= i < |m| :: es[i] == EncodeEntry(text, m[i].name, m[i].value)
  {
    seq(|m|, i requires 0 <= i < |m| => EncodeEntry(text, m[i].name, m[i].value))
  }

  function Insert(leq: (string, string) -> bool, e: Encoded, es: seq<Encoded>): seq<Encoded> {
    if es == [] || leq(e.key, es[0].key) then [e] + es else [es[0]] + Insert(leq, e, es[1..])
  }

  /** A stable sort by property name. */
  function Sort(leq: (string, string) -> bool, es: seq<Encoded>): seq<Encoded> {
    if es == [] then [] else Insert(leq, es[0], Sort(leq, es[1..]))
  }

  /** The text by which candidates are told apart; an empty record has a text of its own. */
  function MetadataKey(text: nat -> string, leq: (string, string) -> bool, m: Metadata): Option<seq<Encoded>> {
    if m == [] then None else Some(Sort(leq, Encodings(text, m)))
  }

  // ------------------------------------------------------------------ sorting

  ghost predicate IsOrder(leq: (string, string) -> bool) {
    && (forall a, b :: leq(a, b) || leq(b, a))
    && (forall a, b, c :: leq(a, b) && leq(b, c) ==> leq(a, c))
  }

  /** No two names of the record compare equal. */
  ghost predicate TellsNamesApart(leq: (string, string) -> bool, m: Metadata) {
    forall i, j | 0 <= i < |m| && 0 <= j < |m| && leq(m[i].name, m[j].name) && leq(m[j].name, m[i].name) :: m[i].name == m[j].name
  }

  ghost predicate Sorted(leq: (string, string) -> bool, es: seq<Encoded>) {
    forall i, j | 0 <= i < j < |es| :: leq(es[i].key, es[j].key)
  }

  lemma {:induction false} InsertKeeps(leq: (string, string) -> bool, e: Encoded, es: seq<Encoded>)
    ensures multiset(Insert(leq, e, es)) == multiset{e} + multiset(es)
  {
    if es != [] && !leq(e.key, es[0].key) {
      InsertKeeps(leq, e, es[1..]);
      assert es == [es[0]] + es[1..];
    }
  }

  lemma {:induction false} SortKeeps(leq: (string, string) -> bool, es: seq<Encoded>)
    ensures multiset(Sort(leq, es)) == multiset(es)
  {
    if es != [] {
      SortKeeps(leq, es[1..]);
      InsertKeeps(leq, es[0], Sort(leq, es[1..]));
      assert es == [es[0]] + es[1..];
    }
  }

  lemma {:induction false} InsertSorts(leq: (string, string) -> bool, e: Encoded, es: seq<Encoded>)
    requires IsOrder(leq) && Sorted(leq, es)
    ensures Sorted(leq, Insert(leq, e, es))
  {
    if es != [] {
      if leq(e.key, es[0].key) {
        assert forall j | 0 < j < |es| :: leq(es[0].key, es[j].key) && leq(e.key, es[j].key);
      } else {
        InsertSorts(leq, e, es[1..]);
        InsertKeeps(leq, e, es[1..]);
        var more := Insert(leq, e, es[1..]);
        forall j | 0 <= j < |more| ensures leq(es[0].key, more[j].key) {
          assert more[j] in multiset(more);
          assert more[j] == e || more[j] in es[1..];
        }
      }
    }
  }

  lemma {:induction false} SortSorts(leq: (string, string) -> bool, es: seq<Encoded>)
    requires IsOrder(leq)
    ensures Sorted(leq, Sort(leq, es))
  {
    if es != [] { SortSorts(leq, es[1..]); InsertSorts(leq, es[0], Sort(leq, es[1..])); }
  }

  /** Only equal entries compare equal. */
  ghost predicate TiesAreEqual(leq: (string, string) -> bool, es: seq<Encoded>) {
    forall i, j | 0 <= i < |es| && 0 <= j < |es| && leq(es[i].key, es[j].key) && leq(es[j].key, es[i].key) :: es[i] == es[j]
  }

  lemma SameElements(a: seq<Encoded>, b: seq<Encoded>, i: nat) returns (j: nat)
    requires multiset(a) == multiset(b) && i < |a|
    ensures j < |b| && b[j] == a[i]
  {
    assert a[i] in multiset(b);
    j :| 0 <= j < |b| && b[j] == a[i];
  }

  lemma FirstsAgree(leq: (string, string) -> bool, a: seq<Encoded>, b: seq<Encoded>)
    requires IsOrder(leq) && Sorted(leq, a) && Sorted(leq, b) && multiset(a) == multiset(b) && TiesAreEqual(leq, a) && a != [] && b != []
    ensures a[0] == b[0]
  {
    var i := SameElements(b, a, 0);
    var j := SameElements(a, b, 0);
    assert leq(a[0].key, a[i].key) && leq(b[0].key, b[j].key);
    assert a[0] == a[i];
  }

  lemma WithoutFirst(a: seq<Encoded>)
    requires a != []
    ensures multiset(a[1..]) == multiset(a) - multiset{a[0]}
  {
    assert a == [a[0]] + a[1..];
  }

  /** Two sorted lists of the same entries are one list, if only equal entries compare equal. */
  lemma {:induction false} SortedIsUnique(leq: (string, string) -> bool, a: seq<Encoded>, b: seq<Encoded>)
    requires IsOrder(leq) && Sorted(leq, a) && Sorted(leq, b) && multiset(a) == multiset(b) && TiesAreEqual(leq, a)
    ensures a == b
  {
    assert |multiset(a)| == |a| && |multiset(b)| == |b|;
    if a != [] {
      FirstsAgree(leq, a, b);
      WithoutFirst(a);
      WithoutFirst(b);
      SortedIsUnique(leq, a[1..], b[1..]);
      assert a == [a[0]] + a[1..] && b == [b[0]] + b[1..];
    }
  }

  // ------------------------------------------------------------------ what the key says

  /** The same names, each with values the key cannot tell apart. */
  ghost predicate Alike(text: nat -> string, a: Metadata, b: Metadata) {
    forall name :: AlikeAt(text, a, b, name)
  }

  predicate AlikeAt(text: nat -> string, a: Metadata, b: Metadata, name: string) {
    match (Lookup(a, name), Lookup(b, name))
    case (None, None) => true
    case (Some(v), Some(w)) => AlikeValues(text, v, w)
    case _ => false
  }

  lemma {:induction false} LookupFinds(m: Metadata, i: nat)
    requires IsRecord(m) && i < |m|
    ensures Lookup(m, m[i].name) == Some(m[i].value)
  {
    if i > 0 { LookupFinds(m[1..], i - 1); }
  }

  lemma {:induction false} LookupAt(m: Metadata, name: string) returns (i: nat)
    requires Lookup(m, name).Some?
    ensures i < |m| && m[i] == Prop(name, Lookup(m, name).value)
  {
    if m[0].name == name { i := 0; } else { i := LookupAt(m[1..], name); i := i + 1; }
  }

  lemma AlikeIsSymmetric(text: nat -> string, a: Metadata, b: Metadata)
    requires Alike(text, a, b)
    ensures Alike(text, b, a)
  {
    forall name ensures AlikeAt(text, b, a, name) { assert AlikeAt(text, a, b, name); }
  }

  lemma EntryHasAlike(text: nat -> string, a: Metadata, b: Metadata, i: nat) returns (j: nat)
    requires IsRecord(a) && i < |a| && Alike(text, a, b)
    ensures j < |b| && Encodings(text, b)[j] == Encodings(text, a)[i]
  {
    LookupFinds(a, i);
    assert AlikeAt(text, a, b, a[i].name);
    j := LookupAt(b, a[i].name);
    EncodingTellsApart(text, a[i].name, b[j].name, a[i].value, b[j].value);
  }

  lemma {:induction false} OnceEach(es: seq<Encoded>, e: Encoded)
    requires forall i, j | 0 <= i < j < |es| :: es[i].key != es[j].key
    ensures multiset(es)[e] == if e in es then 1 else 0
  {
    if es != [] {
      OnceEach(es[1..], e);
      assert es == [es[0]] + es[1..];
      assert multiset(es) == multiset{es[0]} + multiset(es[1..]);
    }
  }

  lemma AlikeMeansSameEntries(text: nat -> string, a: Metadata, b: Metadata)
    requires IsRecord(a) && IsRecord(b) && Alike(text, a, b)
    ensures multiset(Encodings(text, a)) == multiset(Encodings(text, b))
  {
    var x, y := Encodings(text, a), Encodings(text, b);
    AlikeIsSymmetric(text, a, b);
    forall e ensures multiset(x)[e] == multiset(y)[e] {
      OnceEach(x, e);
      OnceEach(y, e);
      if e in x {
        var i :| 0 <= i < |x| && x[i] == e;
        var j := EntryHasAlike(text, a, b, i);
      }
      if e in y {
        var i :| 0 <= i < |y| && y[i] == e;
        var j := EntryHasAlike(text, b, a, i);
      }
    }
  }

  lemma SameEntriesAt(text: nat -> string, a: Metadata, b: Metadata, name: string)
    requires IsRecord(a) && IsRecord(b) && multiset(Encodings(text, a)) == multiset(Encodings(text, b)) && Lookup(a, name).Some?
    ensures AlikeAt(text, a, b, name)
  {
    var x, y := Encodings(text, a), Encodings(text, b);
    var i := LookupAt(a, name);
    assert x[i] in multiset(y) && x[i] in y;
    var j :| 0 <= j < |y| && y[j] == x[i];
    EncodingTellsApart(text, a[i].name, b[j].name, a[i].value, b[j].value);
    LookupFinds(b, j);
  }

  lemma SameEntriesMeansAlike(text: nat -> string, a: Metadata, b: Metadata)
    requires IsRecord(a) && IsRecord(b) && multiset(Encodings(text, a)) == multiset(Encodings(text, b))
    ensures Alike(text, a, b)
  {
    forall name ensures AlikeAt(text, a, b, name) {
      if Lookup(a, name).Some? { SameEntriesAt(text, a, b, name); }
      if Lookup(b, name).Some? { SameEntriesAt(text, b, a, name); }
    }
  }

  /** Candidates with one key are alike. */
  lemma SameKeyMeansAlike(text: nat -> string, leq: (string, string) -> bool, a: Metadata, b: Metadata)
    requires IsRecord(a) && IsRecord(b) && MetadataKey(text, leq, a) == MetadataKey(text, leq, b)
    ensures Alike(text, a, b)
  {
    SortKeeps(leq, Encodings(text, a));
    SortKeeps(leq, Encodings(text, b));
    SameEntriesMeansAlike(text, a, b);
  }

  lemma EncodedTies(text: nat -> string, leq: (string, string) -> bool, m: Metadata)
    requires IsRecord(m) && TellsNamesApart(leq, m)
    ensures TiesAreEqual(leq, Encodings(text, m))
  {
    hide EncodeEntry;
    var es := Encodings(text, m);
    forall i, j | 0 <= i < |es| && 0 <= j < |es| && leq(es[i].key, es[j].key) && leq(es[j].key, es[i].key) ensures es[i] == es[j] {
      EntryKey(text, m[i]);
      EntryKey(text, m[j]);
      assert m[i].name == m[j].name;
    }
  }

  lemma EntryKey(text: nat -> string, p: Prop)
    ensures EncodeEntry(text, p.name, p.value).key == p.name
  {
  }

  lemma TiesStayEqual(leq: (string, string) -> bool, a: seq<Encoded>, b: seq<Encoded>)
    requires TiesAreEqual(leq, a) && multiset(a) == multiset(b)
    ensures TiesAreEqual(leq, b)
  {
    forall i, j | 0 <= i < |b| && 0 <= j < |b| && leq(b[i].key, b[j].key) && leq(b[j].key, b[i].key) ensures b[i] == b[j] {
      var k := SameElements(b, a, i);
      var l := SameElements(b, a, j);
      assert a[k] == a[l];
    }
  }

  /** Alike candidates have one key, however their properties are ordered, if no two of their names compare equal. */
  lemma AlikeMeansSameKey(text: nat -> string, leq: (string, string) -> bool, a: Metadata, b: Metadata)
    requires IsRecord(a) && IsRecord(b) && Alike(text, a, b) && IsOrder(leq) && TellsNamesApart(leq, a)
    ensures MetadataKey(text, leq, a) == MetadataKey(text, leq, b)
  {
    hide IsOrder, Sorted, TiesAreEqual, Alike, EncodeEntry, Sort;
    var x, y := Encodings(text, a), Encodings(text, b);
    AlikeMeansSameEntries(text, a, b);
    EncodedTies(text, leq, a);
    SortKeeps(leq, x);
    SortKeeps(leq, y);
    SortSorts(leq, x);
    SortSorts(leq, y);
    TiesStayEqual(leq, x, Sort(leq, x));
    SortedIsUnique(leq, Sort(leq, x), Sort(leq, y));
    assert |multiset(x)| == |x| && |multiset(y)| == |y|;
  }

  // ------------------------------------------------------------------ collapsing

  datatype Candidate = Candidate(exo: nat, metadata: Metadata)

  ghost predicate AreRecords(cs: seq<Candidate>) {
    forall i | 0 <= i < |cs| :: IsRecord(cs[i].metadata)
  }

  predicate KeyAmong(text: nat -> string, leq: (string, string) -> bool, cs: seq<Candidate>, m: Metadata) {
    exists i | 0 <= i < |cs| :: MetadataKey(text, leq, cs[i].metadata) == MetadataKey(text, leq, m)
  }

  /** The first candidate of every key. */
  function Firsts(text: nat -> string, leq: (string, string) -> bool, cs: seq<Candidate>): seq<Candidate> {
    if cs == [] then []
    else
      var last, earlier := cs[|cs| - 1], cs[..|cs| - 1];
      if KeyAmong(text, leq, earlier, last.metadata) then Firsts(text, leq, earlier)
      else Firsts(text, leq, earlier) + [last]
  }

  lemma {:induction false} FirstsCome(text: nat -> string, leq: (string, string) -> bool, cs: seq<Candidate>)
    ensures forall c | c in Firsts(text, leq, cs) :: c in cs
  {
    if cs != [] { FirstsCome(text, leq, cs[..|cs| - 1]); }
  }

  /** The representatives' keys are pairwise different. */
  lemma {:induction false} FirstsDiffer(text: nat -> string, leq: (string, string) -> bool, cs: seq<Candidate>, i: nat, j: nat)
    requires i < j < |Firsts(text, leq, cs)|
    ensures var fs := Firsts(text, leq, cs); MetadataKey(text, leq, fs[i].metadata) != MetadataKey(text, leq, fs[j].metadata)
    decreases |cs|
  {
    hide MetadataKey;
    var earlier, fs := cs[..|cs| - 1], Firsts(text, leq, cs);
    var before := Firsts(text, leq, earlier);
    if j < |before| {
      FirstsDiffer(text, leq, earlier, i, j);
    } else {
      FirstsCome(text, leq, earlier);
      assert before[i] in earlier;
    }
  }

  /** Every candidate has a representative with its key, at its place or before it. */
  lemma {:induction false} EachIsRepresented(text: nat -> string, leq: (string, string) -> bool, cs: seq<Candidate>, i: nat) returns (k: nat)
    requires i < |cs|
    ensures k < |Firsts(text, leq, cs)|
    ensures MetadataKey(text, leq, Firsts(text, leq, cs)[k].metadata) == MetadataKey(text, leq, cs[i].metadata)
    decreases |cs|, i
  {
    hide MetadataKey;
    var last, earlier := cs[|cs| - 1], cs[..|cs| - 1];
    if i < |earlier| {
      k := EachIsRepresented(text, leq, earlier, i);
    } else if KeyAmong(text, leq, earlier, last.metadata) {
      var m :| 0 <= m < |earlier| && MetadataKey(text, leq, earlier[m].metadata) == MetadataKey(text, leq, last.metadata);
      k := EachIsRepresented(text, leq, earlier, m);
    } else {
      k := |Firsts(text, leq, earlier)|;
    }
  }

  method CollapseEquivalent(text: nat -> string, leq: (string, string) -> bool, candidates: seq<Candidate>)
      returns (representatives: seq<Candidate>)
    ensures representatives == Firsts(text, leq, candidates)
  {
    var seen: set<Option<seq<Encoded>>> := {};
    representatives := [];
    for i := 0 to |candidates|
      invariant representatives == Firsts(text, leq, candidates[..i])
      invariant forall k :: k in seen <==> exists j | 0 <= j < i :: MetadataKey(text, leq, candidates[j].metadata) == k
    {
      var entry := candidates[i];
      var key := MetadataKey(text, leq, entry.metadata);
      assert candidates[..i + 1][..i] == candidates[..i];
      assert key in seen <==> KeyAmong(text, leq, candidates[..i], entry.metadata);
      if key !in seen {
        seen := seen + {key};
        representatives := representatives + [entry];
      }
    }
    assert candidates[..|candidates|] == candidates;
  }

  // ------------------------------------------------------------------ shared and distinguishing properties

  /** Every candidate has this property with this very value. */
  predicate Shared(cs: seq<Candidate>, p: Prop) {
    forall i | 0 <= i < |cs| :: Lookup(cs[i].metadata, p.name) == Some(p.value)
  }

  function SharedOf(cs: seq<Candidate>, ps: Metadata): Metadata {
    if ps == [] then []
    else if Shared(cs, ps[0]) then [ps[0]] + SharedOf(cs, ps[1..])
    else SharedOf(cs, ps[1..])
  }

  function Constraints(cs: seq<Candidate>): Metadata {
    if cs == [] then [] else SharedOf(cs, cs[0].metadata)
  }

  function Remaining(constraints: Metadata, m: Metadata): Metadata {
    if m == [] then []
    else if Lookup(constraints, m[0].name).None? then [m[0]] + Remaining(constraints, m[1..])
    else Remaining(constraints, m[1..])
  }

  function Stripped(cs: seq<Candidate>): (stripped: seq<Candidate>)
    ensures |stripped| == |cs|
    ensures forall i | 0 <= i < |cs| :: stripped[i] == Candidate(cs[i].exo, Remaining(Constraints(cs), cs[i].metadata))
  {
    seq(|cs|, i requires 0 <= i < |cs| => Candidate(cs[i].exo, Remaining(Constraints(cs), cs[i].metadata)))
  }

  method DecomposeMetadata(candidates: seq<Candidate>) returns (constraints: Metadata, stripped: seq<Candidate>)
    ensures constraints == Constraints(candidates) && stripped == Stripped(candidates)
  {
    constraints, stripped := [], [];
    if candidates == [] { return; }
    var first := candidates[0].metadata;
    for k := 0 to |first|
      invariant constraints + SharedOf(candidates, first[k..]) == SharedOf(candidates, first)
    {
      var shared := true;
      for i := 0 to |candidates|
        invariant shared <==> forall j | 0 <= j < i :: Lookup(candidates[j].metadata, first[k].name) == Some(first[k].value)
      {
        shared := shared && Lookup(candidates[i].metadata, first[k].name) == Some(first[k].value);
      }
      assert shared <==> Shared(candidates, first[k]);
      assert first[k..][0] == first[k] && first[k..][1..] == first[k + 1..];
      if shared { constraints := constraints + [first[k]]; }
    }
    for i := 0 to |candidates|
      invariant |stripped| == i
      invariant forall k | 0 <= k < i :: stripped[k] == Candidate(candidates[k].exo, Remaining(constraints, candidates[k].metadata))
    {
      var remaining := StripOne(constraints, candidates[i].metadata);
      stripped := stripped + [Candidate(candidates[i].exo, remaining)];
    }
  }

  method StripOne(constraints: Metadata, own: Metadata) returns (remaining: Metadata)
    ensures remaining == Remaining(constraints, own)
  {
    remaining := [];
    for k := 0 to |own|
      invariant remaining + Remaining(constraints, own[k..]) == Remaining(constraints, own)
    {
      assert own[k..][0] == own[k] && own[k..][1..] == own[k + 1..];
      if Lookup(constraints, own[k].name).None? { remaining := remaining + [own[k]]; }
    }
  }

  lemma {:induction false} NotAmongSlice(m: Metadata, name: string)
    requires forall i | 0 <= i < |m| :: m[i].name != name
    ensures Lookup(m, name) == None
  {
    if m != [] { NotAmongSlice(m[1..], name); }
  }

  lemma {:induction false} LookupShared(cs: seq<Candidate>, ps: Metadata, name: string)
    requires IsRecord(ps)
    ensures Lookup(SharedOf(cs, ps), name) ==
              match Lookup(ps, name) case Some(v) => (if Shared(cs, Prop(name, v)) then Some(v) else None) case None => None
  {
    if ps != [] {
      LookupShared(cs, ps[1..], name);
      if ps[0].name == name { NotAmongSlice(ps[1..], name); assert Prop(name, ps[0].value) == ps[0]; }
    }
  }

  lemma {:induction false} LookupRemaining(constraints: Metadata, m: Metadata, name: string)
    ensures Lookup(Remaining(constraints, m), name) == if Lookup(constraints, name).Some? then None else Lookup(m, name)
  {
    if m != [] { LookupRemaining(constraints, m[1..], name); }
  }

  /**
   * The constraints are exactly the properties all candidates share, and each candidate's metadata is the
   * disjoint sum of the constraints and its stripped part.
   */
  lemma DecompositionIsLossless(cs: seq<Candidate>, i: nat, name: string)
    requires AreRecords(cs) && i < |cs|
    ensures var shared, own := Lookup(Constraints(cs), name), Lookup(Stripped(cs)[i].metadata, name);
            && (forall v :: shared == Some(v) <==> Shared(cs, Prop(name, v)))
            && (shared.None? || own.None?)
            && Lookup(cs[i].metadata, name) == (if shared.Some? then shared else own)
  {
    assert IsRecord(cs[0].metadata);
    LookupShared(cs, cs[0].metadata, name);
    LookupRemaining(Constraints(cs), cs[i].metadata, name);
    var shared := Lookup(Constraints(cs), name);
    forall v ensures shared == Some(v) <==> Shared(cs, Prop(name, v)) {
      if Shared(cs, Prop(name, v)) { assert Lookup(cs[0].metadata, name) == Some(v); }
    }
    if shared.Some? { assert Shared(cs, Prop(name, shared.value)); }
  }

  /** Stripping keeps apart what was apart. */
  lemma StrippingKeepsApart(text: nat -> string, cs: seq<Candidate>, i: nat, j: nat)
    requires AreRecords(cs) && i < |cs| && j < |cs|
    ensures Alike(text, Stripped(cs)[i].metadata, Stripped(cs)[j].metadata) <==> Alike(text, cs[i].metadata, cs[j].metadata)
  {
    forall name
      ensures AlikeAt(text, Stripped(cs)[i].metadata, Stripped(cs)[j].metadata, name) <==> AlikeAt(text, cs[i].metadata, cs[j].metadata, name)
    {
      DecompositionIsLossless(cs, i, name);
      DecompositionIsLossless(cs, j, name);
    }
    if Alike(text, Stripped(cs)[i].metadata, Stripped(cs)[j].metadata) {
      forall name ensures AlikeAt(text, cs[i].metadata, cs[j].metadata, name) {
        assert AlikeAt(text, Stripped(cs)[i].metadata, Stripped(cs)[j].metadata, name);
      }
    }
    if Alike(text, cs[i].metadata, cs[j].metadata) {
      forall name ensures AlikeAt(text, Stripped(cs)[i].metadata, Stripped(cs)[j].metadata, name) {
        assert AlikeAt(text, cs[i].metadata, cs[j].metadata, name);
      }
    }
  }

  // ------------------------------------------------------------------ when the policy is offered different candidates

  ghost predicate PairwiseApart(text: nat -> string, cs: seq<Candidate>) {
    forall i, j | 0 <= i < j < |cs| :: !Alike(text, cs[i].metadata, cs[j].metadata)
  }

  /** No two names compare equal in the locale. */
  ghost predicate IsStrict(leq: (string, string) -> bool) {
    forall a, b | leq(a, b) && leq(b, a) :: a == b
  }

  /** If the names of every candidate are told apart, the policy is offered pairwise different candidates. */
  lemma OfferedApart(text: nat -> string, leq: (string, string) -> bool, cs: seq<Candidate>)
    requires AreRecords(cs) && IsOrder(leq) && forall i | 0 <= i < |cs| :: TellsNamesApart(leq, cs[i].metadata)
    ensures PairwiseApart(text, Stripped(Firsts(text, leq, cs)))
  {
    hide Firsts, Stripped, Alike, MetadataKey, IsOrder, IsRecord, TellsNamesApart;
    var fs := Firsts(text, leq, cs);
    FirstsCome(text, leq, cs);
    assert AreRecords(fs) by { forall i | 0 <= i < |fs| ensures IsRecord(fs[i].metadata) { assert fs[i] in cs; } }
    forall i, j | 0 <= i < j < |fs| ensures !Alike(text, Stripped(fs)[i].metadata, Stripped(fs)[j].metadata) {
      assert fs[i] in cs && fs[j] in cs;
      StrippingKeepsApart(text, fs, i, j);
      FirstsDiffer(text, leq, cs, i, j);
      if Alike(text, fs[i].metadata, fs[j].metadata) { AlikeMeansSameKey(text, leq, fs[i].metadata, fs[j].metadata); }
    }
  }

  /** One record and the same with its two properties the other way round. */
  function TwoOrders(a: string, b: string): seq<Candidate> {
    var x, y := Prop(a, Number(1.0)), Prop(b, Number(2.0));
    [Candidate(0, [x, y]), Candidate(1, [y, x])]
  }

  /** Two names the locale compares equal: the sort leaves each record in its own order, and both are offered, stripped of everything. */
  lemma TiedNamesOfferedTwice(text: nat -> string, leq: (string, string) -> bool, a: string, b: string)
    requires a != b && leq(a, b) && leq(b, a)
    ensures AreRecords(TwoOrders(a, b)) && !PairwiseApart(text, Stripped(Firsts(text, leq, TwoOrders(a, b))))
  {
    var cs := TwoOrders(a, b);
    var p, q := cs[0].metadata, cs[1].metadata;
    SortTied(text, leq, p);
    SortTied(text, leq, q);
    assert Encodings(text, p)[0].key == a && Encodings(text, q)[0].key == b;
    assert MetadataKey(text, leq, p) != MetadataKey(text, leq, q);
    assert cs[..1] == [cs[0]] && cs[..1][..0] == [];
    assert Firsts(text, leq, cs[..0]) == [] && Firsts(text, leq, cs[..1]) == [cs[0]];
    assert Firsts(text, leq, cs) == cs;
    assert AreRecords(cs);
    StrippingKeepsApart(text, cs, 0, 1);
    assert p[1..] == [Prop(b, Number(2.0))] && q[1..] == [Prop(a, Number(1.0))];
    forall name ensures AlikeAt(text, p, q, name) {
      assert Lookup(p, name) == Lookup(q, name);
    }
  }

  lemma SortTied(text: nat -> string, leq: (string, string) -> bool, m: Metadata)
    requires |m| == 2 && leq(m[0].name, m[1].name)
    ensures Sort(leq, Encodings(text, m)) == Encodings(text, m)
  {
    var es := Encodings(text, m);
    assert es[1..][1..] == [];
    assert Sort(leq, es[1..]) == [es[1]];
  }

  /** The policy is always offered pairwise different candidates exactly when the locale tells all names apart. */
  lemma OfferedApartExactly(text: nat -> string, leq: (string, string) -> bool)
    requires IsOrder(leq)
    ensures IsStrict(leq) <==> forall cs: seq<Candidate> | AreRecords(cs) :: PairwiseApart(text, Stripped(Firsts(text, leq, cs)))
  {
    if IsStrict(leq) {
      forall cs: seq<Candidate> | AreRecords(cs) ensures PairwiseApart(text, Stripped(Firsts(text, leq, cs))) {
        OfferedApart(text, leq, cs);
      }
    } else {
      var a, b :| leq(a, b) && leq(b, a) && a != b;
      TiedNamesOfferedTwice(text, leq, a, b);
    }
  }
}
