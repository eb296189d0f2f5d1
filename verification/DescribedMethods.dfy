/**
 * Described methods: a guard for positional calls and a schema naming the arguments, from one list of
 * arguments (packages/kernel-utils/src/described.ts, json-schema-to-struct.ts), and the discovered capability
 * that turns a record of named arguments into a positional call (packages/kernel-agents/src/capabilities/discover.ts).
 *
 * `u` says whether an explicit `undefined` fills an optional slot; the results hold for either answer.
 */
module DescribedMethods {
  import opened Prelude
  import opened Described

  datatype NamedArg = NamedArg(name: string, shape: Shape, optional: bool)

  /** The positional part of a method guard. */
  datatype ArgsGuard = ArgsGuard(required: seq<Pattern>, optionals: seq<Pattern>)

  datatype MethodSchema = MethodSchema(args: seq<Property>, required: seq<string>)

  datatype DescribedMethod = DescribedMethod(guard: ArgsGuard, schema: MethodSchema)

  datatype MethodError = OptionalNotTrailing

  // ------------------------------------------------------------------ describing a method

  predicate OptionalsTrail(args: seq<NamedArg>) {
    forall i, j | 0 <= i < j < |args| && args[i].optional :: args[j].optional
  }

  function PatternsOf(args: seq<NamedArg>, optional: bool): seq<Pattern> {
    if args == [] then []
    else
      var earlier, last := PatternsOf(args[..|args| - 1], optional), args[|args| - 1];
      if last.optional == optional then earlier + [Describe(last.shape).pattern] else earlier
  }

  function RequiredNames(args: seq<NamedArg>): seq<string> {
    if args == [] then []
    else
      var earlier, last := RequiredNames(args[..|args| - 1]), args[|args| - 1];
      if last.optional then earlier else earlier + [last.name]
  }

  /** Sets a property of a record: in its old place if it has one, else last. */
  function Assign(ps: seq<Property>, key: string, schema: Schema): seq<Property> {
    if ps == [] then [Property(key, schema)]
    else if ps[0].key == key then [Property(key, schema)] + ps[1..]
    else [ps[0]] + Assign(ps[1..], key, schema)
  }

  function SchemaArgs(args: seq<NamedArg>): seq<Property> {
    if args == [] then []
    else
      var last := args[|args| - 1];
      Assign(SchemaArgs(args[..|args| - 1]), last.name, Describe(last.shape).schema)
  }

  function MethodOf(args: seq<NamedArg>): DescribedMethod {
    DescribedMethod(ArgsGuard(PatternsOf(args, false), PatternsOf(args, true)), MethodSchema(SchemaArgs(args), RequiredNames(args)))
  }

  method DescribeMethod(args: seq<NamedArg>) returns (r: Result<DescribedMethod, MethodError>)
    ensures r == if OptionalsTrail(args) then Ok(MethodOf(args)) else Err(OptionalNotTrailing)
  {
    var sawOptional := false;
    for i := 0 to |args|
      invariant sawOptional <==> exists k | 0 <= k < i :: args[k].optional
      invariant OptionalsTrail(args[..i])
    {
      if sawOptional && !args[i].optional { return Err(OptionalNotTrailing); }
      sawOptional := sawOptional || args[i].optional;
    }
    assert args[..|args|] == args;
    var required, optionals, names, schemaArgs := [], [], [], [];
    for i := 0 to |args|
      invariant required == PatternsOf(args[..i], false) && optionals == PatternsOf(args[..i], true)
      invariant names == RequiredNames(args[..i]) && schemaArgs == SchemaArgs(args[..i])
    {
      assert args[..i + 1][..i] == args[..i];
      var d := Describe(args[i].shape);
      schemaArgs := Assign(schemaArgs, args[i].name, d.schema);
      if args[i].optional {
        optionals := optionals + [d.pattern];
      } else {
        required := required + [d.pattern];
        names := names + [args[i].name];
      }
    }
    r := Ok(DescribedMethod(ArgsGuard(required, optionals), MethodSchema(schemaArgs, names)));
  }

  // ------------------------------------------------------------------ the two ways to call

  /** A guard admits a positional call; an argument may be an explicit `undefined`. */
  predicate AdmitsCall(u: bool, g: ArgsGuard, call: seq<Option<Json>>) {
    && |g.required| <= |call| <= |g.required| + |g.optionals|
    && (forall i | 0 <= i < |g.required| :: call[i].Some? && Matches(call[i].value, g.required[i]))
    && (forall i | |g.required| <= i < |call| ::
          if call[i].None? then u else Matches(call[i].value, g.optionals[i - |g.required|]))
  }

  /** The struct of a method's arguments. Without arguments, it takes any object. */
  predicate ValidatesArgs(schema: MethodSchema, v: Json) {
    if schema.args == [] then v.JObject?
    else Validates(ObjectSchema(schema.args, Some(schema.required), Some(false)), Some(v))
  }

  predicate DistinctNames(args: seq<NamedArg>) {
    forall i, j | 0 <= i < j < |args| :: args[i].name != args[j].name
  }

  /** The record naming the arguments of a call, which gives no more than there are. */
  function Named(args: seq<NamedArg>, call: seq<Json>): map<string, Json>
    requires |call| <= |args|
  {
    if call == [] then map[] else Named(args, call[..|call| - 1])[args[|call| - 1].name := call[|call| - 1]]
  }

  function Given(call: seq<Json>): (given: seq<Option<Json>>)
    ensures |given| == |call| && forall i | 0 <= i < |call| :: given[i] == Some(call[i])
  {
    seq(|call|, i requires 0 <= i < |call| => Some(call[i]))
  }

  /** A record's own keys come with those that spell an array index first, ascending; `index` says which do. */
  type Index = string -> Option<nat>

  predicate ComesFirst(index: Index, a: string, b: string) {
    index(b).None? || (index(a).Some? && index(a).value <= index(b).value)
  }

  function InsertKey(index: Index, key: string, keys: seq<string>): seq<string> {
    if keys == [] || ComesFirst(index, key, keys[0]) then [key] + keys else [keys[0]] + InsertKey(index, key, keys[1..])
  }

  function OwnKeys(index: Index, made: seq<string>): seq<string> {
    if made == [] then [] else InsertKey(index, made[0], OwnKeys(index, made[1..]))
  }

  predicate InKeyOrder(index: Index, keys: seq<string>) {
    forall i, j | 0 <= i < j < |keys| :: ComesFirst(index, keys[i], keys[j])
  }

  /** What a discovered capability passes for a record: the field of each key of the schema's arguments, in key order. */
  function Positional(index: Index, schema: MethodSchema, props: map<string, Json>): (call: seq<Option<Json>>) {
    var keys := OwnKeys(index, Keys(schema.args));
    seq(|keys|, i requires 0 <= i < |keys| => Field(props, keys[i]))
  }

  predicate IsArgument(args: seq<NamedArg>, key: string) {
    exists i | 0 <= i < |args| :: args[i].name == key
  }

  // ------------------------------------------------------------------ what the guard asks, argument by argument

  lemma {:induction false} PatternsInOrder(args: seq<NamedArg>) returns (k: nat)
    requires OptionalsTrail(args)
    ensures k <= |args| && |PatternsOf(args, false)| == k && |PatternsOf(args, true)| == |args| - k
    ensures forall i | 0 <= i < |args| :: args[i].optional <==> k <= i
    ensures forall i | 0 <= i < k :: PatternsOf(args, false)[i] == Describe(args[i].shape).pattern
    ensures forall i | k <= i < |args| :: PatternsOf(args, true)[i - k] == Describe(args[i].shape).pattern
  {
    hide Describe;
    if args == [] {
      k := 0;
    } else {
      var n := |args| - 1;
      k := PatternsInOrder(args[..n]);
      if !args[n].optional {
        k := k + 1;
      }
    }
  }

  /** An argument position accepts what is given there. */
  predicate ArgAccepts(u: bool, a: NamedArg, given: Option<Json>) {
    if given.None? then a.optional && u else Matches(given.value, Describe(a.shape).pattern)
  }

  lemma AdmitsMeans(u: bool, args: seq<NamedArg>, call: seq<Option<Json>>)
    requires OptionalsTrail(args)
    ensures AdmitsCall(u, MethodOf(args).guard, call) <==>
              && |call| <= |args|
              && (forall i | 0 <= i < |call| :: ArgAccepts(u, args[i], call[i]))
              && (forall i | |call| <= i < |args| :: args[i].optional)
  {
    hide Matches, Describe;
    var k := PatternsInOrder(args);
    var g := MethodOf(args).guard;
    if AdmitsCall(u, g, call) {
      forall i | 0 <= i < |call| ensures ArgAccepts(u, args[i], call[i]) {
        if i < k { assert call[i].Some? && Matches(call[i].value, g.required[i]); }
      }
    }
    if |call| <= |args| && (forall i | 0 <= i < |call| :: ArgAccepts(u, args[i], call[i])) && (forall i | |call| <= i < |args| :: args[i].optional) {
      assert |call| < |args| ==> args[|call|].optional;
      forall i | 0 <= i < k ensures call[i].Some? && Matches(call[i].value, g.required[i]) { assert ArgAccepts(u, args[i], call[i]); }
      forall i | k <= i < |call| ensures if call[i].None? then u else Matches(call[i].value, g.optionals[i - k]) { assert ArgAccepts(u, args[i], call[i]); }
    }
  }

  // ------------------------------------------------------------------ what the struct asks, argument by argument

  lemma {:induction false} AssignNew(ps: seq<Property>, key: string, schema: Schema)
    requires !HasProperty(ps, key)
    ensures Assign(ps, key, schema) == ps + [Property(key, schema)]
  {
    if ps != [] {
      assert ps[0].key != key;
      assert forall i | 0 <= i < |ps[1..]| :: ps[1..][i] == ps[i + 1];
      AssignNew(ps[1..], key, schema);
    }
  }

  lemma {:induction false} SchemaArgsInOrder(args: seq<NamedArg>)
    requires DistinctNames(args)
    ensures |SchemaArgs(args)| == |args|
    ensures forall i | 0 <= i < |args| :: SchemaArgs(args)[i] == Property(args[i].name, Describe(args[i].shape).schema)
  {
    hide Describe;
    if args != [] {
      var n := |args| - 1;
      SchemaArgsInOrder(args[..n]);
      var ps := SchemaArgs(args[..n]);
      assert forall i | 0 <= i < |ps| :: ps[i].key == args[i].name;
      AssignNew(ps, args[n].name, Describe(args[n].shape).schema);
    }
  }

  lemma {:induction false} RequiredNamesMeans(args: seq<NamedArg>, key: string)
    ensures key in RequiredNames(args) <==> exists i :: 0 <= i < |args| && args[i].name == key && !args[i].optional
  {
    if args != [] {
      var n := |args| - 1;
      RequiredNamesMeans(args[..n], key);
      if key in RequiredNames(args[..n]) { var i :| 0 <= i < n && args[..n][i].name == key && !args[..n][i].optional; assert args[i].name == key; }
      if i :| 0 <= i < |args| && args[i].name == key && !args[i].optional && i < n { assert args[..n][i].name == key; }
    }
  }

  /** The struct accepts what a record has at an argument's name. */
  predicate FieldValid(a: NamedArg, props: map<string, Json>) {
    if a.name in props then Matches(props[a.name], Describe(a.shape).pattern) else a.optional
  }

  lemma ValidatesMeans(args: seq<NamedArg>, props: map<string, Json>)
    requires DistinctNames(args) && args != []
    ensures ValidatesArgs(MethodOf(args).schema, JObject(props)) <==>
              && (forall i | 0 <= i < |args| :: FieldValid(args[i], props))
              && (forall key | key in props :: IsArgument(args, key))
  {
    hide Matches, Describe;
    SchemaArgsInOrder(args);
    var ps, required := SchemaArgs(args), RequiredNames(args);
    forall i | 0 <= i < |args|
      ensures var field := Field(props, ps[i].key);
              ((field.None? && ps[i].key !in required) || Validates(ps[i].schema, field)) <==> FieldValid(args[i], props)
    {
      RequiredNamesMeans(args, args[i].name);
      UndefinedIsInvalid(ps[i].schema);
      if args[i].name in props { OneDescriptionOneMeaning(args[i].shape, props[args[i].name]); }
    }
    forall key ensures HasProperty(ps, key) <==> IsArgument(args, key) {
      if HasProperty(ps, key) { var i :| 0 <= i < |ps| && ps[i].key == key; assert args[i].name == key; }
      if IsArgument(args, key) { var i :| 0 <= i < |args| && args[i].name == key; assert ps[i].key == key; }
    }
  }

  lemma {:induction false} NamedHolds(args: seq<NamedArg>, call: seq<Json>)
    requires |call| <= |args| && DistinctNames(args)
    ensures forall i | 0 <= i < |call| :: Field(Named(args, call), args[i].name) == Some(call[i])
    ensures forall key | key in Named(args, call) :: exists i :: 0 <= i < |call| && args[i].name == key
  {
    if call != [] { NamedHolds(args, call[..|call| - 1]); }
  }

  // ------------------------------------------------------------------ they agree

  /**
   * A positional call of JSON values meets the guard exactly when the record naming its arguments validates,
   * for a method with at least one argument and distinct names; a longer call is refused.
   */
  lemma CallsAgree(u: bool, args: seq<NamedArg>, call: seq<Json>)
    requires OptionalsTrail(args) && DistinctNames(args) && args != []
    ensures |call| <= |args| ==>
              (AdmitsCall(u, MethodOf(args).guard, Given(call)) <==> ValidatesArgs(MethodOf(args).schema, JObject(Named(args, call))))
    ensures |call| > |args| ==> !AdmitsCall(u, MethodOf(args).guard, Given(call))
  {
    hide AdmitsCall, ValidatesArgs, MethodOf, Matches, Describe;
    AdmitsMeans(u, args, Given(call));
    if |call| <= |args| {
      var props := Named(args, call);
      NamedHolds(args, call);
      ValidatesMeans(args, props);
      forall i | 0 <= i < |args| ensures args[i].name in props <==> i < |call| {
        if i < |call| { assert Field(props, args[i].name).Some?; }
        if args[i].name in props {
          var j :| 0 <= j < |call| && args[j].name == args[i].name;
        }
      }
      forall i | 0 <= i < |call| ensures FieldValid(args[i], props) <==> ArgAccepts(u, args[i], Given(call)[i]) {
        assert Field(props, args[i].name) == Some(call[i]);
      }
    }
  }

  function Names(args: seq<NamedArg>): (names: seq<string>)
    ensures |names| == |args| && forall i | 0 <= i < |args| :: names[i] == args[i].name
  {
    seq(|args|, i requires 0 <= i < |args| => args[i].name)
  }

  lemma {:induction false} InsertKeepsOrder(index: Index, key: string, keys: seq<string>)
    requires InKeyOrder(index, keys)
    ensures InKeyOrder(index, InsertKey(index, key, keys))
    ensures forall k | k in InsertKey(index, key, keys) :: k == key || k in keys
  {
    if keys != [] {
      if ComesFirst(index, key, keys[0]) {
        assert forall j | 0 < j < |keys| :: ComesFirst(index, keys[0], keys[j]) && ComesFirst(index, key, keys[j]);
      } else {
        InsertKeepsOrder(index, key, keys[1..]);
        var more := InsertKey(index, key, keys[1..]);
        forall j | 0 <= j < |more| ensures ComesFirst(index, keys[0], more[j]) {
          assert more[j] in more;
          if more[j] in keys[1..] { var m :| 0 <= m < |keys[1..]| && keys[1..][m] == more[j]; assert keys[m + 1] == more[j]; }
        }
      }
    }
  }

  lemma {:induction false} OwnKeysAreOrdered(index: Index, made: seq<string>)
    ensures InKeyOrder(index, OwnKeys(index, made))
  {
    if made != [] { OwnKeysAreOrdered(index, made[1..]); InsertKeepsOrder(index, made[0], OwnKeys(index, made[1..])); }
  }

  lemma {:induction false} OrderedStay(index: Index, made: seq<string>)
    requires InKeyOrder(index, made)
    ensures OwnKeys(index, made) == made
  {
    if made != [] {
      OrderedStay(index, made[1..]);
      assert |made| > 1 ==> ComesFirst(index, made[0], made[1]);
    }
  }

  /** The schema lists a method's arguments in declared order exactly when index-like names come first, ascending. */
  lemma DeclaredOrderExactly(index: Index, args: seq<NamedArg>)
    requires DistinctNames(args)
    ensures OwnKeys(index, Keys(MethodOf(args).schema.args)) == Names(args) <==> InKeyOrder(index, Names(args))
  {
    SchemaArgsInOrder(args);
    assert Keys(MethodOf(args).schema.args) == Names(args);
    OwnKeysAreOrdered(index, Names(args));
    if InKeyOrder(index, Names(args)) { OrderedStay(index, Names(args)); }
  }

  const SWAPPED: seq<NamedArg> := [NamedArg("b", ANumber, false), NamedArg("0", AString, false)]

  /** With an index-like name declared last, a record that validates makes a call that the guard refuses: its arguments are swapped. */
  lemma IndexLikeNameSwaps(u: bool, index: Index)
    requires index("b").None? && index("0") == Some(0)
    ensures DistinctNames(SWAPPED) && !InKeyOrder(index, Names(SWAPPED))
    ensures var props := map["b" := JNumber(1.0), "0" := JString("x")];
            && ValidatesArgs(MethodOf(SWAPPED).schema, JObject(props))
            && Positional(index, MethodOf(SWAPPED).schema, props) == [Some(JString("x")), Some(JNumber(1.0))]
            && !AdmitsCall(u, MethodOf(SWAPPED).guard, Positional(index, MethodOf(SWAPPED).schema, props))
  {
    var props := map["b" := JNumber(1.0), "0" := JString("x")];
    SwappedNames(index);
    SchemaArgsInOrder(SWAPPED);
    assert Keys(MethodOf(SWAPPED).schema.args) == Names(SWAPPED);
    var call := Positional(index, MethodOf(SWAPPED).schema, props);
    hide MethodOf, AdmitsCall, ValidatesArgs, OwnKeys;
    assert call == [Some(JString("x")), Some(JNumber(1.0))];
    ValidatesMeans(SWAPPED, props);
    SwappedFields(props);
    AdmitsMeans(u, SWAPPED, call);
    assert !ArgAccepts(u, SWAPPED[0], call[0]);
  }

  lemma SwappedNames(index: Index)
    requires index("b").None? && index("0") == Some(0)
    ensures Names(SWAPPED) == ["b", "0"] && OwnKeys(index, ["b", "0"]) == ["0", "b"] && !ComesFirst(index, "b", "0")
  {
    assert ["b", "0"][1..] == ["0"] && ["0"][1..] == [];
    assert OwnKeys(index, ["0"]) == ["0"];
  }

  lemma SwappedFields(props: map<string, Json>)
    requires props == map["b" := JNumber(1.0), "0" := JString("x")]
    ensures forall i | 0 <= i < |SWAPPED| :: FieldValid(SWAPPED[i], props)
    ensures forall key | key in props :: IsArgument(SWAPPED, key)
  {
    assert SWAPPED[0].name == "b" && SWAPPED[1].name == "0";
  }

  lemma PositionalInOrder(index: Index, args: seq<NamedArg>, props: map<string, Json>)
    requires DistinctNames(args) && InKeyOrder(index, Names(args))
    ensures var call := Positional(index, MethodOf(args).schema, props);
            |call| == |args| && forall i | 0 <= i < |args| :: call[i] == Field(props, args[i].name)
  {
    DeclaredOrderExactly(index, args);
    hide MethodOf;
    assert OwnKeys(index, Keys(MethodOf(args).schema.args)) == Names(args);
  }

  /**
   * With names in key order, a discovered capability's call, made from a record that names nothing else, meets
   * the guard exactly when the record validates and either `undefined` fills optional slots or every argument is given.
   */
  lemma RecordsAgree(u: bool, index: Index, args: seq<NamedArg>, props: map<string, Json>)
    requires OptionalsTrail(args) && DistinctNames(args) && args != [] && InKeyOrder(index, Names(args))
    ensures (&& AdmitsCall(u, MethodOf(args).guard, Positional(index, MethodOf(args).schema, props))
             && forall key | key in props :: IsArgument(args, key)) <==>
              && ValidatesArgs(MethodOf(args).schema, JObject(props))
              && (u || forall i | 0 <= i < |args| :: args[i].name in props)
  {
    PositionalInOrder(index, args, props);
    var call := Positional(index, MethodOf(args).schema, props);
    hide AdmitsCall, ValidatesArgs, MethodOf, Matches, Describe, Positional, InKeyOrder;
    AdmitsMeans(u, args, call);
    ValidatesMeans(args, props);
    forall i | 0 <= i < |args| ensures ArgAccepts(u, args[i], call[i]) <==> FieldValid(args[i], props) && (u || args[i].name in props) {
    }
    if (forall i | 0 <= i < |args| :: FieldValid(args[i], props)) && (u || forall i | 0 <= i < |args| :: args[i].name in props) {
      forall i | 0 <= i < |args| ensures ArgAccepts(u, args[i], call[i]) { assert FieldValid(args[i], props); }
    }
    if forall i | 0 <= i < |args| :: ArgAccepts(u, args[i], call[i]) {
      forall i | 0 <= i < |args| ensures FieldValid(args[i], props) && (u || args[i].name in props) { assert ArgAccepts(u, args[i], call[i]); }
    }
  }

  /** Without arguments the guard takes the empty call only, the struct any object at all. */
  /** A positional call meets the guard exactly when each argument has its shape, and every one that is not optional is given. */
  lemma GuardMeansShapes(u: bool, args: seq<NamedArg>, call: seq<Json>)
    requires OptionalsTrail(args)
    ensures AdmitsCall(u, MethodOf(args).guard, Given(call)) <==>
              && |call| <= |args| && (forall i | 0 <= i < |call| :: HasShape(call[i], args[i].shape))
              && (forall i | |call| <= i < |args| :: args[i].optional)
  {
    hide AdmitsCall, MethodOf, Matches, Describe, HasShape;
    AdmitsMeans(u, args, Given(call));
    if |call| <= |args| {
      forall i | 0 <= i < |call| ensures ArgAccepts(u, args[i], Given(call)[i]) <==> HasShape(call[i], args[i].shape) {
        PatternMeansShape(args[i].shape, call[i]);
      }
    }
  }

  lemma NoArguments(u: bool, call: seq<Option<Json>>, v: Json)
    ensures AdmitsCall(u, MethodOf([]).guard, call) <==> call == []
    ensures ValidatesArgs(MethodOf([]).schema, v) <==> v.JObject?
  {
  }

  // ------------------------------------------------------------------ names given twice

  /** Every object of the shape has distinct property names. */
  predicate IsWellFormed(s: Shape)
    decreases s
  {
    match s
    case AnArray(items) => IsWellFormed(items)
    case AnObject(props, _) =>
      && (forall i, j | 0 <= i < j < |props| :: props[i].key != props[j].key)
      && forall i | 0 <= i < |props| :: IsWellFormed(props[i].shape)
    case _ => true
  }

  /** Every well-formed shape has a value. */
  lemma {:induction false} HasValue(s: Shape) returns (v: Json)
    requires IsWellFormed(s)
    ensures Matches(v, Describe(s).pattern)
    decreases s
  {
    match s
    case AString => v := JString("");
    case ANumber => v := JNumber(0.0);
    case ABoolean => v := JBoolean(true);
    case AnArray(_) => v := JArray([]);
    case ARecord => v := JObject(map[]);
    case AnObject(props, optional) =>
      var values: seq<Json> := [];
      for i := 0 to |props|
        invariant |values| == i
        invariant forall k | 0 <= k < i :: Matches(values[k], Describe(props[k].shape).pattern)
      {
        var w := HasValue(props[i].shape);
        values := values + [w];
      }
      v := ObjectOf(props, optional, values);
  }

  lemma {:induction false} ObjectOf(props: seq<NamedShape>, optional: set<string>, values: seq<Json>) returns (v: Json)
    requires |values| == |props| && forall i, j | 0 <= i < j < |props| :: props[i].key != props[j].key
    requires forall k | 0 <= k < |props| :: Matches(values[k], Describe(props[k].shape).pattern)
    ensures Matches(v, Describe(AnObject(props, optional)).pattern)
  {
    var ds := DescribeAll(props);
    assert Describe(AnObject(props, optional)) == ObjectDescription(ds, optional);
    hide Describe, Matches, ObjectDescription;
    var fields: map<string, Json> := map[];
    for i := 0 to |props|
      invariant forall k | 0 <= k < i :: Field(fields, props[k].key) == Some(values[k])
      invariant forall key | key in fields :: IsDescribed(ds, key)
    {
      fields := fields[props[i].key := values[i]];
      assert ds[i].key == props[i].key;
    }
    v := JObject(fields);
    forall i | 0 <= i < |ds| ensures FieldAccepted(ds[i], optional, fields) { assert Field(fields, props[i].key) == Some(values[i]); }
    ObjectPatternMeans(ds, optional, v);
  }

  /** The last argument of a name. */
  function Last(args: seq<NamedArg>, key: string): (i: nat)
    requires IsArgument(args, key)
    ensures i < |args| && args[i].name == key && forall k | i < k < |args| :: args[k].name != key
  {
    var n := |args| - 1;
    if args[n].name == key then n
    else
      assert IsArgument(args[..n], key) by { var i :| 0 <= i < |args| && args[i].name == key; assert args[..n][i].name == key; }
      Last(args[..n], key)
  }

  lemma {:induction false} NamedTakesLast(args: seq<NamedArg>, call: seq<Json>, key: string)
    requires |call| <= |args|
    ensures key in Named(args, call) <==> IsArgument(args[..|call|], key)
    ensures IsArgument(args[..|call|], key) ==> Named(args, call)[key] == call[Last(args[..|call|], key)]
    decreases |call|
  {
    if call != [] {
      var n := |call| - 1;
      NamedTakesLast(args, call[..n], key);
      assert args[..n + 1][..n] == args[..n];
      if args[n].name == key {
        assert args[..n + 1][n].name == key;
      } else {
        if IsArgument(args[..n], key) { var i :| 0 <= i < n && args[..n][i].name == key; assert args[..n + 1][i].name == key; }
        if IsArgument(args[..n + 1], key) { var i :| 0 <= i < n + 1 && args[..n + 1][i].name == key; assert args[..n][i].name == key; }
      }
    }
  }

  function SchemaAt(ps: seq<Property>, key: string): Option<Schema> {
    if ps == [] then None else if ps[0].key == key then Some(ps[0].schema) else SchemaAt(ps[1..], key)
  }

  predicate DistinctKeys(ps: seq<Property>) {
    forall i, j | 0 <= i < j < |ps| :: ps[i].key != ps[j].key
  }

  lemma {:induction false} AssignSets(ps: seq<Property>, key: string, schema: Schema, x: string)
    ensures SchemaAt(Assign(ps, key, schema), x) == if x == key then Some(schema) else SchemaAt(ps, x)
  {
    if ps != [] && ps[0].key != key { AssignSets(ps[1..], key, schema, x); }
  }

  lemma {:induction false} AssignKeepsDistinct(ps: seq<Property>, key: string, schema: Schema)
    requires DistinctKeys(ps)
    ensures DistinctKeys(Assign(ps, key, schema))
    ensures forall i | 0 <= i < |Assign(ps, key, schema)| :: Assign(ps, key, schema)[i].key == key || HasProperty(ps, Assign(ps, key, schema)[i].key)
  {
    if ps != [] {
      assert forall i | 0 <= i < |ps[1..]| :: ps[1..][i] == ps[i + 1];
      if ps[0].key != key { AssignKeepsDistinct(ps[1..], key, schema); }
    }
  }

  lemma {:induction false} SchemaAtFinds(ps: seq<Property>, i: nat)
    requires DistinctKeys(ps) && i < |ps|
    ensures SchemaAt(ps, ps[i].key) == Some(ps[i].schema)
  {
    if i > 0 { SchemaAtFinds(ps[1..], i - 1); }
  }

  /** Of the schemas given for a name, the last is kept. */
  lemma {:induction false} SchemaArgsTakeLast(args: seq<NamedArg>, key: string)
    ensures DistinctKeys(SchemaArgs(args))
    ensures SchemaAt(SchemaArgs(args), key) == if IsArgument(args, key) then Some(Describe(args[Last(args, key)].shape).schema) else None
  {
    hide Describe;
    if args != [] {
      var n := |args| - 1;
      SchemaArgsTakeLast(args[..n], key);
      AssignSets(SchemaArgs(args[..n]), args[n].name, Describe(args[n].shape).schema, key);
      AssignKeepsDistinct(SchemaArgs(args[..n]), args[n].name, Describe(args[n].shape).schema);
      if args[n].name != key {
        if IsArgument(args[..n], key) { var i :| 0 <= i < n && args[..n][i].name == key; assert args[i].name == key; }
        if IsArgument(args, key) { var i :| 0 <= i < |args| && args[i].name == key; assert args[..n][i].name == key; }
      }
    }
  }

  /** A record that is right at the last argument of every name validates. */
  lemma RightAtLastValidates(args: seq<NamedArg>, call: seq<Json>)
    requires args != [] && |call| == |args|
    requires forall i | 0 <= i < |args| && (forall k | i < k < |args| :: args[k].name != args[i].name) :: Matches(call[i], Describe(args[i].shape).pattern)
    ensures ValidatesArgs(MethodOf(args).schema, JObject(Named(args, call)))
  {
    hide Matches, Describe;
    var props, ps := Named(args, call), SchemaArgs(args);
    assert args[..|call|] == args;
    forall key ensures key in props <==> IsArgument(args, key) { NamedTakesLast(args, call, key); }
    forall i | 0 <= i < |ps| ensures Validates(ps[i].schema, Field(props, ps[i].key)) {
      var key := ps[i].key;
      SchemaArgsTakeLast(args, key);
      SchemaAtFinds(ps, i);
      NamedTakesLast(args, call, key);
      OneDescriptionOneMeaning(args[Last(args, key)].shape, props[key]);
    }
    forall key | key in props ensures HasProperty(ps, key) {
      SchemaArgsTakeLast(args, key);
      var i := SchemaAtIsAmong(ps, key);
    }
    SchemaArgsTakeLast(args, args[0].name);
    assert IsArgument(args, args[0].name);
  }

  lemma {:induction false} SchemaAtIsAmong(ps: seq<Property>, key: string) returns (i: nat)
    requires SchemaAt(ps, key).Some?
    ensures i < |ps| && ps[i].key == key
  {
    if ps[0].key == key { i := 0; } else { i := SchemaAtIsAmong(ps[1..], key); i := i + 1; }
  }

  lemma NullMatchesNothing(s: Shape)
    ensures !Matches(JNull, Describe(s).pattern)
  {
  }

  /** A name given twice: some call is refused whose record validates. */
  lemma RepeatedNameDisagrees(u: bool, args: seq<NamedArg>, i: nat, j: nat) returns (call: seq<Json>)
    requires OptionalsTrail(args) && i < j < |args| && args[i].name == args[j].name
    requires forall k | 0 <= k < |args| :: IsWellFormed(args[k].shape)
    ensures |call| == |args| && !AdmitsCall(u, MethodOf(args).guard, Given(call))
    ensures ValidatesArgs(MethodOf(args).schema, JObject(Named(args, call)))
  {
    hide Matches, Describe, AdmitsCall, ValidatesArgs, MethodOf, IsWellFormed;
    call := [];
    for n := 0 to |args|
      invariant |call| == n
      invariant forall k | 0 <= k < n :: if k == i then call[k] == JNull else Matches(call[k], Describe(args[k].shape).pattern)
    {
      var v := HasValue(args[n].shape);
      call := call + [if n == i then JNull else v];
    }
    AdmitsMeans(u, args, Given(call));
    NullMatchesNothing(args[i].shape);
    assert !ArgAccepts(u, args[i], Given(call)[i]);
    RightAtLastValidates(args, call);
  }

  /** Guard and struct agree on all calls exactly when the arguments' names are distinct. */
  lemma AgreeExactly(u: bool, args: seq<NamedArg>)
    requires OptionalsTrail(args) && args != [] && forall k | 0 <= k < |args| :: IsWellFormed(args[k].shape)
    ensures DistinctNames(args) <==>
              forall call: seq<Json> | |call| <= |args| ::
                AdmitsCall(u, MethodOf(args).guard, Given(call)) <==> ValidatesArgs(MethodOf(args).schema, JObject(Named(args, call)))
  {
    hide AdmitsCall, ValidatesArgs, MethodOf, IsWellFormed;
    if DistinctNames(args) {
      forall call: seq<Json> | |call| <= |args|
        ensures AdmitsCall(u, MethodOf(args).guard, Given(call)) <==> ValidatesArgs(MethodOf(args).schema, JObject(Named(args, call)))
      {
        CallsAgree(u, args, call);
      }
    } else {
      var i, j :| 0 <= i < j < |args| && args[i].name == args[j].name;
      var call := RepeatedNameDisagrees(u, args, i, j);
    }
  }
}
