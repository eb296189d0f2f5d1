/**
 * Described values: one authored shape, a pattern that enforces it and a JSON schema that is turned into a
 * validating struct (packages/kernel-utils/src/described.ts, json-schema-to-struct.ts).
 *
 * Values are JSON values with finite numbers. `None` in place of a value is `undefined`: a property that is
 * absent, or an argument so given. A struct for an object refuses arrays.
 */
module Described {
  import opened Prelude

  datatype Json =
    | JNull
    | JString(s: string)
    | JNumber(n: real)
    | JBoolean(b: bool)
    | JArray(elems: seq<Json>)
    | JObject(props: map<string, Json>)

  function Field(props: map<string, Json>, key: string): Option<Json> {
    if key in props then Some(props[key]) else None
  }

  // ------------------------------------------------------------------ patterns

  datatype Pattern =
    | MString
    | MNumber
    | MBoolean
    | MArrayOf(items: Pattern)
    | MRecord
    | MSplitRecord(required: seq<PatternField>, optionals: seq<PatternField>)

  datatype PatternField = PatternField(key: string, pattern: Pattern)

  predicate HasPatternFor(fields: seq<PatternField>, key: string) {
    exists i | 0 <= i < |fields| :: fields[i].key == key
  }

  /** `MSplitRecord` stands for a `M.splitRecord` whose rest must be empty. */
  predicate Matches(v: Json, p: Pattern)
    decreases p
  {
    match p
    case MString => v.JString?
    case MNumber => v.JNumber?
    case MBoolean => v.JBoolean?
    case MArrayOf(items) => v.JArray? && forall i | 0 <= i < |v.elems| :: Matches(v.elems[i], items)
    case MRecord => v.JObject?
    case MSplitRecord(required, optionals) =>
      && v.JObject?
      && (forall i | 0 <= i < |required| :: required[i].key in v.props && Matches(v.props[required[i].key], required[i].pattern))
      && (forall i | 0 <= i < |optionals| :: optionals[i].key in v.props ==> Matches(v.props[optionals[i].key], optionals[i].pattern))
      && (forall key | key in v.props :: HasPatternFor(required, key) || HasPatternFor(optionals, key))
  }

  // ------------------------------------------------------------------ schemas and their structs

  datatype Schema =
    | StringSchema
    | NumberSchema
    | BooleanSchema
    | ArraySchema(items: Schema)
    | ObjectSchema(properties: seq<Property>, required: Option<seq<string>>, additional: Option<bool>)

  datatype Property = Property(key: string, schema: Schema)

  function Keys(properties: seq<Property>): (keys: seq<string>)
    ensures |keys| == |properties| && forall i | 0 <= i < |keys| :: keys[i] == properties[i].key
  {
    seq(|properties|, i requires 0 <= i < |properties| => properties[i].key)
  }

  predicate HasProperty(properties: seq<Property>, key: string) {
    exists i | 0 <= i < |properties| :: properties[i].key == key
  }

  function RequiredOf(properties: seq<Property>, required: Option<seq<string>>): seq<string> {
    if required.Some? then required.value else Keys(properties)
  }

  /** The struct made of a schema accepts a value, or the `undefined` found at an absent property. */
  predicate Validates(schema: Schema, v: Option<Json>)
    decreases schema
  {
    match schema
    case StringSchema => v.Some? && v.value.JString?
    case NumberSchema => v.Some? && v.value.JNumber?
    case BooleanSchema => v.Some? && v.value.JBoolean?
    case ArraySchema(items) => v.Some? && v.value.JArray? && forall i | 0 <= i < |v.value.elems| :: Validates(items, Some(v.value.elems[i]))
    case ObjectSchema(properties, required, additional) =>
      var needed := RequiredOf(properties, required);
      && v.Some?
      && v.value.JObject?
      && if additional == Some(false) then
           // each field's struct is run on what the field holds, `undefined` included; an unknown key is refused
           && (forall i | 0 <= i < |properties| ::
                 var field := Field(v.value.props, properties[i].key);
                 (field.None? && properties[i].key !in needed) || Validates(properties[i].schema, field))
           && (forall key | key in v.value.props :: HasProperty(properties, key))
         else
           && (forall key | key in needed :: key in v.value.props)
           && (forall i | 0 <= i < |properties| :: properties[i].key in v.value.props ==>
                 Validates(properties[i].schema, Some(v.value.props[properties[i].key])))
  }

  /** No struct made of a schema accepts `undefined`. */
  lemma UndefinedIsInvalid(schema: Schema)
    ensures !Validates(schema, None)
  {
  }

  /** A loose struct, checked property by property: what it finds first missing or invalid ends the check. */
  method ValidateLoosely(properties: seq<Property>, required: Option<seq<string>>, additional: Option<bool>, v: Json) returns (valid: bool)
    requires additional != Some(false)
    ensures valid <==> Validates(ObjectSchema(properties, required, additional), Some(v))
  {
    if !v.JObject? { return false; }
    var needed := RequiredOf(properties, required);
    for i := 0 to |needed|
      invariant forall k | 0 <= k < i :: needed[k] in v.props
    {
      if needed[i] !in v.props { return false; }
    }
    for i := 0 to |properties|
      invariant forall k | 0 <= k < i :: properties[k].key in v.props ==> Validates(properties[k].schema, Some(v.props[properties[k].key]))
    {
      if properties[i].key in v.props && !Validates(properties[i].schema, Some(v.props[properties[i].key])) { return false; }
    }
    valid := true;
  }

  // ------------------------------------------------------------------ the combinators

  datatype Description = Description(pattern: Pattern, schema: Schema)

  datatype NamedDescription = NamedDescription(key: string, described: Description)

  function PatternsWhere(ds: seq<NamedDescription>, among: set<string>, wanted: bool): seq<PatternField> {
    if ds == [] then []
    else
      var earlier, last := PatternsWhere(ds[..|ds| - 1], among, wanted), ds[|ds| - 1];
      if (last.key in among) == wanted then earlier + [PatternField(last.key, last.described.pattern)] else earlier
  }

  function KeysNotIn(ds: seq<NamedDescription>, among: set<string>): seq<string> {
    if ds == [] then []
    else
      var earlier, last := KeysNotIn(ds[..|ds| - 1], among), ds[|ds| - 1];
      if last.key in among then earlier else earlier + [last.key]
  }

  function PropertiesOf(ds: seq<NamedDescription>): (ps: seq<Property>)
    ensures |ps| == |ds| && forall i | 0 <= i < |ds| :: ps[i] == Property(ds[i].key, ds[i].described.schema)
  {
    seq(|ds|, i requires 0 <= i < |ds| => Property(ds[i].key, ds[i].described.schema))
  }

  function ObjectDescription(ds: seq<NamedDescription>, optional: set<string>): Description {
    Description(
      MSplitRecord(PatternsWhere(ds, optional, false), PatternsWhere(ds, optional, true)),
      ObjectSchema(PropertiesOf(ds), Some(KeysNotIn(ds, optional)), Some(false)))
  }

  method DescribeObject(ds: seq<NamedDescription>, optional: set<string>) returns (d: Description)
    ensures d == ObjectDescription(ds, optional)
  {
    var requiredPatterns, optionalPatterns, schemaProperties, required := [], [], [], [];
    for i := 0 to |ds|
      invariant requiredPatterns == PatternsWhere(ds[..i], optional, false)
      invariant optionalPatterns == PatternsWhere(ds[..i], optional, true)
      invariant required == KeysNotIn(ds[..i], optional)
      invariant schemaProperties == PropertiesOf(ds[..i])
    {
      assert ds[..i + 1][..i] == ds[..i];
      schemaProperties := schemaProperties + [Property(ds[i].key, ds[i].described.schema)];
      if ds[i].key in optional {
        optionalPatterns := optionalPatterns + [PatternField(ds[i].key, ds[i].described.pattern)];
      } else {
        requiredPatterns := requiredPatterns + [PatternField(ds[i].key, ds[i].described.pattern)];
        required := required + [ds[i].key];
      }
    }
    assert ds[..|ds|] == ds;
    d := Description(MSplitRecord(requiredPatterns, optionalPatterns), ObjectSchema(schemaProperties, Some(required), Some(false)));
  }

  /** A shape as it is authored, combinator by combinator. */
  datatype Shape =
    | AString
    | ANumber
    | ABoolean
    | AnArray(items: Shape)
    | ARecord
    | AnObject(props: seq<NamedShape>, optional: set<string>)

  datatype NamedShape = NamedShape(key: string, shape: Shape)

  function Describe(s: Shape): Description {
    match s
    case AString => Description(MString, StringSchema)
    case ANumber => Description(MNumber, NumberSchema)
    case ABoolean => Description(MBoolean, BooleanSchema)
    case AnArray(items) => Description(MArrayOf(Describe(items).pattern), ArraySchema(Describe(items).schema))
    case ARecord => Description(MRecord, ObjectSchema([], None, Some(true)))
    case AnObject(props, optional) => ObjectDescription(DescribeAll(props), optional)
  }

  function DescribeAll(props: seq<NamedShape>): (ds: seq<NamedDescription>)
    ensures |ds| == |props|
    ensures forall i | 0 <= i < |ds| :: ds[i] == NamedDescription(props[i].key, Describe(props[i].shape))
  {
    seq(|props|, i requires 0 <= i < |props| => NamedDescription(props[i].key, Describe(props[i].shape)))
  }

  // ------------------------------------------------------------------ what a shape means

  /** The value has the shape, read off the shape alone. */
  predicate HasShape(v: Json, s: Shape)
    decreases s
  {
    match s
    case AString => v.JString?
    case ANumber => v.JNumber?
    case ABoolean => v.JBoolean?
    case AnArray(items) => v.JArray? && forall i | 0 <= i < |v.elems| :: HasShape(v.elems[i], items)
    case ARecord => v.JObject?
    case AnObject(props, optional) =>
      && v.JObject?
      && (forall i | 0 <= i < |props| :: if props[i].key in v.props then HasShape(v.props[props[i].key], props[i].shape) else props[i].key in optional)
      && (forall key | key in v.props :: exists i | 0 <= i < |props| :: props[i].key == key)
  }

  /** A shape's pattern matches exactly the values that have the shape. */
  lemma {:induction false} PatternMeansShape(s: Shape, v: Json)
    ensures Matches(v, Describe(s).pattern) <==> HasShape(v, s)
    decreases s
  {
    match s
    case AnArray(items) =>
      if v.JArray? {
        forall i | 0 <= i < |v.elems| ensures Matches(v.elems[i], Describe(items).pattern) <==> HasShape(v.elems[i], items) {
          PatternMeansShape(items, v.elems[i]);
        }
      }
    case AnObject(props, optional) =>
      var ds := DescribeAll(props);
      ObjectPatternMeans(ds, optional, v);
      if v.JObject? {
        forall i | 0 <= i < |props|
          ensures FieldAccepted(ds[i], optional, v.props) <==>
                    if props[i].key in v.props then HasShape(v.props[props[i].key], props[i].shape) else props[i].key in optional
        {
          if props[i].key in v.props { PatternMeansShape(props[i].shape, v.props[props[i].key]); }
        }
        forall key ensures IsDescribed(ds, key) <==> exists i | 0 <= i < |props| :: props[i].key == key {
          if IsDescribed(ds, key) { var i :| 0 <= i < |ds| && ds[i].key == key; assert props[i].key == key; }
          if i :| 0 <= i < |props| && props[i].key == key { assert ds[i].key == key; }
        }
      }
    case _ =>
  }

  // ------------------------------------------------------------------ the two projections accept the same values

  lemma {:induction false} PatternFound(ds: seq<NamedDescription>, among: set<string>, wanted: bool, i: nat) returns (k: nat)
    requires i < |ds| && (ds[i].key in among) == wanted
    ensures k < |PatternsWhere(ds, among, wanted)|
    ensures PatternsWhere(ds, among, wanted)[k] == PatternField(ds[i].key, ds[i].described.pattern)
  {
    var n := |ds| - 1;
    if i == n { k := |PatternsWhere(ds[..n], among, wanted)|; } else { k := PatternFound(ds[..n], among, wanted, i); }
  }

  lemma {:induction false} PatternComesFrom(ds: seq<NamedDescription>, among: set<string>, wanted: bool, k: nat) returns (i: nat)
    requires k < |PatternsWhere(ds, among, wanted)|
    ensures i < |ds| && (ds[i].key in among) == wanted
    ensures PatternsWhere(ds, among, wanted)[k] == PatternField(ds[i].key, ds[i].described.pattern)
  {
    var n := |ds| - 1;
    if k < |PatternsWhere(ds[..n], among, wanted)| { i := PatternComesFrom(ds[..n], among, wanted, k); } else { i := n; }
  }

  lemma {:induction false} KeysNotInMeans(ds: seq<NamedDescription>, among: set<string>, key: string)
    ensures key in KeysNotIn(ds, among) <==> key !in among && exists i :: 0 <= i < |ds| && ds[i].key == key
  {
    if ds != [] {
      var n := |ds| - 1;
      KeysNotInMeans(ds[..n], among, key);
      if key in KeysNotIn(ds[..n], among) { var i :| 0 <= i < n && ds[..n][i].key == key; assert ds[i].key == key; }
      if i :| 0 <= i < |ds| && ds[i].key == key && key !in among && i < n { assert ds[..n][i].key == key; }
    }
  }

  /** What an object description asks of each of its properties. */
  predicate FieldAccepted(d: NamedDescription, optional: set<string>, props: map<string, Json>) {
    if d.key in props then Matches(props[d.key], d.described.pattern) else d.key in optional
  }

  predicate IsDescribed(ds: seq<NamedDescription>, key: string) {
    exists i | 0 <= i < |ds| :: ds[i].key == key
  }

  /** The pattern of an object description, property by property. */
  lemma ObjectPatternMeans(ds: seq<NamedDescription>, optional: set<string>, v: Json)
    ensures Matches(v, ObjectDescription(ds, optional).pattern) <==>
              && v.JObject?
              && (forall i | 0 <= i < |ds| :: FieldAccepted(ds[i], optional, v.props))
              && (forall key | key in v.props :: IsDescribed(ds, key))
  {
    var required, optionals := PatternsWhere(ds, optional, false), PatternsWhere(ds, optional, true);
    var p := MSplitRecord(required, optionals);
    if v.JObject? {
      if Matches(v, p) {
        forall i | 0 <= i < |ds| ensures FieldAccepted(ds[i], optional, v.props) {
          var k := PatternFound(ds, optional, ds[i].key in optional, i);
        }
        forall key | key in v.props ensures IsDescribed(ds, key) {
          if HasPatternFor(required, key) {
            var k :| 0 <= k < |required| && required[k].key == key;
            var i := PatternComesFrom(ds, optional, false, k);
          } else {
            var k :| 0 <= k < |optionals| && optionals[k].key == key;
            var i := PatternComesFrom(ds, optional, true, k);
          }
        }
      }
      if (forall i | 0 <= i < |ds| :: FieldAccepted(ds[i], optional, v.props)) && (forall key | key in v.props :: IsDescribed(ds, key)) {
        forall k | 0 <= k < |required| ensures required[k].key in v.props && Matches(v.props[required[k].key], required[k].pattern) {
          var i := PatternComesFrom(ds, optional, false, k);
          assert FieldAccepted(ds[i], optional, v.props);
        }
        forall k | 0 <= k < |optionals| && optionals[k].key in v.props ensures Matches(v.props[optionals[k].key], optionals[k].pattern) {
          var i := PatternComesFrom(ds, optional, true, k);
          assert FieldAccepted(ds[i], optional, v.props);
        }
        forall key | key in v.props ensures HasPatternFor(required, key) || HasPatternFor(optionals, key) {
          var i :| 0 <= i < |ds| && ds[i].key == key;
          var k := PatternFound(ds, optional, key in optional, i);
        }
      }
    }
  }

  /** The struct of an object description, property by property. */
  lemma ObjectStructMeans(ds: seq<NamedDescription>, optional: set<string>, v: Json)
    ensures Validates(ObjectDescription(ds, optional).schema, Some(v)) <==>
              && v.JObject?
              && (forall i | 0 <= i < |ds| ::
                    if ds[i].key in v.props then Validates(ds[i].described.schema, Some(v.props[ds[i].key])) else ds[i].key in optional)
              && (forall key | key in v.props :: IsDescribed(ds, key))
  {
    var properties, required := PropertiesOf(ds), KeysNotIn(ds, optional);
    if v.JObject? {
      forall i | 0 <= i < |ds|
        ensures var field := Field(v.props, properties[i].key);
                ((field.None? && properties[i].key !in required) || Validates(properties[i].schema, field)) <==>
                  if ds[i].key in v.props then Validates(ds[i].described.schema, Some(v.props[ds[i].key])) else ds[i].key in optional
      {
        KeysNotInMeans(ds, optional, ds[i].key);
        UndefinedIsInvalid(properties[i].schema);
      }
      forall key ensures HasProperty(properties, key) <==> IsDescribed(ds, key) {
        if HasProperty(properties, key) { var i :| 0 <= i < |properties| && properties[i].key == key; assert ds[i].key == key; }
        if IsDescribed(ds, key) { var i :| 0 <= i < |ds| && ds[i].key == key; assert properties[i].key == key; }
      }
    }
  }

  /** A value matches a shape's pattern exactly when it validates against the struct made of the shape's schema. */
  lemma {:induction false} OneDescriptionOneMeaning(s: Shape, v: Json)
    ensures Matches(v, Describe(s).pattern) <==> Validates(Describe(s).schema, Some(v))
    decreases s
  {
    match s
    case AnArray(items) =>
      if v.JArray? {
        forall i | 0 <= i < |v.elems| ensures Matches(v.elems[i], Describe(items).pattern) <==> Validates(Describe(items).schema, Some(v.elems[i])) {
          OneDescriptionOneMeaning(items, v.elems[i]);
        }
      }
    case AnObject(props, optional) =>
      var ds := DescribeAll(props);
      ObjectPatternMeans(ds, optional, v);
      ObjectStructMeans(ds, optional, v);
      if v.JObject? {
        forall i | 0 <= i < |ds| && ds[i].key in v.props
          ensures Matches(v.props[ds[i].key], ds[i].described.pattern) <==> Validates(ds[i].described.schema, Some(v.props[ds[i].key]))
        {
          OneDescriptionOneMeaning(props[i].shape, v.props[ds[i].key]);
        }
      }
    case _ =>
  }
}
