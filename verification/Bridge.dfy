/**
 * One connection's bridge (packages/ocap-jsonrpc-vat/src/bridge.ts): a naming table updated in place as
 * requests are handled one at a time, and rolled back for each reply that reports a failure.
 *
 * The hooks are parameters: what redeeming a URL yields, and what a send to an object answers.
 */
module BridgeSession {
  import opened Prelude
  import opened BridgeTrees

  // ------------------------------------------------------------------ the table's two maps

  /** Name to object, for the objects named in this order. */
  function NamesOf(order: seq<Value>): map<string, Value> {
    if order == [] then map[] else NamesOf(order[..|order| - 1])[NthName(|order| - 1) := order[|order| - 1]]
  }

  function ObjectsOf(order: seq<Value>): map<Value, string> {
    if order == [] then map[] else ObjectsOf(order[..|order| - 1])[order[|order| - 1] := NthName(|order| - 1)]
  }

  /** Every named object is found by its name, */
  lemma {:induction false} NameHolds(order: seq<Value>, i: nat)
    requires i < |order|
    ensures NthName(i) in NamesOf(order) && NamesOf(order)[NthName(i)] == order[i]
    decreases |order|
  {
    hide NthName;
    var n := |order| - 1;
    if i < n {
      NameHolds(order[..n], i);
      DistinctNames(i, n);
    }
  }

  /** and its name by it, */
  lemma {:induction false} ObjectHolds(order: seq<Value>, i: nat)
    requires i < |order| && Distinct(order)
    ensures order[i] in ObjectsOf(order) && ObjectsOf(order)[order[i]] == NthName(i)
    decreases |order|
  {
    hide NthName;
    var n := |order| - 1;
    if i < n { ObjectHolds(order[..n], i); }
  }

  /** and there are no other names, */
  lemma {:induction false} OnlyTheseNames(order: seq<Value>, name: string)
    ensures name in NamesOf(order) <==> FindName(order, name, 0) < |order|
    ensures name in NamesOf(order) ==> NamesOf(order)[name] == order[FindName(order, name, 0)]
    decreases |order|
  {
    hide NthName, FindName;
    var k := FindName(order, name, 0);
    if k < |order| { NameHolds(order, k); }
    if name in NamesOf(order) { var i := NamedAt(order, name); ResolvesItsName(order, i); }
  }

  lemma {:induction false} NamedAt(order: seq<Value>, name: string) returns (i: nat)
    requires name in NamesOf(order)
    ensures i < |order| && NthName(i) == name
    decreases |order|
  {
    hide NthName;
    var n := |order| - 1;
    if name == NthName(n) { i := n; } else { i := NamedAt(order[..n], name); }
  }

  /** and no other objects: the two maps are inverse to each other over exactly `j1` to `jn`. */
  lemma {:induction false} OnlyTheseObjects(order: seq<Value>, v: Value)
    requires Distinct(order)
    ensures v in ObjectsOf(order) <==> v in order
    ensures v in order ==> ObjectsOf(order)[v] == NameOf(order, v)
    decreases |order|
  {
    hide NthName;
    if v in order {
      ObjectHolds(order, IndexOf(order, v));
    } else if order != [] {
      var n := |order| - 1;
      OnlyTheseObjects(order[..n], v);
      assert order[n] != v;
    }
  }

  lemma DistinctNames(i: nat, j: nat)
    ensures NthName(i) == NthName(j) ==> i == j
  {
    NamesAreDistinctMarkers(i + 1, j + 1);
  }

  lemma OneMore(order: seq<Value>, v: Value)
    ensures NamesOf(order + [v]) == NamesOf(order)[NthName(|order|) := v]
    ensures ObjectsOf(order + [v]) == ObjectsOf(order)[v := NthName(|order|)]
  {
    assert (order + [v])[..|order|] == order;
  }

  /** The names given to the objects from `from` up to `to`. */
  function NamesBetween(from: nat, to: nat): (names: seq<string>)
    requires from <= to
    ensures |names| == to - from
  {
    seq(to - from, i requires 0 <= i < to - from => NthName(from + i))
  }

  function Elements<T(==)>(xs: seq<T>): set<T> {
    set x | x in xs
  }

  lemma ElementsAppend<T>(xs: seq<T>, x: T)
    ensures Elements(xs + [x]) == Elements(xs) + {x}
  {
  }

  lemma ForgettingOne<K, V>(m: map<K, V>, key: K, value: V, gone: set<K>)
    requires key !in m
    ensures m[key := value] - (gone + {key}) == m - gone
  {
  }

  lemma OneMoreName(k: nat, n: nat)
    requires k <= n
    ensures NamesBetween(k, n + 1) == NamesBetween(k, n) + [NthName(n)]
  {
    hide NthName;
  }

  /** Taking away the newest objects and their names leaves the table as it was before they were named. */
  lemma {:induction false} Forgetting(order: seq<Value>, k: nat)
    requires k <= |order| && Distinct(order)
    ensures NamesOf(order) - Elements(NamesBetween(k, |order|)) == NamesOf(order[..k])
    ensures ObjectsOf(order) - Elements(order[k..]) == ObjectsOf(order[..k])
    decreases |order|
  {
    hide NthName, Elements, NamesBetween;
    if k == |order| {
      assert order[..k] == order && order[k..] == [] && NamesBetween(k, k) == [];
      assert Elements<string>([]) == {} && Elements<Value>([]) == {} by { NoElements<string>(); NoElements<Value>(); }
    } else {
      var n := |order| - 1;
      var init := order[..n];
      Forgetting(init, k);
      assert init[..k] == order[..k];
      OneMoreName(k, n);
      ElementsAppend(NamesBetween(k, n), NthName(n));
      FreshName(init);
      ForgettingOne(NamesOf(init), NthName(n), order[n], Elements(NamesBetween(k, n)));
      assert order[k..] == init[k..] + [order[n]];
      ElementsAppend(init[k..], order[n]);
      assert forall j | 0 <= j < n :: init[j] == order[j];
      OnlyTheseObjects(init, order[n]);
      ForgettingOne(ObjectsOf(init), order[n], NthName(n), Elements(init[k..]));
    }
  }

  lemma NoElements<T>()
    ensures Elements<T>([]) == {}
  {
  }

  lemma FreshName(order: seq<Value>)
    ensures NthName(|order|) !in NamesOf(order)
  {
    if NthName(|order|) in NamesOf(order) { var i := NamedAt(order, NthName(|order|)); DistinctNames(i, |order|); }
  }

  // ------------------------------------------------------------------ requests and replies

  datatype Response = Success(id: Value, result: Value) | Failure(id: Value, code: int)

  const INVALID_REQUEST: int := -32600
  const METHOD_NOT_FOUND: int := -32601
  const INVALID_PARAMS: int := -32602
  const INTERNAL_ERROR: int := -32603
  const APPLICATION_ERROR: int := -32000

  /** A hook answers, or throws. */
  datatype Answer = Answered(value: Value) | Thrown

  /** What redeeming a URL yields, and what sending a method to an object answers. */
  datatype Hooks = Hooks(redeem: string -> Answer, invoke: (Value, string, seq<Value>) -> Answer)

  function KeyIndex(keys: seq<string>, key: string): nat {
    if keys == [] || keys[0] == key then 0 else 1 + KeyIndex(keys[1..], key)
  }

  /** A field of a record, `undefined` if it has none. */
  function Get(v: Value, key: string): Value {
    if v.Rec? && KeyIndex(v.keys, key) < |v.keys| && KeyIndex(v.keys, key) < |v.values| then v.values[KeyIndex(v.keys, key)]
    else Undefined
  }

  predicate IsId(v: Value) {
    v.Null? || v.Num? || v.Str?
  }

  function ExtractId(request: Value): Value {
    if IsId(Get(request, "id")) then Get(request, "id") else Null
  }

  predicate IsRequest(request: Value) {
    Get(request, "jsonrpc") == Str("2.0") && Get(request, "method").Str? && IsId(Get(request, "id"))
  }

  datatype SendParams = SendParams(target: string, verb: string, args: seq<Value>)

  function ParamsOfSend(params: Value): Option<SendParams> {
    var target, name, args := Get(params, "target"), Get(params, "method"), Get(params, "args");
    if !target.Str? || !IsMarker(target.s) || !name.Str? || !(args.Undefined? || args.Arr?) then None
    else Some(SendParams(target.s[2..], name.s, if args.Arr? then args.items else []))
  }

  /** The encoder accepts what the walkers leave, but for a big integer. */
  predicate Encodable(v: Value)
    decreases v
  {
    match v
    case BigInt(_) => false
    case Arr(items) => forall i | 0 <= i < |items| :: Encodable(items[i])
    case Rec(_, values) => forall i | 0 <= i < |values| :: Encodable(values[i])
    case _ => true
  }

  // ------------------------------------------------------------------ what handling a request means

  datatype Handled = Handled(response: Response, order: seq<Value>)

  function OrNull(v: Value): Value {
    if v.Undefined? then Null else v
  }

  function Redeem(id: Value, params: Value, order: seq<Value>, hooks: Hooks): Handled {
    var url := Get(params, "url");
    if !url.Str? then Handled(Failure(id, INVALID_PARAMS), order)
    else match hooks.redeem(url.s)
         case Thrown => Handled(Failure(id, APPLICATION_ERROR), order)
         case Answered(v) => Handled(Success(id, Str(Marker(NameOf(Named(order, v), v)))), Named(order, v))
  }

  function Send(id: Value, params: Value, order: seq<Value>, hooks: Hooks): Handled {
    match ParamsOfSend(params)
    case None => Handled(Failure(id, INVALID_PARAMS), order)
    case Some(p) =>
      match Resolve(order, p.target)
      case None => Handled(Failure(id, INVALID_PARAMS), order)
      case Some(target) =>
        match ExpandAll(p.args, order)
        case None => Handled(Failure(id, INVALID_PARAMS), order)
        case Some(args) =>
          match hooks.invoke(target, p.verb, args)
          case Thrown => Handled(Failure(id, APPLICATION_ERROR), order)
          case Answered(v) =>
            match Substitute(v, order)
            case Failed(o) => Handled(Failure(id, INTERNAL_ERROR), o)
            case Walked(out, o) => Handled(Success(id, OrNull(out)), o)
  }

  function Handle(request: Value, order: seq<Value>, hooks: Hooks): Handled {
    if !IsRequest(request) then Handled(Failure(ExtractId(request), INVALID_REQUEST), order)
    else
      var id, params := Get(request, "id"), Get(request, "params");
      if Get(request, "method") == Str("redeemURL") then Redeem(id, params, order, hooks)
      else if Get(request, "method") == Str("send") then Send(id, params, order, hooks)
      else Handled(Failure(id, METHOD_NOT_FOUND), order)
  }

  /** A request's reply, and the table after it: as it was, unless the reply is a success that can be written. */
  function Dispatched(request: Value, order: seq<Value>, hooks: Hooks): Handled {
    var h := Handle(request, order, hooks);
    if h.response.Failure? then Handled(h.response, order)
    else if !Encodable(h.response.result) then Handled(Failure(h.response.id, INTERNAL_ERROR), order)
    else h
  }

  // ------------------------------------------------------------------ requests are atomic

  lemma HandlingExtends(request: Value, order: seq<Value>, hooks: Hooks)
    ensures Extends(order, Handle(request, order, hooks).order)
  {
    if IsRequest(request) && Get(request, "method") == Str("send") {
      var params := ParamsOfSend(Get(request, "params"));
      if params.Some? && Resolve(order, params.value.target).Some? && ExpandAll(params.value.args, order).Some? {
        var a := hooks.invoke(Resolve(order, params.value.target).value, params.value.verb, ExpandAll(params.value.args, order).value);
        if a.Answered? { SubstituteRenames(a.value, order); }
      }
    }
  }

  /**
   * Over one request: a failure names nothing, a success keeps every name there was, and every name it gives
   * stands in the reply.
   */
  lemma RequestsAreAtomic(request: Value, order: seq<Value>, hooks: Hooks)
    requires Distinct(order)
    ensures var d := Dispatched(request, order, hooks);
            && Extends(order, d.order)
            && (d.response.Failure? ==> d.order == order)
            && (forall i | |order| <= i < |d.order| :: d.response.Success? && Occurs(Marker(NthName(i)), d.response.result))
  {
    HandlingExtends(request, order, hooks);
    var d := Dispatched(request, order, hooks);
    forall i | |order| <= i < |d.order| ensures d.response.Success? && Occurs(Marker(NthName(i)), d.response.result) {
      SuccessMintsWhatItShows(request, order, hooks, i);
    }
  }

  lemma SuccessMintsWhatItShows(request: Value, order: seq<Value>, hooks: Hooks, i: nat)
    requires Distinct(order)
    requires var h := Handle(request, order, hooks); h.response.Success? && |order| <= i < |h.order|
    ensures Occurs(Marker(NthName(i)), Handle(request, order, hooks).response.result)
  {
    if Get(request, "method") == Str("redeemURL") {
      var v := hooks.redeem(Get(Get(request, "params"), "url").s).value;
      assert Named(order, v)[|order|] == v && forall j | 0 <= j < |order| :: Named(order, v)[j] == order[j];
    } else {
      var p := ParamsOfSend(Get(request, "params")).value;
      var v := hooks.invoke(Resolve(order, p.target).value, p.verb, ExpandAll(p.args, order).value).value;
      MintedNamesOccur(v, order, i);
    }
  }

  /** Over any number of requests, a name keeps its object until the session is reset. */
  function Session(requests: seq<(Value, Hooks)>, order: seq<Value>): seq<Value> {
    if requests == [] then order else Session(requests[1..], Dispatched(requests[0].0, order, requests[0].1).order)
  }

  lemma {:induction false} NamesAreKept(requests: seq<(Value, Hooks)>, order: seq<Value>, i: nat)
    requires Distinct(order) && i < |order|
    ensures var o := Session(requests, order); Distinct(o) && i < |o| && o[i] == order[i]
    decreases |requests|
  {
    if requests != [] {
      RequestsAreAtomic(requests[0].0, order, requests[0].1);
      NamesAreKept(requests[1..], Dispatched(requests[0].0, order, requests[0].1).order, i);
    }
  }

  // ------------------------------------------------------------------ what a request comes to

  /** A JSON-RPC 2.0 request of this method, as the client wrote it. */
  predicate Calls(request: Value, id: Value, name: string) {
    && Get(request, "jsonrpc") == Str("2.0") && Get(request, "method") == Str(name)
    && Get(request, "id") == id && (id.Null? || id.Num? || id.Str?)
  }

  /** A send of a method, with arguments or none, to whatever the target names. */
  predicate SendsTo(request: Value, id: Value, target: string, verb: string, args: seq<Value>) {
    var params := Get(request, "params");
    && Calls(request, id, "send") && Get(params, "target") == Str(target) && Get(params, "method") == Str(verb)
    && (Get(params, "args") == Arr(args) || (args == [] && Get(params, "args").Undefined?))
  }

  /** The error of this code, with nothing named. */
  predicate Fails(d: Handled, id: Value, code: int, order: seq<Value>) {
    d == Handled(Failure(id, code), order)
  }

  /** There is a big integer in the tree, which JSON cannot write. */
  predicate HoldsBigInt(v: Value)
    decreases v
  {
    match v
    case BigInt(_) => true
    case Arr(items) => exists i | 0 <= i < |items| :: HoldsBigInt(items[i])
    case Rec(_, values) => exists i | 0 <= i < |values| :: HoldsBigInt(values[i])
    case _ => false
  }

  lemma {:induction false} EncodesUnlessBigInt(v: Value)
    ensures Encodable(v) <==> !HoldsBigInt(v)
    decreases v
  {
    match v
    case Arr(items) => forall i | 0 <= i < |items| ensures Encodable(items[i]) <==> !HoldsBigInt(items[i]) { EncodesUnlessBigInt(items[i]); }
    case Rec(_, values) => forall i | 0 <= i < |values| ensures Encodable(values[i]) <==> !HoldsBigInt(values[i]) { EncodesUnlessBigInt(values[i]); }
    case _ =>
  }

  /** Replacing references neither brings a big integer in nor takes one out. */
  lemma {:induction false} SubstitutingKeepsBigInts(v: Value, order: seq<Value>)
    requires Substitute(v, order).Walked?
    ensures HoldsBigInt(Substitute(v, order).value) <==> HoldsBigInt(v)
    decreases v
  {
    match v
    case Arr(items) => SubstitutingAllKeepsBigInts(items, order);
    case Rec(_, values) => SubstitutingAllKeepsBigInts(values, order);
    case _ =>
  }

  lemma {:induction false} SubstitutingAllKeepsBigInts(values: seq<Value>, order: seq<Value>)
    requires SubstituteAll(values, order).WalkedAll?
    ensures var out := SubstituteAll(values, order).values;
            |out| == |values| && forall i | 0 <= i < |values| :: HoldsBigInt(out[i]) <==> HoldsBigInt(values[i])
    decreases values
  {
    if values != [] {
      SubstitutingKeepsBigInts(values[0], order);
      SubstitutingAllKeepsBigInts(values[1..], Substitute(values[0], order).order);
    }
  }

  /** An object's answer as its client is to see it: its tree with references replaced, `undefined` as null, or an error. */
  predicate Replies(d: Handled, id: Value, answer: Answer, order: seq<Value>) {
    match answer
    case Thrown => Fails(d, id, -32000, order)
    case Answered(v) =>
      var w := Substitute(v, order);
      if !Clean(v) || HoldsBigInt(v) then Fails(d, id, -32603, order)
      else w.Walked? && d == Handled(Success(id, if v.Undefined? then Null else w.value), w.order)
  }

  lemma MarkerOfName(order: seq<Value>, i: nat)
    requires i < |order| && !order[i].Undefined?
    ensures IsMarker(Marker(NthName(i))) && Resolve(order, Marker(NthName(i))[2..]) == Some(order[i])
  {
    ResolvesItsName(order, i);
    NamesAreDistinctMarkers(i + 1, i + 1);
  }

  /** Only what is undefined is replaced by something undefined, and only what can be written is replaced by null. */
  lemma SubstitutedUndefined(v: Value, order: seq<Value>)
    requires Substitute(v, order).Walked?
    ensures Substitute(v, order).value.Undefined? <==> v.Undefined?
  {
  }

  /**
   * A send whose target names an object and whose arguments expand reaches that object, with the method and the
   * arguments expanded: the reply is made of the answer to that call, and of nothing else the hooks might do.
   */
  lemma SendReachesItsObject(request: Value, id: Value, i: nat, verb: string, args: seq<Value>, xs: seq<Value>, order: seq<Value>, hooks: Hooks)
    requires i < |order| && !order[i].Undefined?
    requires SendsTo(request, id, Marker(NthName(i)), verb, args) && ExpandAll(args, order) == Some(xs)
    ensures Replies(Dispatched(request, order, hooks), id, hooks.invoke(order[i], verb, xs), order)
  {
    hide ExpandAll, Substitute, IsMarker, Marker, NthName, Resolve, KeyIndex, Clean, Encodable, HoldsBigInt;
    MarkerOfName(order, i);
    var answer := hooks.invoke(order[i], verb, xs);
    if answer.Answered? {
      SubstituteRenames(answer.value, order);
      if Clean(answer.value) {
        SubstitutedUndefined(answer.value, order);
        SubstitutingKeepsBigInts(answer.value, order);
        EncodesUnlessBigInt(Substitute(answer.value, order).value);
      }
    }
    assert ParamsOfSend(Get(request, "params")) == Some(SendParams(Marker(NthName(i))[2..], verb, args));
    NullIsEncodable();
  }

  lemma NullIsEncodable()
    ensures Encodable(Null) && Encodable(Undefined)
  {
  }

  /** So what the hooks do with any other call makes no difference to the reply or the table. */
  lemma OnlyThatCallMatters(request: Value, id: Value, i: nat, verb: string, args: seq<Value>, xs: seq<Value>, order: seq<Value>, a: Hooks, b: Hooks)
    requires i < |order| && !order[i].Undefined?
    requires SendsTo(request, id, Marker(NthName(i)), verb, args) && ExpandAll(args, order) == Some(xs)
    requires a.invoke(order[i], verb, xs) == b.invoke(order[i], verb, xs)
    ensures Dispatched(request, order, a) == Dispatched(request, order, b)
  {
    hide Dispatched, ExpandAll, SendsTo, Substitute;
    SendReachesItsObject(request, id, i, verb, args, xs, order, a);
    SendReachesItsObject(request, id, i, verb, args, xs, order, b);
  }

  /** A target that names no object here, or is no marker, or an argument that names none, is refused before any call. */
  lemma UnknownReferencesAreRefused(request: Value, id: Value, target: string, verb: string, args: seq<Value>, order: seq<Value>, hooks: Hooks)
    requires SendsTo(request, id, target, verb, args)
    requires (forall i | 0 <= i < |order| && !order[i].Undefined? :: target != Marker(NthName(i))) || ExpandAll(args, order).None?
    ensures Fails(Dispatched(request, order, hooks), id, -32602, order)
  {
    hide ExpandAll, Substitute, NthName, KeyIndex, Encodable, IsMarker, Resolve, Marker;
    if forall i | 0 <= i < |order| && !order[i].Undefined? :: target != Marker(NthName(i)) { UnknownTarget(order, target); }
    MarkersAreLonger(target);
  }

  lemma MarkersAreLonger(target: string)
    ensures IsMarker(target) ==> |target| > 2
  {
  }

  lemma KnownTarget(order: seq<Value>, target: string) returns (k: nat)
    requires IsMarker(target) && Resolve(order, target[2..]).Some?
    ensures k < |order| && !order[k].Undefined? && target == Marker(NthName(k))
  {
    hide NthName;
    k := FindName(order, target[2..], 0);
    assert target == "@@" + target[2..];
  }

  lemma UnknownTarget(order: seq<Value>, target: string)
    requires forall i | 0 <= i < |order| && !order[i].Undefined? :: target != Marker(NthName(i))
    ensures !IsMarker(target) || Resolve(order, target[2..]).None?
  {
    hide NthName, Resolve, Marker;
    if IsMarker(target) && Resolve(order, target[2..]).Some? { var k := KnownTarget(order, target); }
  }

  /** Parameters of a send that are no target, method and arguments are refused likewise. */
  lemma MalformedSendIsRefused(request: Value, id: Value, order: seq<Value>, hooks: Hooks)
    requires Calls(request, id, "send")
    requires var params := Get(request, "params");
             !Get(params, "target").Str? || !Get(params, "method").Str? || !(Get(params, "args").Undefined? || Get(params, "args").Arr?)
    ensures Fails(Dispatched(request, order, hooks), id, -32602, order)
  {
    hide KeyIndex;
  }

  /** Redeeming a URL asks for that URL, and the reply is the name of what it yields. */
  lemma RedeemingNamesItsObject(request: Value, id: Value, url: string, order: seq<Value>, hooks: Hooks)
    requires Calls(request, id, "redeemURL") && Get(Get(request, "params"), "url") == Str(url)
    ensures var d := Dispatched(request, order, hooks);
            match hooks.redeem(url)
            case Thrown => Fails(d, id, -32000, order)
            case Answered(v) =>
              && d.order == (if v in order then order else order + [v])
              && exists i | 0 <= i < |d.order| :: d.order[i] == v && d.response == Success(id, Str(Marker(NthName(i))))
  {
    hide KeyIndex, Marker, NthName;
    var answer := hooks.redeem(url);
    if answer.Answered? {
      var named := Named(order, answer.value);
      var i := IndexOf(named, answer.value);
      assert i < |named| && named[i] == answer.value by { if answer.value !in order { NewestName(order, answer.value); } }
      assert Dispatched(request, order, hooks).response == Success(id, Str(Marker(NthName(i))));
    }
  }

  /** Any other method is unknown, a URL that is no string is refused, and what is no request is answered as none. */
  lemma OthersAreRefused(request: Value, id: Value, name: string, order: seq<Value>, hooks: Hooks)
    ensures Calls(request, id, name) && name != "send" && name != "redeemURL" ==> Fails(Dispatched(request, order, hooks), id, -32601, order)
    ensures Calls(request, id, "redeemURL") && !Get(Get(request, "params"), "url").Str? ==> Fails(Dispatched(request, order, hooks), id, -32602, order)
    ensures (forall i: Value, n: string :: !Calls(request, i, n)) ==>
              Fails(Dispatched(request, order, hooks), if IsId(Get(request, "id")) then Get(request, "id") else Null, -32600, order)
  {
    hide KeyIndex;
    if (forall i: Value, n: string :: !Calls(request, i, n)) && Get(request, "method").Str? {
      assert !Calls(request, Get(request, "id"), Get(request, "method").s);
    }
  }

  /** The first names a session gives. */
  lemma FirstNames()
    ensures NthName(0) == "j1" && NthName(8) == "j9" && NthName(9) == "j10" && Marker(NthName(0)) == "@@j1"
  {
    assert Decimal(1) == "1" && Decimal(9) == "9";
    assert Decimal(10) == Decimal(1) + [Digit(0)];
  }

  // ------------------------------------------------------------------ the bridge

  class Bridge {
    var nameToObj: map<string, Value>
    var objToName: map<Value, string>
    var nextObjId: nat
    var stagedNames: seq<string>
    var objIdBeforeRequest: nat
    /** The objects named, in order. */
    ghost var order: seq<Value>

    /** The maps hold exactly the named objects, and the staged names are those given since the request began. */
    ghost predicate Valid()
      reads this
    {
      && Distinct(order) && nextObjId == |order| && objIdBeforeRequest <= nextObjId
      && nameToObj == NamesOf(order) && objToName == ObjectsOf(order)
      && stagedNames == NamesBetween(objIdBeforeRequest, nextObjId)
    }

    /** Between requests nothing is staged. */
    ghost predicate Idle()
      reads this
    {
      Distinct(order) && nextObjId == |order| && nameToObj == NamesOf(order) && objToName == ObjectsOf(order)
    }

    constructor ()
      ensures Idle() && order == []
    {
      nameToObj, objToName, nextObjId, stagedNames, objIdBeforeRequest, order := map[], map[], 0, [], 0, [];
    }

    method ResetSession()
      modifies this
      ensures Idle() && order == []
    {
      nameToObj, objToName, nextObjId, stagedNames, objIdBeforeRequest, order := map[], map[], 0, [], 0, [];
    }

    /** The name an object has, or else the next one, which is staged. */
    method AssignName(obj: Value) returns (name: string)
      requires Valid()
      modifies this
      ensures Valid() && order == Named(old(order), obj) && name == NameOf(order, obj)
      ensures objIdBeforeRequest == old(objIdBeforeRequest)
    {
      hide NthName, NamesOf, ObjectsOf, IndexOf, NamesBetween;
      OnlyTheseObjects(order, obj);
      if obj in objToName {
        return objToName[obj];
      }
      name := NthName(nextObjId);
      OneMore(order, obj);
      OneMoreName(objIdBeforeRequest, nextObjId);
      nextObjId := nextObjId + 1;
      nameToObj := nameToObj[name := obj];
      objToName := objToName[obj := name];
      stagedNames := stagedNames + [name];
      order := order + [obj];
      NewestName(old(order), obj);
    }

    /** Forget the names given in this request, and rewind the count of names. */
    method RollbackNames()
      requires Valid()
      modifies this
      ensures Idle() && order == old(order)[..old(objIdBeforeRequest)]
    {
      hide NthName, NamesOf, ObjectsOf, NamesBetween, Elements;
      ghost var all, k := order, objIdBeforeRequest;
      assert all[k..k] == [];
      NoElements<string>();
      NoElements<Value>();
      var i := 0;
      while i < |stagedNames|
        invariant 0 <= i <= |stagedNames|
        invariant unchanged(`order) && unchanged(`nextObjId) && unchanged(`stagedNames) && unchanged(`objIdBeforeRequest)
        invariant nameToObj == NamesOf(all) - Elements(stagedNames[..i])
        invariant objToName == ObjectsOf(all) - Elements(all[k..k + i])
      {
        var name := stagedNames[i];
        ForgettingStaged(all, k, i);
        if name in nameToObj {
          objToName := objToName - {nameToObj[name]};
          nameToObj := nameToObj - {name};
        }
        i := i + 1;
      }
      Forgetting(all, k);
      assert stagedNames[..i] == stagedNames && all[k..k + i] == all[k..];
      nextObjId := objIdBeforeRequest;
      stagedNames := [];
      order := all[..k];
    }

    method ResolveName(name: string) returns (obj: Option<Value>)
      requires Valid()
      ensures obj == Resolve(order, name)
    {
      OnlyTheseNames(order, name);
      obj := if name in nameToObj && !nameToObj[name].Undefined? then Some(nameToObj[name]) else None;
    }

    /** Replace remotables by their markers, naming each as it is met. */
    method SubstituteRemotables(value: Value) returns (out: Option<Value>)
      requires Valid()
      modifies this
      ensures Valid() && objIdBeforeRequest == old(objIdBeforeRequest)
      ensures var w := Substitute(value, old(order)); order == w.order && out == (if w.Walked? then Some(w.value) else None)
      decreases value
    {
      match value
      case Remotable(_) =>
        var name := AssignName(value);
        out := Some(Str(Marker(name)));
      case Arr(items) =>
        var walked := SubstituteEach(items);
        out := if walked.Some? then Some(Arr(walked.value)) else None;
      case Thenable(_) => out := None;
      case NonFinite => out := None;
      case Rec(keys, values) =>
        var walked := SubstituteEach(values);
        out := if walked.Some? then Some(Rec(keys, walked.value)) else None;
      case _ => out := Some(value);
    }

    method SubstituteEach(values: seq<Value>) returns (out: Option<seq<Value>>)
      requires Valid()
      modifies this
      ensures Valid() && objIdBeforeRequest == old(objIdBeforeRequest)
      ensures var w := SubstituteAll(values, old(order)); order == w.order && out == (if w.WalkedAll? then Some(w.values) else None)
      decreases values
    {
      var done: seq<Value> := [];
      var i := 0;
      NoneFirst(values, order);
      while i < |values|
        invariant 0 <= i <= |values| && Valid() && objIdBeforeRequest == old(objIdBeforeRequest)
        invariant SubstituteAll(values, old(order)) == AfterFirst(done, SubstituteAll(values[i..], order))
      {
        var first := SubstituteRemotables(values[i]);
        if first.None? { return None; }
        assert values[i..][0] == values[i] && values[i..][1..] == values[i + 1..];
        MoreFirst(done, first.value, SubstituteAll(values[i + 1..], order));
        done := done + [first.value];
        i := i + 1;
      }
      assert values[i..] == [] && done + [] == done;
      out := Some(done);
    }

    /** Replace markers by the objects they name. */
    method ExpandMarkers(value: Value) returns (out: Option<Value>)
      requires Valid()
      ensures out == Expand(value, order)
      decreases value
    {
      match value
      case Str(s) => if IsMarker(s) { out := ResolveName(s[2..]); } else { out := Some(value); }
      case Arr(items) =>
        var expanded := ExpandEach(items);
        out := if expanded.Some? then Some(Arr(expanded.value)) else None;
      case Rec(keys, values) =>
        var expanded := ExpandEach(values);
        out := if expanded.Some? then Some(Rec(keys, expanded.value)) else None;
      case Remotable(_) => out := Some(Rec([], []));
      case Thenable(_) => out := Some(Rec([], []));
      case _ => out := Some(value);
    }

    method ExpandEach(values: seq<Value>) returns (out: Option<seq<Value>>)
      requires Valid()
      ensures out == ExpandAll(values, order)
      decreases values
    {
      var done: seq<Value> := [];
      var i := 0;
      NoneFirst(values, order);
      while i < |values|
        invariant 0 <= i <= |values|
        invariant ExpandAll(values, order) == AfterOption(done, ExpandAll(values[i..], order))
      {
        var first := ExpandMarkers(values[i]);
        if first.None? { return None; }
        assert values[i..][0] == values[i] && values[i..][1..] == values[i + 1..];
        MoreOption(done, first.value, ExpandAll(values[i + 1..], order));
        done := done + [first.value];
        i := i + 1;
      }
      assert values[i..] == [] && done + [] == done;
      out := Some(done);
    }

    method HandleRedeemURL(id: Value, params: Value, hooks: Hooks) returns (response: Response)
      requires Valid()
      modifies this
      ensures Valid() && objIdBeforeRequest == old(objIdBeforeRequest)
      ensures var h := Redeem(id, params, old(order), hooks); response == h.response && order == h.order
    {
      var url := Get(params, "url");
      if !url.Str? { return Failure(id, INVALID_PARAMS); }
      var answer := hooks.redeem(url.s);
      if answer.Thrown? { return Failure(id, APPLICATION_ERROR); }
      var name := AssignName(answer.value);
      response := Success(id, Str(Marker(name)));
    }

    method HandleSend(id: Value, params: Value, hooks: Hooks) returns (response: Response)
      requires Valid()
      modifies this
      ensures Valid() && objIdBeforeRequest == old(objIdBeforeRequest)
      ensures var h := Send(id, params, old(order), hooks); response == h.response && order == h.order
    {
      var p := ParamsOfSend(params);
      if p.None? { return Failure(id, INVALID_PARAMS); }
      var target := ResolveName(p.value.target);
      if target.None? { return Failure(id, INVALID_PARAMS); }
      var args := ExpandEach(p.value.args);
      if args.None? { return Failure(id, INVALID_PARAMS); }
      var answer := hooks.invoke(target.value, p.value.verb, args.value);
      if answer.Thrown? { return Failure(id, APPLICATION_ERROR); }
      var out := SubstituteRemotables(answer.value);
      if out.None? { return Failure(id, INTERNAL_ERROR); }
      response := Success(id, OrNull(out.value));
    }

    method HandleRequest(request: Value, hooks: Hooks) returns (response: Response)
      requires Valid()
      modifies this
      ensures Valid() && objIdBeforeRequest == old(objIdBeforeRequest)
      ensures var h := Handle(request, old(order), hooks); response == h.response && order == h.order
    {
      if !IsRequest(request) { return Failure(ExtractId(request), INVALID_REQUEST); }
      var id, params := Get(request, "id"), Get(request, "params");
      if Get(request, "method") == Str("redeemURL") {
        response := HandleRedeemURL(id, params, hooks);
      } else if Get(request, "method") == Str("send") {
        response := HandleSend(id, params, hooks);
      } else {
        response := Failure(id, METHOD_NOT_FOUND);
      }
    }

    /**
     * Handle one request. A reply that reports a failure, or cannot be encoded, leaves both maps and the
     * counter as they were before it.
     */
    method Dispatch(request: Value, hooks: Hooks) returns (response: Response)
      requires Idle()
      modifies this
      ensures Idle()
      ensures var d := Dispatched(request, old(order), hooks); response == d.response && order == d.order
      ensures response.Failure? ==>
                nameToObj == old(nameToObj) && objToName == old(objToName) && nextObjId == old(nextObjId)
    {
      objIdBeforeRequest := nextObjId;
      stagedNames := [];
      ghost var before := order;
      HandlingExtends(request, before, hooks);
      response := HandleRequest(request, hooks);
      assert order[..|before|] == before;
      if response.Failure? {
        RollbackNames();
        return;
      }
      if !Encodable(response.result) {
        RollbackNames();
        response := Failure(response.id, INTERNAL_ERROR);
        return;
      }
      stagedNames := [];
    }
  }

  lemma NewestName(order: seq<Value>, obj: Value)
    requires obj !in order
    ensures IndexOf(order + [obj], obj) == |order|
  {
    var longer := order + [obj];
    assert longer[|order|] == obj && forall j | 0 <= j < |order| :: longer[j] == order[j];
  }

  /** The names staged before the `i`th are other names. */
  lemma StagedOnce(k: nat, n: nat, i: nat)
    requires k + i < n
    ensures NamesBetween(k, n)[i] == NthName(k + i)
    ensures NthName(k + i) !in Elements(NamesBetween(k, n)[..i])
  {
    hide NthName;
    var earlier := NamesBetween(k, n)[..i];
    forall j | 0 <= j < i ensures earlier[j] != NthName(k + i) {
      assert earlier[j] == NthName(k + j);
      DistinctNames(k + j, k + i);
    }
  }

  /** Deleting one staged name and its object. */
  lemma ForgettingStaged(order: seq<Value>, k: nat, i: nat)
    requires Distinct(order) && k + i < |order|
    ensures var staged := NamesBetween(k, |order|);
            var names, objects := NamesOf(order) - Elements(staged[..i]), ObjectsOf(order) - Elements(order[k..k + i]);
            && staged[i] in names && names[staged[i]] == order[k + i]
            && names - {staged[i]} == NamesOf(order) - Elements(staged[..i + 1])
            && objects - {order[k + i]} == ObjectsOf(order) - Elements(order[k..k + i + 1])
  {
    hide NthName, NamesOf, ObjectsOf, NamesBetween, Elements;
    var staged := NamesBetween(k, |order|);
    StagedOnce(k, |order|, i);
    NameHolds(order, k + i);
    assert staged[..i + 1] == staged[..i] + [staged[i]];
    ElementsAppend(staged[..i], staged[i]);
    assert order[k..k + i + 1] == order[k..k + i] + [order[k + i]];
    ElementsAppend(order[k..k + i], order[k + i]);
  }

  function AfterFirst(done: seq<Value>, rest: WalkAll): WalkAll {
    if rest.FailedAll? then rest else WalkedAll(done + rest.values, rest.order)
  }

  lemma NoneFirst(values: seq<Value>, order: seq<Value>)
    ensures SubstituteAll(values, order) == AfterFirst([], SubstituteAll(values[0..], order))
    ensures ExpandAll(values, order) == AfterOption([], ExpandAll(values[0..], order))
  {
    assert values[0..] == values;
    assert forall vs: seq<Value> :: [] + vs == vs;
  }

  lemma MoreFirst(done: seq<Value>, first: Value, rest: WalkAll)
    ensures AfterFirst(done + [first], rest)
            == AfterFirst(done, if rest.FailedAll? then rest else WalkedAll([first] + rest.values, rest.order))
  {
    if rest.WalkedAll? { assert done + [first] + rest.values == done + ([first] + rest.values); }
  }

  function AfterOption(done: seq<Value>, rest: Option<seq<Value>>): Option<seq<Value>> {
    if rest.None? then None else Some(done + rest.value)
  }

  lemma MoreOption(done: seq<Value>, first: Value, rest: Option<seq<Value>>)
    ensures AfterOption(done + [first], rest) == AfterOption(done, if rest.None? then None else Some([first] + rest.value))
  {
    if rest.Some? { assert done + [first] + rest.value == done + ([first] + rest.value); }
  }
}
