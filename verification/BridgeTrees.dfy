/**
 * The two tree walkers of the ocap JSON-RPC vat and the naming table they share
 * (packages/ocap-jsonrpc-vat/src/json-rpc.ts, bridge.ts).
 *
 * The table is specified by the objects it has named, in the order it named them: the first is `j1`, the
 * second `j2`, and so on.
 */
module BridgeTrees {
  import opened Prelude

  /** What a result or an argument can hold. Equal values stand for one object. */
  datatype Value =
    | Undefined
    | Null
    | Bool(b: bool)
    | Num(n: int)
    | NonFinite
    | BigInt(big: int)
    | Str(s: string)
    | Arr(items: seq<Value>)
    | Rec(keys: seq<string>, values: seq<Value>)
    | Remotable(id: nat)
    | Thenable(id: nat)

  // ------------------------------------------------------------------ names and markers

  function Digit(d: nat): char
    requires d < 10
  {
    "0123456789"[d]
  }

  function Decimal(n: nat): (s: string)
    ensures s != [] && (|s| == 1 <==> n < 10)
  {
    if n < 10 then [Digit(n)] else Decimal(n / 10) + [Digit(n % 10)]
  }

  function Name(n: nat): string {
    "j" + Decimal(n)
  }

  /** The name of the object that was named after `i` others. */
  function NthName(i: nat): string {
    Name(i + 1)
  }

  const MARKER_PREFIX := "@@"

  function Marker(name: string): string {
    MARKER_PREFIX + name
  }

  predicate AlphaNumeric(c: char) {
    'a' <= c <= 'z' || 'A' <= c <= 'Z' || '0' <= c <= '9'
  }

  /** A whole string that is the sigil and an alphanumeric name. */
  predicate IsMarker(s: string) {
    |s| > 2 && s[..2] == MARKER_PREFIX && forall i | 2 <= i < |s| :: AlphaNumeric(s[i])
  }

  lemma {:induction false} DecimalIsAlphaNumeric(n: nat)
    ensures forall i | 0 <= i < |Decimal(n)| :: AlphaNumeric(Decimal(n)[i])
  {
    if n >= 10 { DecimalIsAlphaNumeric(n / 10); }
  }

  lemma {:induction false} DecimalIsInjective(m: nat, n: nat)
    requires Decimal(m) == Decimal(n)
    ensures m == n
    decreases m + n
  {
    var dm, dn := Decimal(m), Decimal(n);
    if m >= 10 && n >= 10 {
      assert dm[..|dm| - 1] == Decimal(m / 10) && dn[..|dn| - 1] == Decimal(n / 10);
      DecimalIsInjective(m / 10, n / 10);
      DigitIsInjective(m % 10, n % 10);
      assert dm[|dm| - 1] == Digit(m % 10) && dn[|dn| - 1] == Digit(n % 10);
    } else if m < 10 && n < 10 {
      DigitIsInjective(m, n);
      assert dm[0] == Digit(m) && dn[0] == Digit(n);
    }
  }

  lemma DigitIsInjective(a: nat, b: nat)
    requires a < 10 && b < 10
    ensures Digit(a) == Digit(b) ==> a == b
  {
  }

  /** No two objects share a name, and every name makes a marker the walkers recognise. */
  lemma NamesAreDistinctMarkers(m: nat, n: nat)
    ensures Name(m) == Name(n) ==> m == n
    ensures IsMarker(Marker(Name(n))) && Marker(Name(n))[2..] == Name(n)
  {
    if Name(m) == Name(n) {
      assert Name(m)[1..] == Decimal(m) && Name(n)[1..] == Decimal(n);
      DecimalIsInjective(m, n);
    }
    DecimalIsAlphaNumeric(n);
    var s := Marker(Name(n));
    assert s[..2] == MARKER_PREFIX && s[2] == 'j' && s[2..] == Name(n);
    forall i | 2 < i < |s| ensures AlphaNumeric(s[i]) { assert s[i] == Decimal(n)[i - 3]; }
  }

  // ------------------------------------------------------------------ the table, as an order

  predicate Distinct(order: seq<Value>) {
    forall i, j | 0 <= i < j < |order| :: order[i] != order[j]
  }

  /** Where an object stands, or the number of objects if it has no name. */
  function IndexOf(order: seq<Value>, v: Value): (i: nat)
    ensures i <= |order|
    ensures i < |order| ==> order[i] == v
    ensures forall j | 0 <= j < i :: order[j] != v
  {
    if order == [] || order[0] == v then 0 else 1 + IndexOf(order[1..], v)
  }

  function NameOf(order: seq<Value>, v: Value): string {
    NthName(IndexOf(order, v))
  }

  /** The order once an object has a name: the one it has, or the next. */
  function Named(order: seq<Value>, v: Value): seq<Value> {
    if v in order then order else order + [v]
  }

  /** Where a name stands among those from `j(i+1)` on. */
  function FindName(order: seq<Value>, name: string, i: nat): (k: nat)
    requires i <= |order|
    ensures i <= k <= |order|
    ensures k < |order| ==> NthName(k) == name
    ensures forall j | i <= j < k :: NthName(j) != name
    decreases |order| - i
  {
    if i == |order| || NthName(i) == name then i else FindName(order, name, i + 1)
  }

  /** The object of a name. One that is `undefined` is as good as none. */
  function Resolve(order: seq<Value>, name: string): Option<Value> {
    var k := FindName(order, name, 0);
    if k < |order| && !order[k].Undefined? then Some(order[k]) else None
  }

  lemma ResolvesItsName(order: seq<Value>, i: nat)
    requires i < |order|
    ensures FindName(order, NthName(i), 0) == i
  {
    var k := FindName(order, NthName(i), 0);
    NamesAreDistinctMarkers(k + 1, i + 1);
  }

  // ------------------------------------------------------------------ the walkers

  datatype Walk = Walked(value: Value, order: seq<Value>) | Failed(order: seq<Value>)
  datatype WalkAll = WalkedAll(values: seq<Value>, order: seq<Value>) | FailedAll(order: seq<Value>)

  /** Replace each remotable by its marker, naming those seen for the first time as they are met. */
  function Substitute(v: Value, order: seq<Value>): Walk
    decreases v
  {
    match v
    case Remotable(_) => Walked(Str(Marker(NameOf(Named(order, v), v))), Named(order, v))
    case Arr(items) => (match SubstituteAll(items, order) case FailedAll(o) => Failed(o) case WalkedAll(out, o) => Walked(Arr(out), o))
    case Thenable(_) => Failed(order)
    case NonFinite => Failed(order)
    case Rec(keys, values) =>
      (match SubstituteAll(values, order) case FailedAll(o) => Failed(o) case WalkedAll(out, o) => Walked(Rec(keys, out), o))
    case _ => Walked(v, order)
  }

  function SubstituteAll(values: seq<Value>, order: seq<Value>): WalkAll
    decreases values
  {
    if values == [] then WalkedAll([], order)
    else match Substitute(values[0], order)
         case Failed(o) => FailedAll(o)
         case Walked(first, o) =>
           match SubstituteAll(values[1..], o)
           case FailedAll(o2) => FailedAll(o2)
           case WalkedAll(rest, o2) => WalkedAll([first] + rest, o2)
  }

  /** Replace each marker by the object it names, or fail at the first that names none. */
  function Expand(v: Value, order: seq<Value>): Option<Value>
    decreases v
  {
    match v
    case Str(s) => if IsMarker(s) then Resolve(order, s[2..]) else Some(v)
    case Arr(items) => (match ExpandAll(items, order) case None => None case Some(out) => Some(Arr(out)))
    case Rec(keys, values) => (match ExpandAll(values, order) case None => None case Some(out) => Some(Rec(keys, out)))
    case Remotable(_) => Some(Rec([], []))
    case Thenable(_) => Some(Rec([], []))
    case _ => Some(v)
  }

  function ExpandAll(values: seq<Value>, order: seq<Value>): Option<seq<Value>>
    decreases values
  {
    if values == [] then Some([])
    else match Expand(values[0], order)
         case None => None
         case Some(first) => match ExpandAll(values[1..], order) case None => None case Some(rest) => Some([first] + rest)
  }

  // ------------------------------------------------------------------ what a walk means

  /** Nothing in the tree lacks a JSON form the encoder would refuse. */
  predicate Clean(v: Value)
    decreases v
  {
    match v
    case Thenable(_) => false
    case NonFinite => false
    case Arr(items) => forall i | 0 <= i < |items| :: Clean(items[i])
    case Rec(_, values) => forall i | 0 <= i < |values| :: Clean(values[i])
    case _ => true
  }

  /** Every remotable in the tree has a name. */
  predicate AllNamed(v: Value, order: seq<Value>)
    decreases v
  {
    match v
    case Remotable(_) => v in order
    case Arr(items) => forall i | 0 <= i < |items| :: AllNamed(items[i], order)
    case Rec(_, values) => forall i | 0 <= i < |values| :: AllNamed(values[i], order)
    case _ => true
  }

  /** The tree with each remotable replaced by the marker of the name it has: no table is threaded through. */
  function Rename(v: Value, order: seq<Value>): Value
    decreases v
  {
    match v
    case Remotable(_) => Str(Marker(NameOf(order, v)))
    case Arr(items) => Arr(RenameAll(items, order))
    case Rec(keys, values) => Rec(keys, RenameAll(values, order))
    case _ => v
  }

  function RenameAll(values: seq<Value>, order: seq<Value>): (out: seq<Value>)
    ensures |out| == |values|
    ensures forall i | 0 <= i < |values| :: out[i] == Rename(values[i], order)
    decreases values
  {
    if values == [] then [] else [Rename(values[0], order)] + RenameAll(values[1..], order)
  }

  predicate Extends(order: seq<Value>, longer: seq<Value>) {
    order <= longer && (Distinct(order) ==> Distinct(longer))
  }

  lemma IndexStays(order: seq<Value>, longer: seq<Value>, v: Value)
    requires v in order && order <= longer
    ensures IndexOf(longer, v) == IndexOf(order, v)
  {
    var i, j := IndexOf(longer, v), IndexOf(order, v);
    assert forall k | 0 <= k < |order| :: order[k] == longer[k];
  }

  /** A name once given is kept. */
  lemma {:induction false} RenameStays(v: Value, order: seq<Value>, longer: seq<Value>)
    requires AllNamed(v, order) && order <= longer
    ensures Rename(v, longer) == Rename(v, order) && AllNamed(v, longer)
    decreases v
  {
    match v
    case Remotable(_) => IndexStays(order, longer, v);
    case Arr(items) =>
      forall i | 0 <= i < |items| ensures Rename(items[i], longer) == Rename(items[i], order) && AllNamed(items[i], longer) {
        RenameStays(items[i], order, longer);
      }
      assert RenameAll(items, longer) == RenameAll(items, order);
    case Rec(_, values) =>
      forall i | 0 <= i < |values| ensures Rename(values[i], longer) == Rename(values[i], order) && AllNamed(values[i], longer) {
        RenameStays(values[i], order, longer);
      }
      assert RenameAll(values, longer) == RenameAll(values, order);
    case _ =>
  }

  /**
   * Naming as one walks is naming first and replacing afterwards: the walk succeeds exactly on a clean tree,
   * keeps every name there was, and replaces each remotable by the one name it ends up with.
   */
  lemma {:induction false} SubstituteRenames(v: Value, order: seq<Value>)
    ensures Substitute(v, order).Walked? <==> Clean(v)
    ensures Extends(order, Substitute(v, order).order)
    ensures Substitute(v, order).Walked? ==>
              var w := Substitute(v, order); w.value == Rename(v, w.order) && AllNamed(v, w.order)
    decreases v
  {
    match v
    case Remotable(_) => assert Named(order, v)[..|order|] == order;
    case Arr(items) => SubstituteAllRenames(items, order);
    case Rec(_, values) => SubstituteAllRenames(values, order);
    case _ =>
  }

  lemma {:induction false} SubstituteAllRenames(values: seq<Value>, order: seq<Value>)
    ensures SubstituteAll(values, order).WalkedAll? <==> forall i | 0 <= i < |values| :: Clean(values[i])
    ensures Extends(order, SubstituteAll(values, order).order)
    ensures SubstituteAll(values, order).WalkedAll? ==>
              var w := SubstituteAll(values, order);
              w.values == RenameAll(values, w.order) && forall i | 0 <= i < |values| :: AllNamed(values[i], w.order)
    decreases values
  {
    if values != [] {
      SubstituteRenames(values[0], order);
      var first := Substitute(values[0], order);
      if first.Walked? {
        SubstituteAllRenames(values[1..], first.order);
        var w := SubstituteAll(values[1..], first.order);
        assert values == [values[0]] + values[1..];
        if w.WalkedAll? {
          RenameStays(values[0], first.order, w.order);
          forall i | 0 <= i < |values| ensures Clean(values[i]) && AllNamed(values[i], w.order) {
            if i > 0 { assert values[i] == values[1..][i - 1]; }
          }
        }
      }
    }
  }

  // ------------------------------------------------------------------ minted names occur

  /** The string stands somewhere in the tree. */
  predicate Occurs(s: string, v: Value)
    decreases v
  {
    match v
    case Str(t) => s == t
    case Arr(items) => exists i | 0 <= i < |items| :: Occurs(s, items[i])
    case Rec(_, values) => exists i | 0 <= i < |values| :: Occurs(s, values[i])
    case _ => false
  }

  /** A name a walk mints is in the tree it makes: a client that reads the tree has been told of it. */
  lemma {:induction false} MintedNamesOccur(v: Value, order: seq<Value>, i: nat)
    requires Distinct(order) && Substitute(v, order).Walked?
    requires |order| <= i < |Substitute(v, order).order|
    ensures Occurs(Marker(NthName(i)), Substitute(v, order).value)
    decreases v
  {
    match v
    case Remotable(_) =>
      var named := Named(order, v);
      var k := IndexOf(named, v);
      assert v !in order && named == order + [v];
      assert named[|order|] == v && forall j | 0 <= j < |order| :: named[j] == order[j];
    case Arr(items) => var _ := MintedNamesOccurAmong(items, order, i);
    case Rec(_, values) => var _ := MintedNamesOccurAmong(values, order, i);
    case _ =>
  }

  lemma {:induction false} MintedNamesOccurAmong(values: seq<Value>, order: seq<Value>, i: nat) returns (k: nat)
    requires Distinct(order) && SubstituteAll(values, order).WalkedAll?
    requires |order| <= i < |SubstituteAll(values, order).order|
    ensures var w := SubstituteAll(values, order); k < |w.values| && Occurs(Marker(NthName(i)), w.values[k])
    decreases values
  {
    var first := Substitute(values[0], order);
    SubstituteRenames(values[0], order);
    if i < |first.order| {
      MintedNamesOccur(values[0], order, i);
      k := 0;
    } else {
      var j := MintedNamesOccurAmong(values[1..], first.order, i);
      k := j + 1;
    }
  }

  // ------------------------------------------------------------------ the walkers undo each other

  predicate OnlyRemotables(order: seq<Value>) {
    forall i | 0 <= i < |order| :: order[i].Remotable?
  }

  /** No string in the tree could be taken for a marker. */
  predicate NoMarkers(v: Value)
    decreases v
  {
    match v
    case Str(s) => !IsMarker(s)
    case Arr(items) => forall i | 0 <= i < |items| :: NoMarkers(items[i])
    case Rec(_, values) => forall i | 0 <= i < |values| :: NoMarkers(values[i])
    case _ => true
  }

  /** Expanding a tree whose remotables were replaced gives the tree back exactly when none of its strings looks like a marker. */
  lemma {:induction false} ExpandUndoesRename(v: Value, order: seq<Value>)
    requires Distinct(order) && OnlyRemotables(order) && AllNamed(v, order) && Clean(v)
    ensures Expand(Rename(v, order), order) == Some(v) <==> NoMarkers(v)
    decreases v
  {
    match v
    case Remotable(_) =>
      var k := IndexOf(order, v);
      ResolvesItsName(order, k);
      NamesAreDistinctMarkers(k + 1, k + 1);
    case Arr(items) => ExpandAllUndoesRename(items, order);
    case Rec(_, values) => ExpandAllUndoesRename(values, order);
    case _ =>
  }

  lemma {:induction false} ExpandAllUndoesRename(values: seq<Value>, order: seq<Value>)
    requires Distinct(order) && OnlyRemotables(order)
    requires forall i | 0 <= i < |values| :: AllNamed(values[i], order) && Clean(values[i])
    ensures ExpandAll(RenameAll(values, order), order) == Some(values) <==> forall i | 0 <= i < |values| :: NoMarkers(values[i])
    decreases values
  {
    if values != [] {
      ExpandUndoesRename(values[0], order);
      ExpandAllUndoesRename(values[1..], order);
      var renamed := RenameAll(values, order);
      assert renamed[0] == Rename(values[0], order) && renamed[1..] == RenameAll(values[1..], order);
      assert values == [values[0]] + values[1..];
      assert (forall i | 0 <= i < |values| :: NoMarkers(values[i])) <==>
             NoMarkers(values[0]) && forall i | 0 <= i < |values[1..]| :: NoMarkers(values[1..][i]);
    }
  }

  /**
   * Result round trip: a tree the walk accepts comes back from its substituted form exactly when it has no
   * marker-shaped string.
   */
  lemma ResultRoundTrip(v: Value, order: seq<Value>)
    requires Distinct(order) && OnlyRemotables(order) && Clean(v)
    ensures var w := Substitute(v, order);
            w.Walked? && OnlyRemotables(w.order) && (Expand(w.value, w.order) == Some(v) <==> NoMarkers(v))
  {
    SubstituteRenames(v, order);
    SubstituteNamesRemotables(v, order);
    ExpandUndoesRename(v, Substitute(v, order).order);
  }

  lemma {:induction false} SubstituteNamesRemotables(v: Value, order: seq<Value>)
    requires OnlyRemotables(order)
    ensures OnlyRemotables(Substitute(v, order).order)
    decreases v
  {
    match v
    case Arr(items) => SubstituteAllNamesRemotables(items, order);
    case Rec(_, values) => SubstituteAllNamesRemotables(values, order);
    case _ =>
  }

  lemma {:induction false} SubstituteAllNamesRemotables(values: seq<Value>, order: seq<Value>)
    requires OnlyRemotables(order)
    ensures OnlyRemotables(SubstituteAll(values, order).order)
    decreases values
  {
    if values != [] {
      SubstituteNamesRemotables(values[0], order);
      var first := Substitute(values[0], order);
      if first.Walked? { SubstituteAllNamesRemotables(values[1..], first.order); }
    }
  }

  /** A tree as it is read from JSON: it has no live reference and no number JSON cannot write. */
  predicate IsJson(v: Value)
    decreases v
  {
    match v
    case Remotable(_) => false
    case Thenable(_) => false
    case NonFinite => false
    case Arr(items) => forall i | 0 <= i < |items| :: IsJson(items[i])
    case Rec(_, values) => forall i | 0 <= i < |values| :: IsJson(values[i])
    case _ => true
  }

  /** Every marker in the tree names an object. */
  predicate MarkersKnown(v: Value, order: seq<Value>)
    decreases v
  {
    match v
    case Str(s) => IsMarker(s) ==> Resolve(order, s[2..]).Some?
    case Arr(items) => forall i | 0 <= i < |items| :: MarkersKnown(items[i], order)
    case Rec(_, values) => forall i | 0 <= i < |values| :: MarkersKnown(values[i], order)
    case _ => true
  }

  /**
   * Argument round trip: a JSON tree expands exactly when its markers are all known, and substituting the
   * expansion gives the same markers back and names nothing new.
   */
  lemma {:induction false} ArgumentRoundTrip(t: Value, order: seq<Value>)
    requires IsJson(t) && Distinct(order) && OnlyRemotables(order)
    ensures Expand(t, order).Some? <==> MarkersKnown(t, order)
    ensures Expand(t, order).Some? ==> Substitute(Expand(t, order).value, order) == Walked(t, order)
    decreases t
  {
    match t
    case Str(s) =>
      if IsMarker(s) && Resolve(order, s[2..]).Some? {
        var k := FindName(order, s[2..], 0);
        assert IndexOf(order, order[k]) == k;
        assert s == s[..2] + s[2..];
      }
    case Arr(items) => ArgumentsRoundTrip(items, order);
    case Rec(_, values) => ArgumentsRoundTrip(values, order);
    case _ =>
  }

  lemma {:induction false} ArgumentsRoundTrip(ts: seq<Value>, order: seq<Value>)
    requires (forall i | 0 <= i < |ts| :: IsJson(ts[i])) && Distinct(order) && OnlyRemotables(order)
    ensures ExpandAll(ts, order).Some? <==> forall i | 0 <= i < |ts| :: MarkersKnown(ts[i], order)
    ensures ExpandAll(ts, order).Some? ==> SubstituteAll(ExpandAll(ts, order).value, order) == WalkedAll(ts, order)
    decreases ts
  {
    if ts != [] {
      ArgumentRoundTrip(ts[0], order);
      ArgumentsRoundTrip(ts[1..], order);
      assert ts == [ts[0]] + ts[1..];
      assert (forall i | 0 <= i < |ts| :: MarkersKnown(ts[i], order)) <==>
             MarkersKnown(ts[0], order) && forall i | 0 <= i < |ts[1..]| :: MarkersKnown(ts[1..][i], order);
    }
  }
}
