/** JSON values, as they come out of a decoder. */
module JsonValues {
  /** An object's fields are in order, under distinct keys. NonFinite is what 1e999 or NaN decode to. */
  datatype Json =
    | Null
    | Bool(b: bool)
    | Int(n: int)
    | Float(r: real)
    | NonFinite
    | Str(s: string)
    | Arr(items: seq<Json>)
    | Obj(fields: seq<Field>)

  datatype Field = Field(key: string, value: Json)

  predicate HasKey(fields: seq<Field>, key: string) { exists i :: 0 <= i < |fields| && fields[i].key == key }

  function Lookup(fields: seq<Field>, key: string): (v: Json)
    requires HasKey(fields, key)
    ensures exists i :: 0 <= i < |fields| && fields[i].key == key && fields[i].value == v
  {
    if fields[0].key == key then fields[0].value else Lookup(fields[1..], key)
  }

  function Arity(node: Json): nat {
    match node case Arr(items) => |items| case Obj(fields) => |fields| case _ => 0
  }

  function Child(node: Json, i: nat): (c: Json)
    requires i < Arity(node)
    ensures node decreases to c
  {
    match node case Arr(items) => items[i] case Obj(fields) => fields[i].value
  }

  function Max(a: nat, b: nat): nat { if a >= b then a else b }

  /** How deep arrays and objects are nested in a value. */
  function Depth(node: Json): nat
    decreases node, 1, 0
  {
    if node.Arr? || node.Obj? then 1 + DepthFrom(node, 0) else 0
  }

  function DepthFrom(node: Json, i: nat): nat
    requires i <= Arity(node)
    decreases node, 0, Arity(node) - i
  {
    if i == Arity(node) then 0 else Max(Depth(Child(node, i)), DepthFrom(node, i + 1))
  }

  /** Python's truth value. */
  predicate Truthy(v: Json) {
    match v
    case Null => false
    case Bool(b) => b
    case Int(n) => n != 0
    case Float(r) => r != 0.0
    case NonFinite => true
    case Str(s) => s != ""
    case Arr(items) => items != []
    case Obj(fields) => fields != []
  }

  lemma FalsyExactlyWhen(v: Json)
    ensures !Truthy(v) <==>
      || v == Null || v == Bool(false) || v == Int(0) || v == Float(0.0) || v == Str("")
      || v == Arr([]) || v == Obj([])
  {
  }

  /** The values at each step of a way down from the root, every one of them an array or object. */
  ghost predicate WayDown(node: Json, way: seq<Json>) {
    && (forall i :: 0 <= i < |way| ==> way[i].Arr? || way[i].Obj?)
    && (way != [] ==> way[0] == node)
    && forall i :: 0 < i < |way| ==> IsPart(way[i - 1], way[i])
  }

  ghost predicate IsPart(node: Json, part: Json) { exists i :: 0 <= i < Arity(node) && Child(node, i) == part }

  /** The depth is the length of the longest way down through arrays and objects. */
  lemma {:induction false} DepthIsTheLongestWayDown(node: Json)
    ensures exists way :: WayDown(node, way) && |way| == Depth(node)
    ensures forall way :: WayDown(node, way) ==> |way| <= Depth(node)
    decreases node, 1, 0
  {
    if node.Arr? || node.Obj? {
      var deepest := DeepestFrom(node, 0);
      assert WayDown(node, [node] + deepest);
      forall way | WayDown(node, way) ensures |way| <= Depth(node) {
        if |way| > 1 {
          assert IsPart(way[0], way[1]);
          var i :| 0 <= i < Arity(node) && Child(node, i) == way[1];
          assert WayDown(Child(node, i), way[1..]);
          DepthIsTheLongestWayDown(Child(node, i));
          PartIsNoDeeper(node, 0, i);
        }
      }
    } else {
      assert WayDown(node, []);
    }
  }

  lemma {:induction false} DeepestFrom(node: Json, i: nat) returns (way: seq<Json>)
    requires i <= Arity(node)
    ensures |way| == DepthFrom(node, i)
    ensures way != [] ==> IsPart(node, way[0]) && WayDown(way[0], way)
    decreases node, 0, Arity(node) - i
  {
    if i == Arity(node) {
      way := [];
    } else {
      way := DeepestFrom(node, i + 1);
      if Depth(Child(node, i)) > |way| {
        DepthIsTheLongestWayDown(Child(node, i));
        way :| WayDown(Child(node, i), way) && |way| == Depth(Child(node, i));
      }
    }
  }

  lemma {:induction false} PartIsNoDeeper(node: Json, i: nat, k: nat)
    requires i <= k < Arity(node)
    ensures Depth(Child(node, k)) <= DepthFrom(node, i)
    decreases k - i
  {
    if i < k { PartIsNoDeeper(node, i + 1, k); }
  }

  /** dict.get: a missing key is like a null. */
  function Get(v: Json, key: string): Json {
    if v.Obj? && HasKey(v.fields, key) then Lookup(v.fields, key) else Null
  }

  /** The length of all texts in a value. */
  function TextSize(node: Json): nat
    decreases node, 1, 0
  {
    match node case Str(s) => |s| case _ => TextFrom(node, 0)
  }

  function TextFrom(node: Json, i: nat): nat
    requires i <= Arity(node)
    decreases node, 0, Arity(node) - i
  {
    if i == Arity(node) then 0 else TextSize(Child(node, i)) + TextFrom(node, i + 1)
  }

  lemma {:induction false} PartsAreSmaller(node: Json, key: string)
    requires node.Obj? && HasKey(node.fields, key)
    ensures node decreases to Lookup(node.fields, key)
    ensures TextSize(Lookup(node.fields, key)) <= TextSize(node)
  {
    var v := Lookup(node.fields, key);
    var i :| 0 <= i < |node.fields| && node.fields[i].key == key && node.fields[i].value == v;
    assert Child(node, i) == v;
    PartOfSum(node, 0, i);
  }

  lemma {:induction false} PartOfSum(node: Json, i: nat, k: nat)
    requires i <= k < Arity(node)
    ensures TextSize(Child(node, k)) <= TextFrom(node, i)
    decreases k - i
  {
    if i < k { PartOfSum(node, i + 1, k); }
  }
}
