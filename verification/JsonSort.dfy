/**
  * The alphabetical sort of every object, and the pipeline it closes: inputs
  * equal up to key order come out identical.
  */
module JsonSort {
  import opened Common
  import opened JsonTree
  import opened JsonReorder
  import opened JsonInject
  import opened KeyOrder
  import opened KeySort

  // ---------------------------------------------------------------- alphaSortNode

  function SortNode(n: Node): Node {
    match n
    case Array(items) => Array(seq(|items|, i requires 0 <= i < |items| => SortNode(items[i])))
    case Object(keys, byKey) => Object(SortKeys(keys), map k | k in byKey :: SortNode(byKey[k]))
    case _ => n
  }

  method AlphaSort(n: Node) returns (r: Node)
    requires Valid(n)
    ensures r == SortNode(n)
    decreases n
  {
    match n
    case Array(items) =>
      var out: seq<Node> := [];
      var i := 0;
      while i < |items|
        invariant 0 <= i <= |items| && |out| == i
        invariant forall j | 0 <= j < i :: out[j] == SortNode(items[j])
      {
        var sub := AlphaSort(items[i]);
        out, i := out + [sub], i + 1;
      }
      assert out == SortNode(n).items;
      r := Array(out);
    case Object(_, _) =>
      var keys := SortKeys(n.keys);
      var byKey := SortValues(n, keys);
      r := Object(keys, byKey);
    case _ => r := n;
  }

  method SortValues(n: Node, keys: seq<Key>) returns (out: map<Key, Node>)
    requires Valid(n) && n.Object? && keys == SortKeys(n.keys)
    ensures out == SortNode(n).byKey
    decreases n, 0
  {
    SortKeysSorts(n.keys);
    out := map[];
    var i := 0;
    while i < |keys|
      invariant 0 <= i <= |keys| && out.Keys == Members(keys[..i])
      invariant forall k | k in out :: k in n.byKey && out[k] == SortNode(n.byKey[k])
    {
      MembersStep(keys, i);
      var sub := AlphaSort(n.byKey[keys[i]]);
      out, i := out[keys[i] := sub], i + 1;
    }
    assert keys[..i] == keys;
  }

  // ---------------------------------------------------------------- canonical form

  lemma {:induction false} SortKeepsValue(n: Node)
    requires Valid(n)
    ensures SameValue(n, SortNode(n))
  {
    match n
    case Array(items) =>
      forall i | 0 <= i < |items| ensures SameValue(items[i], SortNode(items[i])) { SortKeepsValue(items[i]); }
    case Object(keys, byKey) =>
      forall k | k in byKey ensures SameValue(byKey[k], SortNode(byKey[k])) { SortKeepsValue(byKey[k]); }
      assert SortNode(n).byKey.Keys == byKey.Keys;
    case _ =>
  }

  lemma {:induction false} SameTransitive(a: Node, b: Node, c: Node)
    requires SameValue(a, b) && SameValue(b, c)
    ensures SameValue(a, c)
  {
    match a
    case Array(items) =>
      forall i | 0 <= i < |items| ensures SameValue(items[i], c.items[i]) {
        SameTransitive(items[i], b.items[i], c.items[i]);
      }
    case Object(keys, byKey) =>
      forall k | k in byKey ensures SameValue(byKey[k], c.byKey[k]) {
        SameTransitive(byKey[k], b.byKey[k], c.byKey[k]);
      }
    case _ =>
  }

  lemma {:induction false} SameSortsSame(a: Node, b: Node)
    requires Valid(a) && Valid(b) && SameValue(a, b)
    ensures SortNode(a) == SortNode(b)
  {
    match a
    case Array(items) =>
      forall i | 0 <= i < |items| ensures SortNode(items[i]) == SortNode(b.items[i]) {
        SameSortsSame(items[i], b.items[i]);
      }
      assert SortNode(a).items == SortNode(b).items;
    case Object(keys, byKey) =>
      forall k | k in byKey ensures SortNode(byKey[k]) == SortNode(b.byKey[k]) { SameSortsSame(byKey[k], b.byKey[k]); }
      assert SortNode(a).byKey == SortNode(b).byKey;
      SortKeysSorts(keys);
      SortKeysSorts(b.keys);
      SortedIsUnique(SortKeys(keys), SortKeys(b.keys));
    case _ =>
  }

  /** Two trees sort to the same tree just when they are the same JSON value. */
  lemma {:induction false} SortIsCanonical(a: Node, b: Node)
    requires Valid(a) && Valid(b)
    ensures SortNode(a) == SortNode(b) <==> SameValue(a, b)
  {
    if SameValue(a, b) {
      SameSortsSame(a, b);
    } else if SortNode(a) == SortNode(b) {
      SortKeepsValue(a);
      SortKeepsValue(b);
      SameSymmetric(b, SortNode(b));
      SameTransitive(a, SortNode(a), b);
    }
  }

  /** Reordering first makes no difference to the sort. */
  lemma {:induction false} SortForgetsReorder(s: Schema, spec: TypeSpec, n: Node)
    requires Valid(n) && ValidSchema(s)
    ensures SortNode(ByType(s, spec, n)) == SortNode(n)
  {
    TypeKeepsValue(s, spec, n);
    SameSortsSame(n, ByType(s, spec, n));
  }

  /** What DynamicCall returns with preserve_schema_order off: absent optionals filled in from the root, then sorted. */
  function SortedOutput(schema: Option<Schema>, n: Node): Node {
    SortNode(if schema.None? || schema.value.root.names == [] then n else FillClass(schema.value, schema.value.root, n))
  }

  /** It depends on the JSON value alone. */
  lemma {:induction false} OutputIsCanonical(schema: Option<Schema>, a: Node, b: Node)
    requires Valid(a) && Valid(b) && SameValue(a, b) && (schema.Some? ==> ValidSchema(schema.value))
    ensures SortedOutput(schema, a) == SortedOutput(schema, b)
  {
    if schema.None? || schema.value.root.names == [] {
      SameSortsSame(a, b);
    } else {
      var s := schema.value;
      ClassOnlyAdds(s, ROOT, a);
      ClassOnlyAdds(s, ROOT, b);
      ClassFillIgnoresOrder(s, s.root, a, b);
      SameSortsSame(FillClass(s, s.root, a), FillClass(s, s.root, b));
    }
  }
}
