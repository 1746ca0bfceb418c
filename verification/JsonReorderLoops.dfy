/** The walker's loops: what reorderClass and reorderType build, and when they report an unknown ref. */
module JsonReorderLoops {
  import opened Common
  import opened JsonTree
  import opened JsonPositions
  import opened JsonReorder
  import opened JsonReorderAt
  import opened KeyOrder
  import opened KeySort

  function Child(s: Schema, c: Class, k: Key, v: Node): Node {
    if k in c.props && c.props[k].Some? then ByType(s, c.props[k].value, v) else v
  }

  /** One present property of the first loop. */
  method ReorderChild(s: Schema, c: Class, prop: Key, v: Node) returns (r: Result<Node, Key>)
    requires Valid(v) && ValidSchema(s) && prop in c.props
    ensures r.Ok? <==> (c.props[prop].Some? ==> Known(s, c.props[prop].value, v))
    ensures r.Ok? ==> r.value == Child(s, c, prop, v)
    decreases v, 2
  {
    if c.props[prop].None? { return Ok(v); }
    r := ReorderType(s, c.props[prop].value, v);
  }

  /** The reordered children of the properties seen so far, all of them with known refs. */
  ghost predicate Placed(s: Schema, c: Class, n: Node, byKey: map<Key, Node>, seen: set<Key>)
    requires n.Object?
  {
    && byKey.Keys == n.byKey.Keys * seen
    && forall k | k in byKey ::
         k in c.props && (c.props[k].Some? ==> Known(s, c.props[k].value, n.byKey[k]))
         && byKey[k] == Child(s, c, k, n.byKey[k])
  }

  lemma {:induction false} PlacedAll(s: Schema, c: Class, n: Node, byKey: map<Key, Node>)
    requires ValidClass(c) && n.Object? && Placed(s, c, n, byKey, Members(c.names))
    ensures KnownClass(s, c, n)
  {
    forall k | k in n.byKey && k in c.props && c.props[k].Some? ensures Known(s, c.props[k].value, n.byKey[k]) {
      assert k in c.names && k in byKey;
    }
  }

  lemma {:induction false} PlacedNext(s: Schema, c: Class, n: Node, byKey: map<Key, Node>, i: nat, child: Node)
    requires n.Object? && i < |c.names| && Placed(s, c, n, byKey, Members(c.names[..i]))
    requires var prop := c.names[i];
             prop in n.byKey ==>
               && prop in c.props && (c.props[prop].Some? ==> Known(s, c.props[prop].value, n.byKey[prop]))
               && child == Child(s, c, prop, n.byKey[prop])
    ensures Placed(s, c, n, if c.names[i] in n.byKey then byKey[c.names[i] := child] else byKey,
                   Members(c.names[..i + 1]))
  {
    MembersStep(c.names, i);
  }

  /** The first loop of reorderClass: declared properties that are present, in schema order. */
  method ReorderDeclared(s: Schema, c: Class, n: Node)
    returns (ok: bool, keys: seq<Key>, byKey: map<Key, Node>, culprit: Key)
    requires Valid(n) && ValidSchema(s) && ValidClass(c) && n.Object?
    ensures ok <==> KnownClass(s, c, n)
    ensures ok ==> keys == Keep(c.names, Members(n.keys)) && Placed(s, c, n, byKey, Members(c.names))
    decreases n, 0, 0
  {
    keys, byKey, culprit := [], map[], ROOT;
    var i := 0;
    while i < |c.names|
      invariant 0 <= i <= |c.names|
      invariant keys == Keep(c.names[..i], Members(n.keys))
      invariant Placed(s, c, n, byKey, Members(c.names[..i]))
    {
      var prop := c.names[i];
      KeepStep(c.names, i, Members(n.keys));
      if prop in n.byKey {
        var child := ReorderChild(s, c, prop, n.byKey[prop]);
        if child.Err? { return false, keys, byKey, child.error; }
        PlacedNext(s, c, n, byKey, i, child.value);
        keys, byKey := keys + [prop], byKey[prop := child.value];
      } else {
        PlacedNext(s, c, n, byKey, i, n);
      }
      i := i + 1;
    }
    assert c.names[..i] == c.names;
    PlacedAll(s, c, n, byKey);
    ok := true;
  }

  lemma {:induction false} ChildrenMakeClass(s: Schema, c: Class, n: Node, byKey: map<Key, Node>)
    requires n.Object? && ValidClass(c) && byKey.Keys == n.byKey.Keys
    requires forall k | k in byKey :: byKey[k] == Child(s, c, k, n.byKey[k])
    ensures byKey == ByClass(s, c, n).byKey
  {
  }

  method ReorderClass(s: Schema, name: Key, n: Node) returns (r: Result<Node, Key>)
    requires Valid(n) && ValidSchema(s)
    ensures !IsClass(s, name) ==> r.Err?
    ensures IsClass(s, name) ==> (r.Ok? <==> KnownClass(s, Resolve(s, name), n))
    ensures IsClass(s, name) && r.Ok? ==> r.value == ByClass(s, Resolve(s, name), n)
    ensures r.Ok? ==> OrderedThroughout(s, RefTo(name), n, r.value)
    decreases n, 0, 1
  {
    if !IsClass(s, name) { return Err(name); }
    ByClassIsOrdered(s, name, n);
    var c := Resolve(s, name);
    if !n.Object? { return Ok(n); }
    var ok, keys, byKey, culprit := ReorderDeclared(s, c, n);
    if !ok { return Err(culprit); }
    keys, byKey := AppendExtras(n.keys, n.byKey, Members(c.names), keys, byKey);
    ChildrenMakeClass(s, c, n, byKey);
    r := Ok(Object(keys, byKey));
  }

  method ReorderType(s: Schema, spec: TypeSpec, n: Node) returns (r: Result<Node, Key>)
    requires Valid(n) && ValidSchema(s)
    ensures r.Ok? <==> Known(s, spec, n)
    ensures r.Ok? ==> r.value == ByType(s, spec, n)
    ensures r.Ok? ==> OrderedThroughout(s, spec, n, r.value)
    ensures r.Ok? <==> KnownThroughout(s, spec, n)
    decreases n, 1, spec
  {
    ByTypeIsOrdered(s, spec, n);
    KnownIff(s, spec, n);
    if spec.ref.Some? {
      if IsClass(s, spec.ref.value) {
        r := ReorderClass(s, spec.ref.value, n);
      } else if spec.ref.value in s.enums {
        r := Ok(n);
      } else {
        r := Err(spec.ref.value);
      }
      return;
    }
    match spec.typ
    case TOptional =>
      if n.Null? || spec.inner.None? { return Ok(n); }
      r := ReorderType(s, spec.inner.value, n);
    case TList =>
      if !n.Array? || spec.items.None? { return Ok(n); }
      r := ReorderItems(s, spec, n);
    case TMap =>
      if !n.Object? || spec.values.None? { return Ok(n); }
      r := ReorderValues(s, spec, n);
    case TUnion => r := ReorderUnion(s, spec, n);
    case _ => r := Ok(n);
  }

  method ReorderUnion(s: Schema, spec: TypeSpec, n: Node) returns (r: Result<Node, Key>)
    requires Valid(n) && ValidSchema(s) && spec.ref.None? && spec.typ == TUnion
    ensures r.Ok? <==> Known(s, spec, n)
    ensures r.Ok? ==> r.value == ByType(s, spec, n)
    decreases n, 1, spec, 0
  {
    var i := 0;
    while i < |spec.oneOf|
      invariant 0 <= i <= |spec.oneOf|
      invariant forall j | 0 <= j < i :: !MatchesVariant(s, false, spec.oneOf[j], n)
    {
      if spec.oneOf[i].Some? && MatchesType(s, false, spec.oneOf[i].value, n) {
        assert FirstMatch(s, false, spec.oneOf, n) == i;
        r := ReorderType(s, spec.oneOf[i].value, n);
        return;
      }
      i := i + 1;
    }
    r := Ok(n);
  }

  method ReorderItems(s: Schema, spec: TypeSpec, n: Node) returns (r: Result<Node, Key>)
    requires Valid(n) && ValidSchema(s) && spec.ref.None? && spec.typ == TList && n.Array? && spec.items.Some?
    ensures r.Ok? <==> Known(s, spec, n)
    ensures r.Ok? ==> r.value == ByType(s, spec, n)
    decreases n, 0, spec
  {
    var out: seq<Node> := [];
    var i := 0;
    while i < |n.items|
      invariant 0 <= i <= |n.items| && |out| == i
      invariant forall j | 0 <= j < i ::
                  Known(s, spec.items.value, n.items[j]) && out[j] == ByType(s, spec.items.value, n.items[j])
    {
      var sub := ReorderType(s, spec.items.value, n.items[i]);
      if sub.Err? { return sub; }
      out, i := out + [sub.value], i + 1;
    }
    assert out == ByType(s, spec, n).items;
    r := Ok(Array(out));
  }

  method ReorderValues(s: Schema, spec: TypeSpec, n: Node) returns (r: Result<Node, Key>)
    requires Valid(n) && ValidSchema(s) && spec.ref.None? && spec.typ == TMap && n.Object? && spec.values.Some?
    ensures r.Ok? <==> Known(s, spec, n)
    ensures r.Ok? ==> r.value == ByType(s, spec, n)
    decreases n, 0, spec
  {
    var out: map<Key, Node> := map[];
    var i := 0;
    while i < |n.keys|
      invariant 0 <= i <= |n.keys| && out.Keys == Members(n.keys[..i])
      invariant forall k | k in out ::
                  k in n.byKey && Known(s, spec.values.value, n.byKey[k])
                  && out[k] == ByType(s, spec.values.value, n.byKey[k])
    {
      var k := n.keys[i];
      MembersStep(n.keys, i);
      var sub := ReorderType(s, spec.values.value, n.byKey[k]);
      if sub.Err? { return sub; }
      out, i := out[k := sub.value], i + 1;
    }
    assert n.keys[..i] == n.keys;
    assert out == ByType(s, spec, n).byKey;
    r := Ok(Object(n.keys, out));
  }
}
