/** The loops of injectClass and injectType; their error path is never taken on a ref they resolve themselves. */
module JsonInjectLoops {
  import opened Common
  import opened JsonTree
  import opened JsonInject
  import opened JsonInjectAt
  import opened JsonPositions
  import opened KeyOrder
  import opened KeySort

  /** The value a class walk gives to key k. */
  function Filled(s: Schema, c: Class, n: Node, k: Key): Node
    requires n.Object?
  {
    if k !in n.byKey then Null
    else if k in c.props && c.props[k].Some? then FillType(s, c.props[k].value, n.byKey[k])
    else n.byKey[k]
  }

  /** One property that is present or optional. */
  method InjectChild(s: Schema, c: Class, prop: Key, n: Node) returns (r: Result<Node, Key>)
    requires Valid(n) && ValidSchema(s) && n.Object? && prop in c.props && (prop in n.byKey || prop in Optionals(c))
    ensures r == Ok(Filled(s, c, n, prop))
    decreases n, 0, 0
  {
    if prop !in n.byKey { return Ok(Null); }
    if c.props[prop].None? { return Ok(n.byKey[prop]); }
    r := InjectType(s, c.props[prop].value, n.byKey[prop]);
  }

  /** The walked properties that are present or optional, with their values. */
  ghost predicate Walked(s: Schema, c: Class, n: Node, byKey: map<Key, Node>, seen: set<Key>)
    requires n.Object?
  {
    && byKey.Keys == (n.byKey.Keys + Optionals(c)) * seen
    && forall k | k in byKey :: byKey[k] == Filled(s, c, n, k)
  }

  lemma {:induction false} WalkedNext(s: Schema, c: Class, n: Node, byKey: map<Key, Node>, i: nat)
    requires n.Object? && i < |c.names| && Walked(s, c, n, byKey, Members(c.names[..i]))
    ensures var prop := c.names[i];
            Walked(s, c, n,
                   if prop in n.byKey || prop in Optionals(c) then byKey[prop := Filled(s, c, n, prop)] else byKey,
                   Members(c.names[..i + 1]))
  {
    MembersStep(c.names, i);
  }

  /** The first loop of injectClass: declared properties that are present or optional, in schema order. */
  method InjectDeclared(s: Schema, c: Class, n: Node) returns (keys: seq<Key>, byKey: map<Key, Node>)
    requires Valid(n) && ValidSchema(s) && ValidClass(c) && n.Object?
    ensures keys == Keep(c.names, Members(n.keys) + Optionals(c))
    ensures Walked(s, c, n, byKey, Members(c.names))
    decreases n, 0, 1
  {
    keys, byKey := [], map[];
    var i := 0;
    while i < |c.names|
      invariant 0 <= i <= |c.names|
      invariant keys == Keep(c.names[..i], Members(n.keys) + Optionals(c))
      invariant Walked(s, c, n, byKey, Members(c.names[..i]))
    {
      var prop := c.names[i];
      KeepStep(c.names, i, Members(n.keys) + Optionals(c));
      WalkedNext(s, c, n, byKey, i);
      if prop in n.byKey || IsOptional(c.props[prop]) {
        var child := InjectChild(s, c, prop, n);
        keys, byKey := keys + [prop], byKey[prop := child.value];
      }
      i := i + 1;
    }
    assert c.names[..i] == c.names;
  }

  lemma {:induction false} FilledMakeClass(s: Schema, c: Class, n: Node, byKey: map<Key, Node>)
    requires n.Object? && byKey.Keys == n.byKey.Keys + Optionals(c)
    requires forall k | k in byKey :: byKey[k] == Filled(s, c, n, k)
    ensures byKey == FillClass(s, c, n).byKey
  {
  }

  method InjectClass(s: Schema, name: Key, n: Node) returns (r: Result<Node, Key>)
    requires Valid(n) && ValidSchema(s)
    ensures r == if IsClass(s, name) then Ok(FillClass(s, Resolve(s, name), n)) else Err(name)
    ensures r.Ok? ==> FilledThroughout(s, RefTo(name), n, r.value)
    decreases n, 0, 2
  {
    if !IsClass(s, name) { return Err(name); }
    FillClassIsFilled(s, name, n);
    var c := Resolve(s, name);
    if !n.Object? { return Ok(n); }
    var keys, byKey := InjectDeclared(s, c, n);
    keys, byKey := AppendExtras(n.keys, n.byKey, Members(c.names), keys, byKey);
    FilledMakeClass(s, c, n, byKey);
    r := Ok(Object(keys, byKey));
  }

  method InjectType(s: Schema, spec: TypeSpec, n: Node) returns (r: Result<Node, Key>)
    requires Valid(n) && ValidSchema(s)
    ensures r == Ok(FillType(s, spec, n))
    ensures FilledThroughout(s, spec, n, r.value)
    decreases n, 1, spec
  {
    FillTypeIsFilled(s, spec, n);
    if spec.ref.Some? && spec.typ == Unset {
      if IsClass(s, spec.ref.value) {
        r := InjectClass(s, spec.ref.value, n);
      } else {
        r := Ok(n);
      }
      return;
    }
    match spec.typ
    case TOptional =>
      if n.Null? || spec.inner.None? { return Ok(n); }
      r := InjectType(s, spec.inner.value, n);
    case TList =>
      if !n.Array? || spec.items.None? { return Ok(n); }
      r := InjectItems(s, spec, n);
    case TMap =>
      if !n.Object? || spec.values.None? { return Ok(n); }
      r := InjectValues(s, spec, n);
    case TUnion => r := InjectUnion(s, spec, n);
    case _ => r := Ok(n);
  }

  method InjectUnion(s: Schema, spec: TypeSpec, n: Node) returns (r: Result<Node, Key>)
    requires Valid(n) && ValidSchema(s) && spec.typ == TUnion
    ensures r == Ok(FillType(s, spec, n))
    decreases n, 1, spec, 0
  {
    var i := 0;
    while i < |spec.oneOf|
      invariant 0 <= i <= |spec.oneOf|
      invariant forall j | 0 <= j < i :: !MatchesVariant(s, true, spec.oneOf[j], n)
    {
      if spec.oneOf[i].Some? && MatchesType(s, true, spec.oneOf[i].value, n) {
        assert FirstMatch(s, true, spec.oneOf, n) == i;
        r := InjectType(s, spec.oneOf[i].value, n);
        return;
      }
      i := i + 1;
    }
    r := Ok(n);
  }

  method InjectItems(s: Schema, spec: TypeSpec, n: Node) returns (r: Result<Node, Key>)
    requires Valid(n) && ValidSchema(s) && spec.typ == TList && n.Array? && spec.items.Some?
    ensures r == Ok(FillType(s, spec, n))
    decreases n, 0, 3
  {
    var out: seq<Node> := [];
    var i := 0;
    while i < |n.items|
      invariant 0 <= i <= |n.items| && |out| == i
      invariant forall j | 0 <= j < i :: out[j] == FillType(s, spec.items.value, n.items[j])
    {
      var sub := InjectType(s, spec.items.value, n.items[i]);
      out, i := out + [sub.value], i + 1;
    }
    assert out == FillType(s, spec, n).items;
    r := Ok(Array(out));
  }

  method InjectValues(s: Schema, spec: TypeSpec, n: Node) returns (r: Result<Node, Key>)
    requires Valid(n) && ValidSchema(s) && spec.typ == TMap && n.Object? && spec.values.Some?
    ensures r == Ok(FillType(s, spec, n))
    decreases n, 0, 3
  {
    var out: map<Key, Node> := map[];
    var i := 0;
    while i < |n.keys|
      invariant 0 <= i <= |n.keys| && out.Keys == Members(n.keys[..i])
      invariant forall k | k in out :: k in n.byKey && out[k] == FillType(s, spec.values.value, n.byKey[k])
    {
      var k := n.keys[i];
      MembersStep(n.keys, i);
      var sub := InjectType(s, spec.values.value, n.byKey[k]);
      out, i := out[k := sub.value], i + 1;
    }
    assert n.keys[..i] == n.keys;
    assert out == FillType(s, spec, n).byKey;
    r := Ok(Object(n.keys, out));
  }
}
