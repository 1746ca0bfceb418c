/** Where keys stand after reordering: at every class position in schema order, and everywhere else as they were. */
module JsonReorderAt {
  import opened Common
  import opened JsonTree
  import opened JsonPositions
  import opened JsonReorder
  import opened KeyOrder
  import opened KeySort

  /**
    * What reordering n to out means at one position: the same children, and the keys of an object that is
    * a class's instance permuted into the order the class asks for; other objects keep their key order.
    */
  ghost predicate OrderedAt(s: Schema, spec: Option<TypeSpec>, n: Node, out: Node, path: seq<Hop>) {
    match At(n, path)
    case None => At(out, path).None?
    case Some(a) =>
      && At(out, path).Some?
      && (a.Object? ==>
            && At(out, path).value.Object?
            && var keys := At(out, path).value.keys;
            match ClassAt(s, false, spec, n, path)
            case None => keys == a.keys
            case Some(c) => NoDup(keys) && (forall k :: k in keys <==> k in a.keys) && InOrder(c.names, a.keys, keys))
  }

  /** So at every position. */
  ghost predicate OrderedThroughout(s: Schema, spec: TypeSpec, n: Node, out: Node) {
    forall path :: OrderedAt(s, Some(spec), n, out, path)
  }

  function Reordered(s: Schema, spec: Option<TypeSpec>, n: Node): Node {
    if spec.Some? then ByType(s, spec.value, n) else n
  }

  lemma {:induction false} SettlesFirst(s: Schema, spec: TypeSpec, n: Node)
    ensures ByType(s, spec, n) == ByType(s, Settled(s, false, spec, n), n)
    decreases spec
  {
    if spec.ref.None? {
      match spec.typ
      case TOptional => if !n.Null? && spec.inner.Some? { SettlesFirst(s, spec.inner.value, n); }
      case TUnion =>
        var i := FirstMatch(s, false, spec.oneOf, n);
        if i < |spec.oneOf| { SettlesFirst(s, spec.oneOf[i].value, n); }
      case _ =>
    }
  }

  /** The keys of the node itself. */
  lemma {:induction false} OrderedHere(s: Schema, spec: Option<TypeSpec>, n: Node)
    requires Valid(n) && ValidSchema(s)
    ensures OrderedAt(s, spec, n, Reordered(s, spec, n), [])
  {
    if spec.Some? {
      SettlesFirst(s, spec.value, n);
      SettledIsDone(s, false, spec.value, n);
      var t := Settled(s, false, spec.value, n);
      if n.Object? && t.ref.Some? && IsClass(s, t.ref.value) {
        var c := Resolve(s, t.ref.value);
        ArrangePermutes(c.names, n.keys);
        DeclaredFirst(c.names, Members(n.keys), n.keys);
      }
    }
  }

  /** A child of the result is the reordered child. */
  lemma OrderedBelow(s: Schema, spec: Option<TypeSpec>, n: Node, hop: Hop)
    ensures var out := Reordered(s, spec, n);
            && (HasChild(out, hop) <==> HasChild(n, hop))
            && (HasChild(n, hop) ==>
                  ChildAt(out, hop) == Reordered(s, Below(s, false, spec, n, hop), ChildAt(n, hop)))
  {
    if spec.Some? {
      SettlesFirst(s, spec.value, n);
      SettledIsDone(s, false, spec.value, n);
    }
  }

  /** At every position. */
  lemma {:induction false} OrderedEverywhere(s: Schema, spec: Option<TypeSpec>, n: Node, path: seq<Hop>)
    requires Valid(n) && ValidSchema(s)
    ensures OrderedAt(s, spec, n, Reordered(s, spec, n), path)
    decreases |path|
  {
    if path == [] {
      OrderedHere(s, spec, n);
    } else {
      OrderedBelow(s, spec, n, path[0]);
      if HasChild(n, path[0]) {
        OrderedEverywhere(s, Below(s, false, spec, n, path[0]), ChildAt(n, path[0]), path[1..]);
      }
    }
  }

  lemma {:induction false} ByTypeIsOrdered(s: Schema, spec: TypeSpec, n: Node)
    requires Valid(n) && ValidSchema(s)
    ensures OrderedThroughout(s, spec, n, ByType(s, spec, n))
  {
    forall path ensures OrderedAt(s, Some(spec), n, ByType(s, spec, n), path) {
      OrderedEverywhere(s, Some(spec), n, path);
    }
  }

  lemma {:induction false} ByClassIsOrdered(s: Schema, name: Key, n: Node)
    requires Valid(n) && ValidSchema(s) && IsClass(s, name)
    ensures OrderedThroughout(s, RefTo(name), n, ByClass(s, Resolve(s, name), n))
  {
    ByTypeIsOrdered(s, RefTo(name), n);
    assert ByType(s, RefTo(name), n) == ByClass(s, Resolve(s, name), n);
  }

  // ---------------------------------------------------------------- when a ref is unknown

  /** The schema refers, at this position of n, to a type that is neither a class nor an enum. */
  ghost predicate UnknownAt(s: Schema, spec: Option<TypeSpec>, n: Node, path: seq<Hop>) {
    match SpecAt(s, false, spec, n, path)
    case None => false
    case Some(t) => t.ref.Some? && !IsClass(s, t.ref.value) && t.ref.value !in s.enums
  }

  ghost predicate KnownThroughout(s: Schema, spec: TypeSpec, n: Node) {
    forall path :: !UnknownAt(s, Some(spec), n, path)
  }

  ghost predicate KnownFor(s: Schema, spec: Option<TypeSpec>, n: Node) {
    spec.Some? ==> Known(s, spec.value, n)
  }

  lemma {:induction false} KnownSettles(s: Schema, spec: TypeSpec, n: Node)
    ensures Known(s, spec, n) <==> Known(s, Settled(s, false, spec, n), n)
    decreases spec
  {
    if spec.ref.None? {
      match spec.typ
      case TOptional => if !n.Null? && spec.inner.Some? { KnownSettles(s, spec.inner.value, n); }
      case TUnion =>
        var i := FirstMatch(s, false, spec.oneOf, n);
        if i < |spec.oneOf| { KnownSettles(s, spec.oneOf[i].value, n); }
      case _ =>
    }
  }

  lemma KnownBelow(s: Schema, spec: Option<TypeSpec>, n: Node)
    ensures KnownFor(s, spec, n) ==>
              !UnknownAt(s, spec, n, [])
              && forall hop | HasChild(n, hop) :: KnownFor(s, Below(s, false, spec, n, hop), ChildAt(n, hop))
    ensures !KnownFor(s, spec, n) && !UnknownAt(s, spec, n, []) ==>
              exists hop :: HasChild(n, hop) && !KnownFor(s, Below(s, false, spec, n, hop), ChildAt(n, hop))
  {
    if spec.Some? {
      KnownSettles(s, spec.value, n);
      SettledIsDone(s, false, spec.value, n);
      var t := Settled(s, false, spec.value, n);
      if !Known(s, t, n) && !UnknownAt(s, spec, n, []) { var hop := UnknownChild(s, spec.value, n); }
    }
  }

  lemma UnknownChild(s: Schema, spec: TypeSpec, n: Node) returns (hop: Hop)
    requires var t := Settled(s, false, spec, n);
             !Known(s, t, n) && (t.ref.Some? ==> IsClass(s, t.ref.value) || t.ref.value in s.enums)
    ensures HasChild(n, hop) && !KnownFor(s, Below(s, false, Some(spec), n, hop), ChildAt(n, hop))
  {
    SettledIsDone(s, false, spec, n);
    var t := Settled(s, false, spec, n);
    if t.ref.Some? {
      var c := Resolve(s, t.ref.value);
      var k :| k in n.byKey && k in c.props && c.props[k].Some? && !Known(s, c.props[k].value, n.byKey[k]);
      hop := Field(k);
    } else if t.typ == TList {
      var i :| 0 <= i < |n.items| && !Known(s, t.items.value, n.items[i]);
      hop := Item(i);
    } else {
      var k :| k in n.byKey && !Known(s, t.values.value, n.byKey[k]);
      hop := Field(k);
    }
  }

  lemma {:induction false} KnownAt(s: Schema, spec: Option<TypeSpec>, n: Node, path: seq<Hop>)
    requires KnownFor(s, spec, n)
    ensures !UnknownAt(s, spec, n, path)
    decreases |path|
  {
    KnownBelow(s, spec, n);
    if path != [] && HasChild(n, path[0]) {
      KnownAt(s, Below(s, false, spec, n, path[0]), ChildAt(n, path[0]), path[1..]);
    }
  }

  lemma {:induction false} UnknownSomewhere(s: Schema, spec: Option<TypeSpec>, n: Node) returns (path: seq<Hop>)
    requires !KnownFor(s, spec, n)
    ensures UnknownAt(s, spec, n, path)
    decreases n
  {
    path := [];
    if !UnknownAt(s, spec, n, []) {
      KnownBelow(s, spec, n);
      var hop :| HasChild(n, hop) && !KnownFor(s, Below(s, false, spec, n, hop), ChildAt(n, hop));
      var rest := UnknownSomewhere(s, Below(s, false, spec, n, hop), ChildAt(n, hop));
      path := [hop] + rest;
      assert path[1..] == rest;
    }
  }

  /** The pass meets only known refs if and only if the schema refers to an unknown type at no position of n. */
  lemma {:induction false} KnownIff(s: Schema, spec: TypeSpec, n: Node)
    ensures Known(s, spec, n) <==> KnownThroughout(s, spec, n)
  {
    if Known(s, spec, n) {
      forall path ensures !UnknownAt(s, Some(spec), n, path) { KnownAt(s, Some(spec), n, path); }
    } else {
      var path := UnknownSomewhere(s, Some(spec), n);
    }
  }
}
