/** What stands where after injection: at every class position all the class's optionals, elsewhere nothing new. */
module JsonInjectAt {
  import opened Common
  import opened JsonInject
  import opened JsonPositions
  import opened JsonTree
  import opened KeyOrder
  import opened KeySort

  /** out has the fields of a and, as null, the optionals of c that a lacks, declared ones first in schema order. */
  ghost predicate Completes(c: Class, a: Node, out: Node)
    requires a.Object? && out.Object?
  {
    && (forall k :: k in out.byKey <==> k in a.byKey || (k in c.props && IsOptional(c.props[k])))
    && (forall k | k in out.byKey && k !in a.byKey :: out.byKey[k] == Null)
    && NoDup(out.keys) && (forall k :: k in out.keys <==> k in out.byKey) && InOrder(c.names, a.keys, out.keys)
  }

  /**
    * What injecting into n means at one of its positions: an object that is a class's instance is completed,
    * any other object has the same keys, and scalars are as they were.
    */
  ghost predicate FilledAt(s: Schema, spec: Option<TypeSpec>, n: Node, out: Node, path: seq<Hop>) {
    At(n, path).Some? ==>
      && At(out, path).Some?
      && var a, b := At(n, path).value, At(out, path).value;
      match a
      case Array(items) => b.Array? && |b.items| == |items|
      case Object(keys, byKey) =>
        && b.Object?
        && (match ClassAt(s, true, spec, n, path)
            case None => b.keys == keys && b.byKey.Keys == byKey.Keys
            case Some(c) => Completes(c, a, b))
      case _ => b == a
  }

  /** So at every position. */
  ghost predicate FilledThroughout(s: Schema, spec: TypeSpec, n: Node, out: Node) {
    forall path :: FilledAt(s, Some(spec), n, out, path)
  }

  function Injected(s: Schema, spec: Option<TypeSpec>, n: Node): Node {
    if spec.Some? then FillType(s, spec.value, n) else n
  }

  lemma {:induction false} SettlesFirst(s: Schema, spec: TypeSpec, n: Node)
    ensures FillType(s, spec, n) == FillType(s, Settled(s, true, spec, n), n)
    decreases spec
  {
    if !ByRef(true, spec) {
      match spec.typ
      case TOptional => if !n.Null? && spec.inner.Some? { SettlesFirst(s, spec.inner.value, n); }
      case TUnion =>
        var i := FirstMatch(s, true, spec.oneOf, n);
        if i < |spec.oneOf| { SettlesFirst(s, spec.oneOf[i].value, n); }
      case _ =>
    }
  }

  lemma {:induction false} FillCompletes(s: Schema, c: Class, n: Node)
    requires Valid(n) && n.Object? && ValidClass(c)
    ensures FillClass(s, c, n).Object? && Completes(c, n, FillClass(s, c, n))
  {
    FilledKeysAre(c, n.keys);
    DeclaredFirst(c.names, Members(n.keys) + Optionals(c), n.keys);
  }

  lemma {:induction false} FilledHere(s: Schema, spec: Option<TypeSpec>, n: Node)
    requires Valid(n) && ValidSchema(s)
    ensures FilledAt(s, spec, n, Injected(s, spec, n), [])
  {
    if spec.Some? {
      SettlesFirst(s, spec.value, n);
      SettledIsDone(s, true, spec.value, n);
      var t := Settled(s, true, spec.value, n);
      if n.Object? && ByRef(true, t) && IsClass(s, t.ref.value) { FillCompletes(s, Resolve(s, t.ref.value), n); }
    }
  }

  lemma FilledBelow(s: Schema, spec: Option<TypeSpec>, n: Node, hop: Hop)
    requires HasChild(n, hop)
    ensures var out := Injected(s, spec, n);
            HasChild(out, hop) && ChildAt(out, hop) == Injected(s, Below(s, true, spec, n, hop), ChildAt(n, hop))
  {
    if spec.Some? {
      SettlesFirst(s, spec.value, n);
      SettledIsDone(s, true, spec.value, n);
    }
  }

  /** At every position. */
  lemma {:induction false} FilledEverywhere(s: Schema, spec: Option<TypeSpec>, n: Node, path: seq<Hop>)
    requires Valid(n) && ValidSchema(s)
    ensures FilledAt(s, spec, n, Injected(s, spec, n), path)
    decreases |path|
  {
    if path == [] {
      FilledHere(s, spec, n);
    } else if HasChild(n, path[0]) {
      FilledBelow(s, spec, n, path[0]);
      FilledEverywhere(s, Below(s, true, spec, n, path[0]), ChildAt(n, path[0]), path[1..]);
    }
  }

  lemma {:induction false} FillTypeIsFilled(s: Schema, spec: TypeSpec, n: Node)
    requires Valid(n) && ValidSchema(s)
    ensures FilledThroughout(s, spec, n, FillType(s, spec, n))
  {
    forall path ensures FilledAt(s, Some(spec), n, FillType(s, spec, n), path) {
      FilledEverywhere(s, Some(spec), n, path);
    }
  }

  lemma {:induction false} FillClassIsFilled(s: Schema, name: Key, n: Node)
    requires Valid(n) && ValidSchema(s) && IsClass(s, name)
    ensures FilledThroughout(s, RefTo(name), n, FillClass(s, Resolve(s, name), n))
  {
    FillTypeIsFilled(s, RefTo(name), n);
    assert FillType(s, RefTo(name), n) == FillClass(s, Resolve(s, name), n);
  }
}
