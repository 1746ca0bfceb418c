/**
  * Positions in a JSON tree, and the class the schema assigns to each: the
  * passes are described by what stands at every position of their output.
  */
module JsonPositions {
  import opened Common
  import opened JsonTree
  import opened KeySort

  datatype Hop = Item(i: nat) | Field(k: Key)

  predicate HasChild(n: Node, hop: Hop) {
    match hop
    case Item(i) => n.Array? && i < |n.items|
    case Field(k) => n.Object? && k in n.byKey
  }

  function ChildAt(n: Node, hop: Hop): Node
    requires HasChild(n, hop)
  {
    match hop
    case Item(i) => n.items[i]
    case Field(k) => n.byKey[k]
  }

  /** The node at a position, if there is one. */
  function At(n: Node, path: seq<Hop>): Option<Node>
    decreases |path|
  {
    if path == [] then Some(n)
    else if HasChild(n, path[0]) then At(ChildAt(n, path[0]), path[1..])
    else None
  }

  function Plain(typ: TypeName): TypeSpec {
    TypeSpec(typ, None, None, None, [], None, OtherLit)
  }

  function RefTo(name: Key): TypeSpec {
    Plain(Unset).(ref := Some(name))
  }

  /** The strict pass follows every ref, the lenient one only a ref without a type of its own. */
  predicate ByRef(lenient: bool, spec: TypeSpec) {
    spec.ref.Some? && (lenient ==> spec.typ == Unset)
  }

  /** The spec that governs n: optionals are passed through, and unions to their first matching variant. */
  function Settled(s: Schema, lenient: bool, spec: TypeSpec, n: Node): TypeSpec
    decreases spec
  {
    if ByRef(lenient, spec) then spec
    else match spec.typ
         case TOptional => if n.Null? || spec.inner.None? then spec else Settled(s, lenient, spec.inner.value, n)
         case TUnion =>
           var i := FirstMatch(s, lenient, spec.oneOf, n);
           if i < |spec.oneOf| then Settled(s, lenient, spec.oneOf[i].value, n) else spec
         case _ => spec
  }

  lemma {:induction false} SettledIsDone(s: Schema, lenient: bool, spec: TypeSpec, n: Node)
    ensures var t := Settled(s, lenient, spec, n);
            ByRef(lenient, t)
            || (t.typ == TOptional && (n.Null? || t.inner.None?))
            || (t.typ == TUnion && FirstMatch(s, lenient, t.oneOf, n) == |t.oneOf|)
            || (t.typ != TOptional && t.typ != TUnion)
    decreases spec
  {
    if !ByRef(lenient, spec) {
      match spec.typ
      case TOptional => if !n.Null? && spec.inner.Some? { SettledIsDone(s, lenient, spec.inner.value, n); }
      case TUnion =>
        var i := FirstMatch(s, lenient, spec.oneOf, n);
        if i < |spec.oneOf| { SettledIsDone(s, lenient, spec.oneOf[i].value, n); }
      case _ =>
    }
  }

  /** The class whose instance n is, if the schema says that it is one. */
  function ClassOf(s: Schema, lenient: bool, spec: Option<TypeSpec>, n: Node): Option<Class> {
    if spec.None? then None
    else
      var t := Settled(s, lenient, spec.value, n);
      if ByRef(lenient, t) && IsClass(s, t.ref.value) then Some(Resolve(s, t.ref.value)) else None
  }

  /** The spec of a child: a property's, that of a list's items or of a map's values; none for any other child. */
  function Below(s: Schema, lenient: bool, spec: Option<TypeSpec>, n: Node, hop: Hop): Option<TypeSpec> {
    if spec.None? then None
    else
      var t := Settled(s, lenient, spec.value, n);
      if ByRef(lenient, t) then
        if IsClass(s, t.ref.value) && hop.Field? && hop.k in Resolve(s, t.ref.value).props
        then Resolve(s, t.ref.value).props[hop.k]
        else None
      else if t.typ == TList && hop.Item? then t.items
      else if t.typ == TMap && hop.Field? then t.values
      else None
  }

  /** The class of the node at a position. */
  function ClassAt(s: Schema, lenient: bool, spec: Option<TypeSpec>, n: Node, path: seq<Hop>): Option<Class>
    decreases |path|
  {
    if path == [] then ClassOf(s, lenient, spec, n)
    else if !HasChild(n, path[0]) then None
    else ClassAt(s, lenient, Below(s, lenient, spec, n, path[0]), ChildAt(n, path[0]), path[1..])
  }

  /** The spec that governs the node at a position. */
  function SpecAt(s: Schema, lenient: bool, spec: Option<TypeSpec>, n: Node, path: seq<Hop>): Option<TypeSpec>
    decreases |path|
  {
    if path == [] then if spec.None? then None else Some(Settled(s, lenient, spec.value, n))
    else if !HasChild(n, path[0]) then None
    else SpecAt(s, lenient, Below(s, lenient, spec, n, path[0]), ChildAt(n, path[0]), path[1..])
  }
}
