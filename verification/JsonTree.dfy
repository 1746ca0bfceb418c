/**
  * The decoded JSON tree of the dynamic-output passes, the output schema, and
  * the shape matching that picks a union's variant.
  */
module JsonTree {
  import opened Common
  import opened KeyOrder
  import opened KeySort

  /** orderedNode; a scalar keeps its source bytes, and what they decode to where a match needs it. */
  datatype Node =
    | Null
    | Bool(truth: bool)
    | Number(raw: string, int64: Option<int>)
    | Text(raw: string, decoded: Option<string>)
    | Array(items: seq<Node>)
    | Object(keys: seq<Key>, byKey: map<Key, Node>)

  datatype TypeName =
    | Unset | TString | TInt | TFloat | TBool | TNull
    | TOptional | TList | TMap | TUnion
    | TLiteralString | TLiteralInt | TLiteralBool | Unknown

  /** A literal type's value; a float literal is given by the 64-bit integers that convert to it. */
  datatype Literal = StringLit(s: string) | IntLit(i: int) | FloatLit(ints: set<int>) | BoolLit(b: bool) | OtherLit

  /** DynamicTypeSpec, and DynamicProperty, which has the same fields. */
  datatype TypeSpec = TypeSpec(typ: TypeName, ref: Option<Key>, items: Option<TypeSpec>, inner: Option<TypeSpec>,
                               oneOf: seq<Option<TypeSpec>>, values: Option<TypeSpec>, value: Literal)

  /** An ordered map of properties; a property may be nil. */
  datatype Class = Class(names: seq<Key>, props: map<Key, Option<TypeSpec>>)

  /** An enum may be nil, and so may each of its values. */
  datatype Schema = Schema(root: Class, classes: map<Key, Class>, enums: map<Key, Option<seq<Option<string>>>>)

  const ROOT := Key("Baml_Rest_DynamicOutput")

  /** What OrderedMap guarantees: distinct keys, and a value for each. */
  ghost predicate ValidClass(c: Class) {
    NoDup(c.names) && forall k :: k in c.names <==> k in c.props
  }

  ghost predicate ValidSchema(s: Schema) {
    ValidClass(s.root) && forall k | k in s.classes :: ValidClass(s.classes[k])
  }

  /** What decoding guarantees of every object: distinct keys, and a value for each. */
  ghost predicate Valid(n: Node) {
    match n
    case Array(items) => forall i | 0 <= i < |items| :: Valid(items[i])
    case Object(keys, byKey) =>
      && NoDup(keys) && (forall k :: k in keys <==> k in byKey)
      && forall k | k in byKey :: Valid(byKey[k])
    case _ => true
  }

  /** Equal as JSON values: objects are unordered. */
  ghost predicate SameValue(a: Node, b: Node) {
    match a
    case Array(items) => b.Array? && |items| == |b.items| && forall i | 0 <= i < |items| ::
                           SameValue(items[i], b.items[i])
    case Object(keys, byKey) =>
      b.Object? && byKey.Keys == b.byKey.Keys && forall k | k in byKey :: SameValue(byKey[k], b.byKey[k])
    case _ => a == b
  }

  lemma {:induction false} SameAsItself(a: Node)
    ensures SameValue(a, a)
  {
    match a
    case Array(items) => forall i | 0 <= i < |items| ensures SameValue(items[i], items[i]) { SameAsItself(items[i]); }
    case Object(keys, byKey) => forall k | k in byKey ensures SameValue(byKey[k], byKey[k]) { SameAsItself(byKey[k]); }
    case _ =>
  }

  lemma {:induction false} SameSymmetric(a: Node, b: Node)
    requires SameValue(a, b)
    ensures SameValue(b, a)
  {
    match a
    case Array(items) =>
      forall i | 0 <= i < |items| ensures SameValue(b.items[i], items[i]) { SameSymmetric(items[i], b.items[i]); }
    case Object(keys, byKey) =>
      forall k | k in byKey ensures SameValue(b.byKey[k], byKey[k]) { SameSymmetric(byKey[k], b.byKey[k]); }
    case _ =>
  }

  // ---------------------------------------------------------------- matching

  predicate IsClass(s: Schema, name: Key) {
    name == ROOT || name in s.classes
  }

  function Resolve(s: Schema, name: Key): Class
    requires IsClass(s, name)
  {
    if name == ROOT then s.root else s.classes[name]
  }

  predicate IsOptional(p: Option<TypeSpec>) {
    p.Some? && p.value.typ == TOptional
  }

  /** The keys include every declared property; lenient excuses the optional ones. */
  predicate MatchesClass(c: Class, lenient: bool, n: Node) {
    n.Object? && forall k | k in c.names :: k in n.byKey || (lenient && k in c.props && IsOptional(c.props[k]))
  }

  predicate MatchesEnum(s: Schema, name: Key, n: Node)
    requires name in s.enums
  {
    n.Text? && s.enums[name].Some? && n.decoded.Some? && Some(n.decoded.value) in s.enums[name].value
  }

  predicate IsIntLiteral(raw: string) {
    '.' !in raw && 'e' !in raw && 'E' !in raw
  }

  predicate MatchesScalar(spec: TypeSpec, n: Node) {
    match spec.typ
    case TString => n.Text?
    case TInt => n.Number? && IsIntLiteral(n.raw)
    case TFloat => n.Number?
    case TBool => n.Bool?
    case TNull => n.Null?
    case TLiteralString => n.Text? && n.decoded.Some? && spec.value == StringLit(n.decoded.value)
    case TLiteralInt =>
      && n.Number? && IsIntLiteral(n.raw) && n.int64.Some?
      && (spec.value == IntLit(n.int64.value) || (spec.value.FloatLit? && n.int64.value in spec.value.ints))
    case TLiteralBool => n.Bool? && spec.value == BoolLit(n.truth)
    case _ => false
  }

  predicate MatchesType(s: Schema, lenient: bool, spec: TypeSpec, n: Node)
    decreases n, spec
  {
    if spec.ref.Some? then
      if IsClass(s, spec.ref.value) then MatchesClass(Resolve(s, spec.ref.value), lenient, n)
      else spec.ref.value in s.enums && MatchesEnum(s, spec.ref.value, n)
    else match spec.typ
         case TOptional => n.Null? || (spec.inner.Some? && MatchesType(s, lenient, spec.inner.value, n))
         case TList => n.Array?
                       && (spec.items.None? || |n.items| == 0 || MatchesType(s, lenient, spec.items.value, n.items[0]))
         case TMap =>
           n.Object? && (spec.values.None? || forall k | k in n.byKey ::
                           MatchesType(s, lenient, spec.values.value, n.byKey[k]))
         case TUnion => exists i | 0 <= i < |spec.oneOf| ::
           spec.oneOf[i].Some? && MatchesType(s, lenient, spec.oneOf[i].value, n)
         case _ => MatchesScalar(spec, n)
  }

  // ---------------------------------------------------------------- what matching means

  /** The literal value a node denotes: a decoded string, an integer without fraction or exponent, or a boolean. */
  function Denotes(n: Node): Option<Literal> {
    match n
    case Text(_, decoded) => if decoded.Some? then Some(StringLit(decoded.value)) else None
    case Number(raw, int64) => if IsIntLiteral(raw) && int64.Some? then Some(IntLit(int64.value)) else None
    case Bool(truth) => Some(BoolLit(truth))
    case _ => None
  }

  /** The type a literal type narrows. */
  function BaseOf(typ: TypeName): TypeName {
    match typ
    case TLiteralString => TString
    case TLiteralInt => TInt
    case TLiteralBool => TBool
    case _ => typ
  }

  /** A string, integer or boolean literal type with a value of its own kind. */
  predicate IsLiteral(spec: TypeSpec) {
    || (spec.typ == TLiteralString && spec.value.StringLit?)
    || (spec.typ == TLiteralInt && spec.value.IntLit?)
    || (spec.typ == TLiteralBool && spec.value.BoolLit?)
  }

  /**
    * Scalars: each node matches exactly the type of its kind, an integer also float; a literal type matches
    * the nodes that denote its value, and no node that its base type does not match.
    */
  lemma {:induction false} ScalarsMatch(s: Schema, lenient: bool, spec: TypeSpec, n: Node)
    requires spec.ref.None?
    ensures var matches := MatchesType(s, lenient, spec, n);
            && (n.Text? ==>
                  && (spec.typ == TString ==> matches) && (spec.typ in {TInt, TFloat, TBool, TNull} ==> !matches))
            && (n.Bool? ==>
                  && (spec.typ == TBool ==> matches) && (spec.typ in {TInt, TFloat, TString, TNull} ==> !matches))
            && (n.Null? ==>
                  && (spec.typ == TNull ==> matches) && (spec.typ in {TInt, TFloat, TString, TBool} ==> !matches))
            && (n.Number? ==>
                  && (spec.typ == TFloat ==> matches) && (spec.typ in {TString, TBool, TNull} ==> !matches)
                  && (spec.typ == TInt ==> (matches <==> '.' !in n.raw && 'e' !in n.raw && 'E' !in n.raw)))
            && (n.Array? || n.Object? ==> spec.typ in {TString, TInt, TFloat, TBool, TNull} ==> !matches)
            && (IsLiteral(spec) ==> (matches <==> Denotes(n) == Some(spec.value)))
            && (spec.typ in {TLiteralString, TLiteralInt, TLiteralBool} && matches ==>
                  MatchesType(s, lenient, spec.(typ := BaseOf(spec.typ)), n))
  {
  }

  /**
    * Composites: an optional also accepts null; a list is judged by its first item and a map by all its
    * values; a union is matched by whatever one of its variants matches.
    */
  lemma {:induction false} CompositesMatch(s: Schema, lenient: bool, spec: TypeSpec, n: Node)
    requires spec.ref.None?
    ensures spec.typ == TOptional && spec.inner.Some? ==>
              (MatchesType(s, lenient, spec, n) <==> n.Null? || MatchesType(s, lenient, spec.inner.value, n))
    ensures spec.typ == TList && spec.items.Some? ==>
              (MatchesType(s, lenient, spec, n) <==>
               n.Array? && (n.items == [] || MatchesType(s, lenient, spec.items.value, n.items[0])))
    ensures spec.typ == TMap && spec.values.Some? ==>
              (MatchesType(s, lenient, spec, n) <==>
               n.Object? && forall k | k in n.byKey :: MatchesType(s, lenient, spec.values.value, n.byKey[k]))
    ensures spec.typ == TUnion ==>
              (MatchesType(s, lenient, spec, n) <==>
               exists i | 0 <= i < |spec.oneOf| :: MatchesVariant(s, lenient, spec.oneOf[i], n))
  {
    if spec.typ == TUnion && MatchesType(s, lenient, spec, n) {
      var i :| 0 <= i < |spec.oneOf| && spec.oneOf[i].Some? && MatchesType(s, lenient, spec.oneOf[i].value, n);
      assert MatchesVariant(s, lenient, spec.oneOf[i], n);
    }
  }

  /** Whatever matches strictly matches leniently. */
  lemma {:induction false} StrictIsLenient(s: Schema, spec: TypeSpec, n: Node)
    requires MatchesType(s, false, spec, n)
    ensures MatchesType(s, true, spec, n)
    decreases n, spec
  {
    if spec.ref.None? {
      match spec.typ
      case TOptional => if !n.Null? { StrictIsLenient(s, spec.inner.value, n); }
      case TList => if spec.items.Some? && n.items != [] { StrictIsLenient(s, spec.items.value, n.items[0]); }
      case TMap =>
        if spec.values.Some? {
          forall k | k in n.byKey ensures MatchesType(s, true, spec.values.value, n.byKey[k]) {
            StrictIsLenient(s, spec.values.value, n.byKey[k]);
          }
        }
      case TUnion =>
        var i :| 0 <= i < |spec.oneOf| && spec.oneOf[i].Some? && MatchesType(s, false, spec.oneOf[i].value, n);
        StrictIsLenient(s, spec.oneOf[i].value, n);
      case _ =>
    }
  }

  /** An object matches a class strictly if it has every declared property; leniently it may lack optional ones. */
  lemma {:induction false} ClassesMatch(s: Schema, lenient: bool, spec: TypeSpec, n: Node)
    requires spec.ref.Some? && IsClass(s, spec.ref.value) && ValidSchema(s)
    ensures MatchesType(s, lenient, spec, n) <==>
            n.Object? && forall k | k in Resolve(s, spec.ref.value).props ::
              k in n.byKey || (lenient && IsOptional(Resolve(s, spec.ref.value).props[k]))
  {
  }

  predicate MatchesVariant(s: Schema, lenient: bool, v: Option<TypeSpec>, n: Node) {
    v.Some? && MatchesType(s, lenient, v.value, n)
  }

  /** The first variant from i on that matches, or the number of variants. */
  function MatchFrom(s: Schema, lenient: bool, oneOf: seq<Option<TypeSpec>>, n: Node, i: nat): (k: nat)
    requires i <= |oneOf|
    ensures i <= k <= |oneOf| && (k < |oneOf| ==> MatchesVariant(s, lenient, oneOf[k], n))
    ensures forall j | i <= j < k :: !MatchesVariant(s, lenient, oneOf[j], n)
    decreases |oneOf| - i
  {
    if i == |oneOf| || MatchesVariant(s, lenient, oneOf[i], n) then i else MatchFrom(s, lenient, oneOf, n, i + 1)
  }

  function FirstMatch(s: Schema, lenient: bool, oneOf: seq<Option<TypeSpec>>, n: Node): (k: nat)
    ensures k <= |oneOf| && (k < |oneOf| ==> MatchesVariant(s, lenient, oneOf[k], n))
    ensures forall j | 0 <= j < k :: !MatchesVariant(s, lenient, oneOf[j], n)
  {
    MatchFrom(s, lenient, oneOf, n, 0)
  }

  /** Matching does not see key order, at any depth. */
  lemma {:induction false} MatchIgnoresOrder(s: Schema, lenient: bool, spec: TypeSpec, a: Node, b: Node)
    requires SameValue(a, b)
    ensures MatchesType(s, lenient, spec, a) <==> MatchesType(s, lenient, spec, b)
    decreases a, spec
  {
    if spec.ref.Some? {
    } else {
      match spec.typ
      case TOptional => if spec.inner.Some? { MatchIgnoresOrder(s, lenient, spec.inner.value, a, b); }
      case TList =>
        if a.Array? && spec.items.Some? && |a.items| > 0 {
          MatchIgnoresOrder(s, lenient, spec.items.value, a.items[0], b.items[0]);
        }
      case TMap =>
        if a.Object? && spec.values.Some? {
          forall k | k in a.byKey
            ensures MatchesType(s, lenient, spec.values.value, a.byKey[k]) <==>
                    MatchesType(s, lenient, spec.values.value, b.byKey[k])
          {
            MatchIgnoresOrder(s, lenient, spec.values.value, a.byKey[k], b.byKey[k]);
          }
        }
      case TUnion =>
        forall i | 0 <= i < |spec.oneOf| && spec.oneOf[i].Some?
          ensures MatchesType(s, lenient, spec.oneOf[i].value, a) <==> MatchesType(s, lenient, spec.oneOf[i].value, b)
        {
          MatchIgnoresOrder(s, lenient, spec.oneOf[i].value, a, b);
        }
      case _ =>
    }
  }

  lemma {:induction false} FirstMatchIgnoresOrder(s: Schema, lenient: bool, oneOf: seq<Option<TypeSpec>>,
                                                  a: Node, b: Node)
    requires SameValue(a, b)
    ensures FirstMatch(s, lenient, oneOf, a) == FirstMatch(s, lenient, oneOf, b)
  {
    forall j | 0 <= j < |oneOf|
      ensures MatchesVariant(s, lenient, oneOf[j], a) <==> MatchesVariant(s, lenient, oneOf[j], b)
    {
      if oneOf[j].Some? { MatchIgnoresOrder(s, lenient, oneOf[j].value, a, b); }
    }
  }
}
