/**
  * Reordering object keys by the output schema: the pass as a function, and why
  * it keeps the value and changes nothing the second time.
  */
module JsonReorder {
  import opened JsonTree
  import opened KeyOrder

  // ---------------------------------------------------------------- the pass as a function

  /** The node reordered by a class; a ref that names nothing is left alone here and reported by Known. */
  function ByClass(s: Schema, c: Class, n: Node): Node
    decreases n, 0
  {
    if !n.Object? then n
    else Object(Arrange(c.names, n.keys),
                map k | k in n.byKey ::
                  if k in c.props && c.props[k].Some? then ByType(s, c.props[k].value, n.byKey[k]) else n.byKey[k])
  }

  function ByType(s: Schema, spec: TypeSpec, n: Node): Node
    decreases n, 1, spec
  {
    if spec.ref.Some? then
      if IsClass(s, spec.ref.value) then ByClass(s, Resolve(s, spec.ref.value), n) else n
    else match spec.typ
         case TOptional => if n.Null? || spec.inner.None? then n else ByType(s, spec.inner.value, n)
         case TList =>
           if !n.Array? || spec.items.None? then n
           else Array(seq(|n.items|, i requires 0 <= i < |n.items| => ByType(s, spec.items.value, n.items[i])))
         case TMap =>
           if !n.Object? || spec.values.None? then n
           else Object(n.keys, map k | k in n.byKey :: ByType(s, spec.values.value, n.byKey[k]))
         case TUnion =>
           var i := FirstMatch(s, false, spec.oneOf, n);
           if i < |spec.oneOf| then ByType(s, spec.oneOf[i].value, n) else n
         case _ => n
  }

  /** Every ref the pass meets names a class or an enum. */
  ghost predicate KnownClass(s: Schema, c: Class, n: Node)
    decreases n, 0
  {
    n.Object? ==> forall k | k in n.byKey && k in c.props && c.props[k].Some? :: Known(s, c.props[k].value, n.byKey[k])
  }

  ghost predicate Known(s: Schema, spec: TypeSpec, n: Node)
    decreases n, 1, spec
  {
    if spec.ref.Some? then
      if IsClass(s, spec.ref.value) then KnownClass(s, Resolve(s, spec.ref.value), n) else spec.ref.value in s.enums
    else match spec.typ
         case TOptional => n.Null? || spec.inner.None? || Known(s, spec.inner.value, n)
         case TList =>
           n.Array? && spec.items.Some? ==> forall i | 0 <= i < |n.items| :: Known(s, spec.items.value, n.items[i])
         case TMap =>
           n.Object? && spec.values.Some? ==> forall k | k in n.byKey :: Known(s, spec.values.value, n.byKey[k])
         case TUnion =>
           var i := FirstMatch(s, false, spec.oneOf, n);
           i < |spec.oneOf| ==> Known(s, spec.oneOf[i].value, n)
         case _ => true
  }

  // ---------------------------------------------------------------- the value is kept

  lemma {:induction false} ClassKeepsValue(s: Schema, c: Class, n: Node)
    requires Valid(n) && ValidSchema(s) && ValidClass(c)
    ensures Valid(ByClass(s, c, n)) && SameValue(n, ByClass(s, c, n))
    decreases n, 0
  {
    if n.Object? {
      var out := ByClass(s, c, n);
      ArrangePermutes(c.names, n.keys);
      forall k | k in n.byKey ensures Valid(out.byKey[k]) && SameValue(n.byKey[k], out.byKey[k]) {
        if k in c.props && c.props[k].Some? {
          TypeKeepsValue(s, c.props[k].value, n.byKey[k]);
        } else {
          SameAsItself(n.byKey[k]);
        }
      }
      assert n.byKey.Keys == out.byKey.Keys;
    } else {
      SameAsItself(n);
    }
  }

  /** Reordering keeps the JSON value, for every schema and every spec. */
  lemma {:induction false} TypeKeepsValue(s: Schema, spec: TypeSpec, n: Node)
    requires Valid(n) && ValidSchema(s)
    ensures Valid(ByType(s, spec, n)) && SameValue(n, ByType(s, spec, n))
    decreases n, 1, spec
  {
    SameAsItself(n);
    if spec.ref.Some? {
      if IsClass(s, spec.ref.value) { ClassKeepsValue(s, Resolve(s, spec.ref.value), n); }
    } else {
      var out := ByType(s, spec, n);
      match spec.typ
      case TOptional => if !n.Null? && spec.inner.Some? { TypeKeepsValue(s, spec.inner.value, n); }
      case TList =>
        if n.Array? && spec.items.Some? {
          forall i | 0 <= i < |n.items| ensures Valid(out.items[i]) && SameValue(n.items[i], out.items[i]) {
            TypeKeepsValue(s, spec.items.value, n.items[i]);
          }
        }
      case TMap =>
        if n.Object? && spec.values.Some? {
          forall k | k in n.byKey ensures Valid(out.byKey[k]) && SameValue(n.byKey[k], out.byKey[k]) {
            TypeKeepsValue(s, spec.values.value, n.byKey[k]);
          }
          assert n.byKey.Keys == out.byKey.Keys;
        }
      case TUnion =>
        var i := FirstMatch(s, false, spec.oneOf, n);
        if i < |spec.oneOf| { TypeKeepsValue(s, spec.oneOf[i].value, n); }
      case _ =>
    }
  }

  // ---------------------------------------------------------------- the second time changes nothing

  lemma {:induction false} ClassTwice(s: Schema, c: Class, n: Node)
    requires Valid(n) && ValidSchema(s) && ValidClass(c)
    ensures ByClass(s, c, ByClass(s, c, n)) == ByClass(s, c, n)
    decreases n, 0
  {
    if n.Object? {
      var once := ByClass(s, c, n);
      var twice := ByClass(s, c, once);
      ArrangeTwice(c.names, n.keys);
      forall k | k in n.byKey ensures twice.byKey[k] == once.byKey[k] {
        if k in c.props && c.props[k].Some? { TypeTwice(s, c.props[k].value, n.byKey[k]); }
      }
      assert twice.byKey == once.byKey;
    }
  }

  /** Reordering is idempotent, through unions too: the variant is picked again because matching ignores key order. */
  lemma {:induction false} TypeTwice(s: Schema, spec: TypeSpec, n: Node)
    requires Valid(n) && ValidSchema(s)
    ensures ByType(s, spec, ByType(s, spec, n)) == ByType(s, spec, n)
    decreases n, 1, spec
  {
    if spec.ref.Some? {
      if IsClass(s, spec.ref.value) { ClassTwice(s, Resolve(s, spec.ref.value), n); }
    } else {
      var once := ByType(s, spec, n);
      match spec.typ
      case TOptional =>
        if !n.Null? && spec.inner.Some? {
          TypeTwice(s, spec.inner.value, n);
          TypeKeepsValue(s, spec.inner.value, n);
        }
      case TList =>
        if n.Array? && spec.items.Some? {
          forall i | 0 <= i < |n.items| ensures ByType(s, spec.items.value, once.items[i]) == once.items[i] {
            TypeTwice(s, spec.items.value, n.items[i]);
          }
          assert ByType(s, spec, once).items == once.items;
        }
      case TMap =>
        if n.Object? && spec.values.Some? {
          forall k | k in n.byKey ensures ByType(s, spec.values.value, once.byKey[k]) == once.byKey[k] {
            TypeTwice(s, spec.values.value, n.byKey[k]);
          }
          assert ByType(s, spec, once).byKey == once.byKey;
        }
      case TUnion =>
        var i := FirstMatch(s, false, spec.oneOf, n);
        if i < |spec.oneOf| {
          TypeTwice(s, spec.oneOf[i].value, n);
          TypeKeepsValue(s, spec.oneOf[i].value, n);
          FirstMatchIgnoresOrder(s, false, spec.oneOf, n, once);
        }
      case _ =>
    }
  }
}
