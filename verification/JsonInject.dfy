/**
  * Filling in null for absent optional properties: what the pass adds, and why
  * a variant it settled on still matches strictly afterwards.
  */
module JsonInject {
  import opened Common
  import opened JsonPositions
  import opened JsonTree
  import opened KeyOrder
  import opened KeySort

  /** The properties a class declares optional. */
  function Optionals(c: Class): set<Key> {
    set k | k in c.props && IsOptional(c.props[k])
  }

  function FilledKeys(c: Class, keys: seq<Key>): seq<Key> {
    Keep(c.names, Members(keys) + Optionals(c)) + Drop(keys, Members(c.names))
  }

  function FillClass(s: Schema, c: Class, n: Node): Node
    decreases n, 0
  {
    if !n.Object? then n
    else Object(FilledKeys(c, n.keys),
                map k | k in n.byKey.Keys + Optionals(c) ::
                  if k !in n.byKey then Null
                  else if k in c.props && c.props[k].Some? then FillType(s, c.props[k].value, n.byKey[k])
                  else n.byKey[k])
  }

  /** Unlike matching, the pass follows a ref only when the spec has no type of its own. */
  function FillType(s: Schema, spec: TypeSpec, n: Node): Node
    decreases n, 1, spec
  {
    if spec.ref.Some? && spec.typ == Unset then
      if IsClass(s, spec.ref.value) then FillClass(s, Resolve(s, spec.ref.value), n) else n
    else match spec.typ
         case TOptional => if n.Null? || spec.inner.None? then n else FillType(s, spec.inner.value, n)
         case TList =>
           if !n.Array? || spec.items.None? then n
           else Array(seq(|n.items|, i requires 0 <= i < |n.items| => FillType(s, spec.items.value, n.items[i])))
         case TMap =>
           if !n.Object? || spec.values.None? then n
           else Object(n.keys, map k | k in n.byKey :: FillType(s, spec.values.value, n.byKey[k]))
         case TUnion =>
           var i := FirstMatch(s, true, spec.oneOf, n);
           if i < |spec.oneOf| then FillType(s, spec.oneOf[i].value, n) else n
         case _ => n
  }

  // ---------------------------------------------------------------- lenient, then strict

  /** No spec of the tree carries both a type and a ref, which is what schema validation demands. */
  predicate NoBoth(spec: TypeSpec) {
    && (spec.ref.Some? ==> spec.typ == Unset)
    && (spec.inner.Some? ==> NoBoth(spec.inner.value))
    && (spec.items.Some? ==> NoBoth(spec.items.value))
    && (spec.values.Some? ==> NoBoth(spec.values.value))
    && forall i | 0 <= i < |spec.oneOf| && spec.oneOf[i].Some? :: NoBoth(spec.oneOf[i].value)
  }

  /** A class instance that matches leniently matches strictly once its absent optionals are filled in. */
  lemma {:induction false} FilledClassMatches(s: Schema, c: Class, n: Node)
    requires ValidClass(c) && MatchesClass(c, true, n)
    ensures MatchesClass(c, false, FillClass(s, c, n))
  {
    forall k | k in c.names ensures k in FillClass(s, c, n).byKey { if k !in n.byKey { assert k in Optionals(c); } }
  }

  lemma {:induction false} MatchedHasFirst(s: Schema, lenient: bool, spec: TypeSpec, n: Node)
    requires spec.ref.None? && spec.typ == TUnion && MatchesType(s, lenient, spec, n)
    ensures FirstMatch(s, lenient, spec.oneOf, n) < |spec.oneOf|
  {
    var j :| 0 <= j < |spec.oneOf| && spec.oneOf[j].Some? && MatchesType(s, lenient, spec.oneOf[j].value, n);
    assert MatchesVariant(s, lenient, spec.oneOf[j], n);
  }

  /** A type that matches leniently matches strictly after injection for it. */
  lemma {:induction false} LenientThenStrict(s: Schema, spec: TypeSpec, n: Node)
    requires ValidSchema(s) && NoBoth(spec) && MatchesType(s, true, spec, n)
    ensures MatchesType(s, false, spec, FillType(s, spec, n))
    decreases n, spec
  {
    if spec.ref.Some? {
      if IsClass(s, spec.ref.value) { FilledClassMatches(s, Resolve(s, spec.ref.value), n); }
    } else {
      match spec.typ
      case TOptional => if !n.Null? { LenientThenStrict(s, spec.inner.value, n); }
      case TList => if spec.items.Some? && |n.items| > 0 { LenientThenStrict(s, spec.items.value, n.items[0]); }
      case TMap =>
        if spec.values.Some? {
          var out := FillType(s, spec, n);
          forall k | k in out.byKey ensures MatchesType(s, false, spec.values.value, out.byKey[k]) {
            LenientThenStrict(s, spec.values.value, n.byKey[k]);
          }
        }
      case TUnion =>
        MatchedHasFirst(s, true, spec, n);
        LenientThenStrict(s, spec.oneOf[FirstMatch(s, true, spec.oneOf, n)].value, n);
      case _ =>
    }
  }

  /** A union that injection resolved is resolved again by the strict reorder, by that variant or an earlier one. */
  lemma {:induction false} ResolvedStaysResolved(s: Schema, spec: TypeSpec, n: Node)
    requires ValidSchema(s) && NoBoth(spec) && spec.typ == TUnion
    requires FirstMatch(s, true, spec.oneOf, n) < |spec.oneOf|
    ensures FirstMatch(s, false, spec.oneOf, FillType(s, spec, n)) <= FirstMatch(s, true, spec.oneOf, n)
  {
    var i := FirstMatch(s, true, spec.oneOf, n);
    LenientThenStrict(s, spec.oneOf[i].value, n);
    assert MatchesVariant(s, false, spec.oneOf[i], FillType(s, spec, n));
  }

  /** An optional of null. */
  const MAYBE_NULL := Plain(TOptional).(inner := Some(Plain(TNull)))

  /** A class that declares only y. */
  function OnlyY(y: TypeSpec): Class {
    Class([Key("y")], map[Key("y") := Some(y)])
  }

  /** An empty object matches OnlyY leniently just when y is optional, and strictly never; filled, it always does. */
  lemma {:induction false} MatchesOnlyY(y: TypeSpec, lenient: bool, s: Schema)
    ensures MatchesClass(OnlyY(y), lenient, Object([], map[])) <==> lenient && y.typ == TOptional
    ensures MatchesClass(OnlyY(y), lenient, FillClass(s, OnlyY(MAYBE_NULL), Object([], map[])))
  {
    assert Key("y") in OnlyY(y).names;
    assert Key("y") in Optionals(OnlyY(MAYBE_NULL));
  }

  lemma {:induction false} SecondThenFirst(s: Schema, a: Key, b: Key, spec: TypeSpec, n: Node)
    requires IsClass(s, a) && IsClass(s, b)
    requires Resolve(s, a) == OnlyY(Plain(TNull)) && Resolve(s, b) == OnlyY(MAYBE_NULL)
    requires spec == Plain(TUnion).(oneOf := [Some(RefTo(a)), Some(RefTo(b))]) && n == Object([], map[])
    ensures FirstMatch(s, true, spec.oneOf, n) == 1 && FirstMatch(s, false, spec.oneOf, FillType(s, spec, n)) == 0
  {
    MatchesOnlyY(Plain(TNull), true, s);
    MatchesOnlyY(MAYBE_NULL, true, s);
    MatchesOnlyY(Plain(TNull), false, s);
    assert !MatchesVariant(s, true, spec.oneOf[0], n) && MatchesVariant(s, true, spec.oneOf[1], n);
    assert FillType(s, spec.oneOf[1].value, n) == FillClass(s, OnlyY(MAYBE_NULL), n);
    assert MatchesVariant(s, false, spec.oneOf[0], FillType(s, spec, n));
  }

  /** The earlier variant can win: filling in a later variant's optional completes an earlier one. */
  lemma EarlierVariantCanWin() returns (s: Schema, spec: TypeSpec, n: Node)
    ensures ValidSchema(s) && NoBoth(spec) && Valid(n) && spec.typ == TUnion
    ensures Key("u") in s.root.props && s.root.props[Key("u")] == Some(spec)
    ensures FirstMatch(s, true, spec.oneOf, n) == 1 && FirstMatch(s, false, spec.oneOf, FillType(s, spec, n)) == 0
  {
    var a, b := Key("A"), Key("B");
    assert a.text[0] != b.text[0];
    spec := Plain(TUnion).(oneOf := [Some(RefTo(a)), Some(RefTo(b))]);
    var root := Class([Key("u")], map[Key("u") := Some(spec)]);
    s := Schema(root, map[a := OnlyY(Plain(TNull)), b := OnlyY(MAYBE_NULL)], map[]);
    n := Object([], map[]);
    assert ROOT.text[1] == 'a';
    SecondThenFirst(s, a, b, spec, n);
  }

  /** The keys injection adds to the object n itself: the target's optionals, if the target is a class. */
  function Offered(s: Schema, spec: TypeSpec, n: Node): set<Key> {
    var t := Settled(s, true, spec, n);
    if t.ref.Some? && t.typ == Unset && IsClass(s, t.ref.value) then Optionals(Resolve(s, t.ref.value)) else {}
  }

  lemma {:induction false} FillKeys(s: Schema, spec: TypeSpec, n: Node)
    requires n.Object?
    ensures FillType(s, spec, n).Object? && FillType(s, spec, n).byKey.Keys == n.byKey.Keys + Offered(s, spec, n)
    decreases spec
  {
    if spec.ref.Some? && spec.typ == Unset {
    } else {
      match spec.typ
      case TOptional => if spec.inner.Some? { FillKeys(s, spec.inner.value, n); }
      case TUnion =>
        var i := FirstMatch(s, true, spec.oneOf, n);
        if i < |spec.oneOf| { FillKeys(s, spec.oneOf[i].value, n); }
      case TMap => if spec.values.Some? { assert FillType(s, spec, n).byKey.Keys == n.byKey.Keys; }
      case _ =>
    }
  }

  lemma {:induction false} FillKeepsKind(s: Schema, spec: TypeSpec, n: Node)
    requires !n.Object?
    ensures !FillType(s, spec, n).Object?
    decreases spec
  {
    if spec.ref.Some? && spec.typ == Unset {
    } else {
      match spec.typ
      case TOptional => if !n.Null? && spec.inner.Some? { FillKeepsKind(s, spec.inner.value, n); }
      case TUnion =>
        var i := FirstMatch(s, true, spec.oneOf, n);
        if i < |spec.oneOf| { FillKeepsKind(s, spec.oneOf[i].value, n); }
      case _ =>
    }
  }

  /**
    * A spec with a type and a stray class ref: matching reads the ref, injection
    * follows the type. It matches strictly afterwards if and only if each of the
    * class's properties is there already or is an optional of the class that the
    * type leads to.
    */
  lemma {:induction false} StrayRefIff(s: Schema, spec: TypeSpec, n: Node)
    requires spec.ref.Some? && IsClass(s, spec.ref.value) && spec.typ != Unset
    ensures MatchesType(s, false, spec, FillType(s, spec, n)) <==>
            n.Object? && forall k | k in Resolve(s, spec.ref.value).names :: k in n.byKey || k in Offered(s, spec, n)
  {
    if n.Object? {
      FillKeys(s, spec, n);
      assert forall k :: k in FillType(s, spec, n).byKey <==> k in FillType(s, spec, n).byKey.Keys;
    } else {
      FillKeepsKind(s, spec, n);
    }
  }

  /** So the law fails for such a spec, on an object that lacks one of the class's optionals. */
  lemma StrayRefBreaksIt() returns (s: Schema, spec: TypeSpec, n: Node)
    ensures ValidSchema(s) && Valid(n) && !NoBoth(spec)
    ensures MatchesType(s, true, spec, n) && !MatchesType(s, false, spec, FillType(s, spec, n))
  {
    s := Schema(Class([], map[]), map[Key("B") := OnlyY(MAYBE_NULL)], map[]);
    spec := RefTo(Key("B")).(typ := TMap);
    n := Object([], map[]);
    StrayRefIff(s, spec, n);
    MatchesOnlyY(MAYBE_NULL, true, s);
    assert Key("y") in OnlyY(MAYBE_NULL).names;
  }

  // ---------------------------------------------------------------- what is added

  /** Everything new in b is null under a property one class of the schema declares optional. */
  ghost predicate AddedBy(s: Schema, name: Key, a: Node, b: Node)
    requires a.Object? && b.Object?
  {
    IsClass(s, name) && forall k | k in b.byKey && k !in a.byKey ::
      b.byKey[k] == Null && k in Optionals(Resolve(s, name))
  }

  /** b is a with nulls added at declared optional properties, and nothing changed or dropped. */
  ghost predicate OnlyAdds(s: Schema, a: Node, b: Node) {
    match a
    case Array(items) => b.Array? && |items| == |b.items| && forall i | 0 <= i < |items| ::
                           OnlyAdds(s, items[i], b.items[i])
    case Object(keys, byKey) =>
      && b.Object? && byKey.Keys <= b.byKey.Keys
      && (forall k | k in byKey :: OnlyAdds(s, byKey[k], b.byKey[k]))
      && exists name :: AddedBy(s, name, a, b)
    case _ => a == b
  }

  lemma {:induction false} AddsNothing(s: Schema, a: Node)
    ensures OnlyAdds(s, a, a)
  {
    match a
    case Array(items) =>
      forall i | 0 <= i < |items| ensures OnlyAdds(s, items[i], items[i]) { AddsNothing(s, items[i]); }
    case Object(keys, byKey) =>
      forall k | k in byKey ensures OnlyAdds(s, byKey[k], byKey[k]) { AddsNothing(s, byKey[k]); }
      assert AddedBy(s, ROOT, a, a);
    case _ =>
  }

  lemma FilledKeysAre(c: Class, keys: seq<Key>)
    requires ValidClass(c) && NoDup(keys)
    ensures NoDup(FilledKeys(c, keys))
    ensures forall k :: k in FilledKeys(c, keys) <==> k in keys || k in Optionals(c)
  {
    var among := Members(keys) + Optionals(c);
    KeepNoDup(c.names, among);
    DropNoDup(keys, Members(c.names));
    forall k ensures k in Keep(c.names, among) <==> k in c.names && k in among { InKeep(c.names, among, k); }
    forall k ensures k in Drop(keys, Members(c.names)) <==> k in keys && k !in c.names {
      InDrop(keys, Members(c.names), k);
    }
    NoDupAppend(Keep(c.names, among), Drop(keys, Members(c.names)));
  }

  lemma {:induction false} ClassOnlyAdds(s: Schema, name: Key, n: Node)
    requires Valid(n) && ValidSchema(s) && IsClass(s, name)
    ensures OnlyAdds(s, n, FillClass(s, Resolve(s, name), n)) && Valid(FillClass(s, Resolve(s, name), n))
    decreases n, 0
  {
    var c := Resolve(s, name);
    if n.Object? {
      var out := FillClass(s, c, n);
      FilledKeysAre(c, n.keys);
      forall k | k in n.byKey ensures OnlyAdds(s, n.byKey[k], out.byKey[k]) && Valid(out.byKey[k]) {
        if k in c.props && c.props[k].Some? {
          TypeOnlyAdds(s, c.props[k].value, n.byKey[k]);
        } else {
          AddsNothing(s, n.byKey[k]);
        }
      }
      assert AddedBy(s, name, n, out);
    } else {
      AddsNothing(s, n);
    }
  }

  /** Injection only adds nulls at declared optional properties; it never changes or drops a value, and never fails. */
  lemma {:induction false} TypeOnlyAdds(s: Schema, spec: TypeSpec, n: Node)
    requires Valid(n) && ValidSchema(s)
    ensures OnlyAdds(s, n, FillType(s, spec, n)) && Valid(FillType(s, spec, n))
    decreases n, 1, spec
  {
    AddsNothing(s, n);
    if spec.ref.Some? && spec.typ == Unset {
      if IsClass(s, spec.ref.value) { ClassOnlyAdds(s, spec.ref.value, n); }
    } else {
      var out := FillType(s, spec, n);
      match spec.typ
      case TOptional => if !n.Null? && spec.inner.Some? { TypeOnlyAdds(s, spec.inner.value, n); }
      case TList =>
        if n.Array? && spec.items.Some? {
          forall i | 0 <= i < |n.items| ensures OnlyAdds(s, n.items[i], out.items[i]) && Valid(out.items[i]) {
            TypeOnlyAdds(s, spec.items.value, n.items[i]);
          }
        }
      case TMap =>
        if n.Object? && spec.values.Some? {
          forall k | k in n.byKey ensures OnlyAdds(s, n.byKey[k], out.byKey[k]) && Valid(out.byKey[k]) {
            TypeOnlyAdds(s, spec.values.value, n.byKey[k]);
          }
          assert AddedBy(s, ROOT, n, out);
        }
      case TUnion =>
        var i := FirstMatch(s, true, spec.oneOf, n);
        if i < |spec.oneOf| { TypeOnlyAdds(s, spec.oneOf[i].value, n); }
      case _ =>
    }
  }

  // ---------------------------------------------------------------- key order does not matter

  lemma {:induction false} ClassFillIgnoresOrder(s: Schema, c: Class, a: Node, b: Node)
    requires SameValue(a, b)
    ensures SameValue(FillClass(s, c, a), FillClass(s, c, b))
    decreases a, 0
  {
    if a.Object? {
      var x, y := FillClass(s, c, a), FillClass(s, c, b);
      forall k | k in x.byKey ensures SameValue(x.byKey[k], y.byKey[k]) {
        if k in a.byKey && k in c.props && c.props[k].Some? {
          TypeFillIgnoresOrder(s, c.props[k].value, a.byKey[k], b.byKey[k]);
        }
      }
      assert x.byKey.Keys == y.byKey.Keys;
    }
  }

  /** Inputs equal up to key order stay equal up to key order. */
  lemma {:induction false} TypeFillIgnoresOrder(s: Schema, spec: TypeSpec, a: Node, b: Node)
    requires SameValue(a, b)
    ensures SameValue(FillType(s, spec, a), FillType(s, spec, b))
    decreases a, 1, spec
  {
    if spec.ref.Some? && spec.typ == Unset {
      if IsClass(s, spec.ref.value) { ClassFillIgnoresOrder(s, Resolve(s, spec.ref.value), a, b); }
    } else {
      var x, y := FillType(s, spec, a), FillType(s, spec, b);
      match spec.typ
      case TOptional => if !a.Null? && spec.inner.Some? { TypeFillIgnoresOrder(s, spec.inner.value, a, b); }
      case TList =>
        if a.Array? && spec.items.Some? {
          forall i | 0 <= i < |a.items| ensures SameValue(x.items[i], y.items[i]) {
            TypeFillIgnoresOrder(s, spec.items.value, a.items[i], b.items[i]);
          }
        }
      case TMap =>
        if a.Object? && spec.values.Some? {
          forall k | k in a.byKey ensures SameValue(x.byKey[k], y.byKey[k]) {
            TypeFillIgnoresOrder(s, spec.values.value, a.byKey[k], b.byKey[k]);
          }
          assert x.byKey.Keys == y.byKey.Keys;
        }
      case TUnion =>
        FirstMatchIgnoresOrder(s, true, spec.oneOf, a, b);
        var i := FirstMatch(s, true, spec.oneOf, a);
        if i < |spec.oneOf| { TypeFillIgnoresOrder(s, spec.oneOf[i].value, a, b); }
      case _ =>
    }
  }
}
