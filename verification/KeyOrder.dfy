/** Key sequences: filtering in order, and the arrangement the schema asks for. */
module KeyOrder {

  ghost predicate NoDup<T>(s: seq<T>) {
    forall i, j | 0 <= i < j < |s| :: s[i] != s[j]
  }

  function Members<T>(s: seq<T>): set<T> {
    set k | k in s
  }

  /** The elements that are among a set, in their own order. */
  function Keep<T>(s: seq<T>, among: set<T>): seq<T> {
    if s == [] then []
    else
      var r := Keep(s[..|s| - 1], among);
      if s[|s| - 1] in among then r + [s[|s| - 1]] else r
  }

  /** The elements that are not among a set, in their own order. */
  function Drop<T>(s: seq<T>, out: set<T>): seq<T> {
    if s == [] then []
    else
      var r := Drop(s[..|s| - 1], out);
      if s[|s| - 1] in out then r else r + [s[|s| - 1]]
  }

  /** Declared names that are present, in schema order, then the other keys in input order. */
  function Arrange<T(==)>(names: seq<T>, keys: seq<T>): seq<T> {
    Keep(names, Members(keys)) + Drop(keys, Members(names))
  }

  lemma {:induction false} InKeep<T>(s: seq<T>, among: set<T>, k: T)
    ensures k in Keep(s, among) <==> k in s && k in among
  {
    if s != [] {
      InKeep(s[..|s| - 1], among, k);
      assert s == s[..|s| - 1] + [s[|s| - 1]];
    }
  }

  lemma {:induction false} InDrop<T>(s: seq<T>, out: set<T>, k: T)
    ensures k in Drop(s, out) <==> k in s && k !in out
  {
    if s != [] {
      InDrop(s[..|s| - 1], out, k);
      assert s == s[..|s| - 1] + [s[|s| - 1]];
    }
  }

  lemma NoDupSnoc<T>(s: seq<T>, x: T)
    requires NoDup(s) && x !in s
    ensures NoDup(s + [x])
  {
  }

  lemma NoDupAppend<T>(a: seq<T>, b: seq<T>)
    requires NoDup(a) && NoDup(b) && forall k | k in a :: k !in b
    ensures NoDup(a + b)
  {
    forall i, j | 0 <= i < j < |a + b| ensures (a + b)[i] != (a + b)[j] {
      if i < |a| <= j { assert a[i] in a && b[j - |a|] in b; }
    }
  }

  lemma {:induction false} KeepNoDup<T>(s: seq<T>, among: set<T>)
    requires NoDup(s)
    ensures NoDup(Keep(s, among))
  {
    if s != [] {
      KeepNoDup(s[..|s| - 1], among);
      InKeep(s[..|s| - 1], among, s[|s| - 1]);
      if s[|s| - 1] in among { NoDupSnoc(Keep(s[..|s| - 1], among), s[|s| - 1]); }
    }
  }

  lemma {:induction false} DropNoDup<T>(s: seq<T>, out: set<T>)
    requires NoDup(s)
    ensures NoDup(Drop(s, out))
  {
    if s != [] {
      DropNoDup(s[..|s| - 1], out);
      InDrop(s[..|s| - 1], out, s[|s| - 1]);
      if s[|s| - 1] !in out { NoDupSnoc(Drop(s[..|s| - 1], out), s[|s| - 1]); }
    }
  }

  /** Arranging permutes the keys. */
  lemma ArrangePermutes<T>(names: seq<T>, keys: seq<T>)
    requires NoDup(names) && NoDup(keys)
    ensures NoDup(Arrange(names, keys))
    ensures forall k :: k in Arrange(names, keys) <==> k in keys
  {
    var first, rest := Keep(names, Members(keys)), Drop(keys, Members(names));
    KeepNoDup(names, Members(keys));
    DropNoDup(keys, Members(names));
    forall k | k in first ensures k in names && k in keys && k !in rest {
      InKeep(names, Members(keys), k);
      InDrop(keys, Members(names), k);
    }
    forall k | k in rest ensures k in keys { InDrop(keys, Members(names), k); }
    forall k | k in keys ensures k in first + rest { InKeep(names, Members(keys), k); InDrop(keys, Members(names), k); }
    NoDupAppend(first, rest);
  }

  // ---------------------------------------------------------------- order by positions

  /** x stands somewhere before y. */
  ghost predicate Before<T>(s: seq<T>, x: T, y: T) {
    exists p, q | 0 <= p < q < |s| :: s[p] == x && s[q] == y
  }

  /** Declared names come before all others and in schema order; the others keep their input order. */
  ghost predicate Precedes<T>(names: seq<T>, keys: seq<T>, x: T, y: T) {
    if y in names then Before(names, x, y) else x in names || Before(keys, x, y)
  }

  ghost predicate InOrder<T>(names: seq<T>, keys: seq<T>, out: seq<T>) {
    forall i, j | 0 <= i < j < |out| :: Precedes(names, keys, out[i], out[j])
  }

  lemma BeforeSnoc<T>(s: seq<T>, x: T, y: T)
    requires s != [] && (Before(s[..|s| - 1], x, y) || (x in s[..|s| - 1] && y == s[|s| - 1]))
    ensures Before(s, x, y)
  {
    var init := s[..|s| - 1];
    if Before(init, x, y) {
      var p, q :| 0 <= p < q < |init| && init[p] == x && init[q] == y;
      assert s[p] == x && s[q] == y;
    } else {
      var p :| 0 <= p < |init| && init[p] == x;
      assert s[p] == x && s[|s| - 1] == y;
    }
  }

  lemma {:induction false} KeepInOrder<T>(s: seq<T>, among: set<T>, i: nat, j: nat)
    requires i < j < |Keep(s, among)|
    ensures Before(s, Keep(s, among)[i], Keep(s, among)[j])
  {
    var before := Keep(s[..|s| - 1], among);
    if j < |before| {
      KeepInOrder(s[..|s| - 1], among, i, j);
    } else {
      assert before[i] in before;
      InKeep(s[..|s| - 1], among, before[i]);
    }
    BeforeSnoc(s, Keep(s, among)[i], Keep(s, among)[j]);
  }

  lemma {:induction false} DropInOrder<T>(s: seq<T>, out: set<T>, i: nat, j: nat)
    requires i < j < |Drop(s, out)|
    ensures Before(s, Drop(s, out)[i], Drop(s, out)[j])
  {
    var before := Drop(s[..|s| - 1], out);
    if j < |before| {
      DropInOrder(s[..|s| - 1], out, i, j);
    } else {
      assert before[i] in before;
      InDrop(s[..|s| - 1], out, before[i]);
    }
    BeforeSnoc(s, Drop(s, out)[i], Drop(s, out)[j]);
  }

  /** Names of a set in schema order, then the undeclared keys in input order. */
  lemma {:induction false} DeclaredFirst<T>(names: seq<T>, among: set<T>, keys: seq<T>)
    ensures InOrder(names, keys, Keep(names, among) + Drop(keys, Members(names)))
  {
    var first, rest := Keep(names, among), Drop(keys, Members(names));
    var out := first + rest;
    forall i, j | 0 <= i < j < |out| ensures Precedes(names, keys, out[i], out[j]) {
      if i < |first| {
        assert out[i] in first;
        InKeep(names, among, out[i]);
      }
      if j < |first| {
        assert out[j] in first;
        InKeep(names, among, out[j]);
        KeepInOrder(names, among, i, j);
      } else {
        assert out[j] == rest[j - |first|] && out[j] in rest;
        InDrop(keys, Members(names), out[j]);
        if i >= |first| { DropInOrder(keys, Members(names), i - |first|, j - |first|); }
      }
    }
  }

  lemma {:induction false} DropAppend<T>(a: seq<T>, b: seq<T>, out: set<T>)
    ensures Drop(a + b, out) == Drop(a, out) + Drop(b, out)
  {
    if b == [] {
      assert a + b == a;
    } else {
      DropAppend(a, b[..|b| - 1], out);
      assert (a + b)[..|a + b| - 1] == a + b[..|b| - 1];
    }
  }

  lemma {:induction false} DropNone<T>(s: seq<T>, out: set<T>)
    requires forall k | k in s :: k !in out
    ensures Drop(s, out) == s
  {
    if s != [] {
      assert s[|s| - 1] in s;
      DropNone(s[..|s| - 1], out);
      assert s == s[..|s| - 1] + [s[|s| - 1]];
    }
  }

  lemma {:induction false} DropAll<T>(s: seq<T>, out: set<T>)
    requires forall k | k in s :: k in out
    ensures Drop(s, out) == []
  {
    if s != [] {
      assert s[|s| - 1] in s;
      DropAll(s[..|s| - 1], out);
    }
  }

  lemma {:induction false} SameKeep<T>(s: seq<T>, a: set<T>, b: set<T>)
    requires forall k | k in s :: k in a <==> k in b
    ensures Keep(s, a) == Keep(s, b)
  {
    if s != [] {
      assert s[|s| - 1] in s;
      SameKeep(s[..|s| - 1], a, b);
    }
  }

  /** Arranged keys stay as they are. */
  lemma ArrangeTwice<T>(names: seq<T>, keys: seq<T>)
    requires NoDup(names) && NoDup(keys)
    ensures Arrange(names, Arrange(names, keys)) == Arrange(names, keys)
  {
    var first, rest := Keep(names, Members(keys)), Drop(keys, Members(names));
    forall k | k in first ensures k in Members(names) { InKeep(names, Members(keys), k); }
    forall k | k in rest ensures k !in Members(names) { InDrop(keys, Members(names), k); }
    DropAppend(first, rest, Members(names));
    DropAll(first, Members(names));
    DropNone(rest, Members(names));
    ArrangePermutes(names, keys);
    SameKeep(names, Members(keys), Members(Arrange(names, keys)));
  }

  lemma {:induction false} KeepStep<T>(s: seq<T>, i: nat, among: set<T>)
    requires i < |s|
    ensures Keep(s[..i + 1], among) == if s[i] in among then Keep(s[..i], among) + [s[i]] else Keep(s[..i], among)
  {
    assert s[..i + 1][..i] == s[..i];
  }

  lemma {:induction false} DropStep<T>(s: seq<T>, i: nat, out: set<T>)
    requires i < |s|
    ensures Drop(s[..i + 1], out) == if s[i] in out then Drop(s[..i], out) else Drop(s[..i], out) + [s[i]]
  {
    assert s[..i + 1][..i] == s[..i];
  }

  lemma MembersStep<T>(s: seq<T>, i: nat)
    requires i < |s|
    ensures Members(s[..i + 1]) == Members(s[..i]) + {s[i]} && s[i] in s
  {
    assert s[..i + 1] == s[..i] + [s[i]];
  }

  lemma {:induction false} CountMembers<T>(s: seq<T>)
    requires NoDup(s)
    ensures |Members(s)| == |s|
  {
    if s != [] {
      var init, x := s[..|s| - 1], s[|s| - 1];
      CountMembers(init);
      assert s == init + [x];
      assert Members(s) == Members(init) + {x};
    }
  }

  /**
    * A class walk's second loop: keys the class does not declare follow in input order, with their
    * values as they are.
    */
  method AppendExtras<K(==), V>(inKeys: seq<K>, inByKey: map<K, V>, declared: set<K>, keys: seq<K>, byKey: map<K, V>)
    returns (outKeys: seq<K>, outByKey: map<K, V>)
    requires Members(inKeys) == inByKey.Keys
    ensures outKeys == keys + Drop(inKeys, declared)
    ensures outByKey.Keys == byKey.Keys + (inByKey.Keys - declared)
    ensures forall k | k in outByKey :: outByKey[k] == if k in inByKey && k !in declared then inByKey[k] else byKey[k]
  {
    outKeys, outByKey := keys, byKey;
    var i := 0;
    ghost var seen: set<K> := {};
    while i < |inKeys|
      invariant 0 <= i <= |inKeys| && seen == Members(inKeys[..i])
      invariant outKeys == keys + Drop(inKeys[..i], declared)
      invariant outByKey.Keys == byKey.Keys + (seen - declared)
      invariant forall k | k in outByKey ::
                  if k in seen && k !in declared
                  then k in inByKey && outByKey[k] == inByKey[k]
                  else k in byKey && outByKey[k] == byKey[k]
    {
      var k := inKeys[i];
      DropStep(inKeys, i, declared);
      MembersStep(inKeys, i);
      seen := seen + {k};
      if k !in declared {
        assert k in Members(inKeys);
        outKeys, outByKey := outKeys + [k], outByKey[k := inByKey[k]];
      }
      i := i + 1;
    }
    assert inKeys[..i] == inKeys;
  }
}
