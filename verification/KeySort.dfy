/** Keys in byte order: sort.Strings, and why its result depends on the set of keys alone. */
module KeySort {
  import opened KeyOrder

  /** A Go string used as a key, one char a byte. */
  datatype Key = Key(text: string)

  /** a comes strictly before b, character by character. */
  predicate Before(a: string, b: string) {
    b != [] && (a == [] || a[0] < b[0] || (a[0] == b[0] && Before(a[1..], b[1..])))
  }

  lemma {:induction false} BeforeTrans(a: string, b: string, c: string)
    requires Before(a, b) && Before(b, c)
    ensures Before(a, c)
  {
    if a != [] && a[0] == b[0] == c[0] { BeforeTrans(a[1..], b[1..], c[1..]); }
  }

  lemma {:induction false} BeforeTotal(a: string, b: string)
    ensures Before(a, b) || Before(b, a) || a == b
    ensures !(Before(a, b) && Before(b, a)) && !Before(a, a)
  {
    if a != [] && b != [] {
      BeforeTotal(a[1..], b[1..]);
      assert a == [a[0]] + a[1..] && b == [b[0]] + b[1..];
      BeforeTotal(a[1..], a[1..]);
    } else if a != [] {
      BeforeTotal(a[1..], a[1..]);
    }
  }

  predicate Ahead(a: Key, b: Key) {
    Before(a.text, b.text)
  }

  ghost predicate Sorted(s: seq<Key>) {
    forall i, j | 0 <= i < j < |s| :: Ahead(s[i], s[j])
  }

  /** sort.Strings on distinct keys. */
  function Insert(k: Key, s: seq<Key>): seq<Key> {
    if s == [] then [k]
    else if Ahead(k, s[0]) then [k] + s
    else [s[0]] + Insert(k, s[1..])
  }

  function SortKeys(s: seq<Key>): seq<Key> {
    if s == [] then [] else Insert(s[0], SortKeys(s[1..]))
  }

  lemma SortedCons(k: Key, s: seq<Key>)
    requires Sorted(s) && forall x | x in s :: Ahead(k, x)
    ensures Sorted([k] + s)
  {
  }

  lemma {:induction false} InsertSorts(k: Key, s: seq<Key>)
    requires Sorted(s) && k !in s
    ensures Sorted(Insert(k, s)) && forall x :: x in Insert(k, s) <==> x == k || x in s
  {
    if s != [] {
      BeforeTotal(k.text, s[0].text);
      if Ahead(k, s[0]) {
        forall x | x in s ensures Ahead(k, x) { if x != s[0] { BeforeTrans(k.text, s[0].text, x.text); } }
        SortedCons(k, s);
      } else {
        InsertSorts(k, s[1..]);
        assert s[0] in s;
        SortedCons(s[0], Insert(k, s[1..]));
        assert s == [s[0]] + s[1..];
      }
    }
  }

  lemma {:induction false} SortKeysSorts(s: seq<Key>)
    requires NoDup(s)
    ensures Sorted(SortKeys(s)) && forall x :: x in SortKeys(s) <==> x in s
  {
    if s != [] {
      SortKeysSorts(s[1..]);
      InsertSorts(s[0], SortKeys(s[1..]));
      assert s == [s[0]] + s[1..];
    }
  }

  /** A strictly sorted sequence is determined by its elements. */
  lemma {:induction false} SortedIsUnique(a: seq<Key>, b: seq<Key>)
    requires Sorted(a) && Sorted(b) && forall x :: x in a <==> x in b
    ensures a == b
  {
    NonEmpty(a, b);
    NonEmpty(b, a);
    if a != [] {
      assert a[0] in b && b[0] in a;
      FirstIsLeast(a, b[0]);
      FirstIsLeast(b, a[0]);
      BeforeTotal(a[0].text, b[0].text);
      assert a == [a[0]] + a[1..] && b == [b[0]] + b[1..];
      forall x ensures x in a[1..] <==> x in b[1..] {
        NotTwice(a, x);
        NotTwice(b, x);
      }
      SortedIsUnique(a[1..], b[1..]);
    }
  }

  lemma NonEmpty(a: seq<Key>, b: seq<Key>)
    requires forall x | x in a :: x in b
    ensures a != [] ==> b != []
  {
    if a != [] { assert a[0] in a; }
  }

  lemma FirstIsLeast(s: seq<Key>, x: Key)
    requires Sorted(s) && x in s
    ensures s[0] == x || Ahead(s[0], x)
  {
  }

  lemma NotTwice(s: seq<Key>, x: Key)
    requires Sorted(s) && s != []
    ensures x in s[1..] <==> x in s && x != s[0]
  {
    BeforeTotal(x.text, x.text);
    assert s == [s[0]] + s[1..];
  }
}
