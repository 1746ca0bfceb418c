/**
  * The canonical encoding behind a trusted configuration's digest, up to the
  * bytes that are hashed, and what two equal encodings have in common.
  */
module TrustedConfig {
  import opened Common
  import opened KeyOrder
  import opened KeySort

  /** A client option: a literal string, or anything else. Strings have one char a byte. */
  datatype Value = Literal(text: string) | NonLiteral

  datatype Client = Client(name: string, provider: string, options: map<Key, Value>)

  datatype Refusal = NoClient | NoProvider | TooManyOptions | NotLiteral(key: Key)

  const DOMAIN := "baml-rest/debaml/config-selector/v1"
  const SENTINEL := "\0credential"
  const MAX_OPTIONS: nat := 16
  const API_KEY := Key("api_key")

  // ---------------------------------------------------------------- the encoding

  /** The low width bytes of n, most significant first. */
  function BigEndian(n: nat, width: nat): (s: string)
    ensures |s| == width
  {
    if width == 0 then "" else BigEndian(n / 256, width - 1) + [(n % 256) as char]
  }

  function Count(n: nat): string {
    BigEndian(n, 8)
  }

  function Field(s: string): string {
    Count(|s|) + s
  }

  /** What an option's value contributes: a credential only that it is there. */
  function Shown(options: map<Key, Value>, k: Key): string {
    if k == API_KEY || k !in options || options[k].NonLiteral? then SENTINEL else options[k].text
  }

  function OptionFields(keys: seq<Key>, options: map<Key, Value>): string {
    if keys == [] then "" else Field(keys[0].text) + (Field(Shown(options, keys[0])) + OptionFields(keys[1..], options))
  }

  function Layout(c: Client, resolved: string, keys: seq<Key>): string {
    Field(DOMAIN)
    + (Field(resolved) + (Field(c.name) + (Field(c.provider) + (Count(|keys|) + OptionFields(keys, c.options)))))
  }

  ghost predicate KeysOf(keys: seq<Key>, c: Client) {
    Sorted(keys) && forall k :: k in keys <==> k in c.options
  }

  /** The bytes fed to the hash. */
  ghost predicate Encodes(c: Client, resolved: string, bytes: string) {
    exists keys :: KeysOf(keys, c) && bytes == Layout(c, resolved, keys)
  }

  predicate AllLiteral(c: Client) {
    forall k | k in c.options :: c.options[k].Literal?
  }

  // ---------------------------------------------------------------- TrustedConfigDigest

  method WriteCount(h: string, n: nat) returns (h2: string)
    ensures h2 == h + Count(n)
  {
    h2 := h + BigEndian(n, 8);
  }

  method WriteField(h: string, s: string) returns (h2: string)
    ensures h2 == h + Field(s)
  {
    h2 := WriteCount(h, |s|);
    h2 := h2 + s;
  }

  /** The option keys in whatever order the map yields them. */
  method CollectKeys(options: map<Key, Value>) returns (keys: seq<Key>)
    ensures NoDup(keys) && forall k :: k in keys <==> k in options
  {
    keys := [];
    var left := options.Keys;
    while left != {}
      invariant NoDup(keys) && left <= options.Keys
      invariant forall k :: k in keys <==> k in options && k !in left
      decreases |left|
    {
      var k :| k in left;
      NoDupSnoc(keys, k);
      keys, left := keys + [k], left - {k};
    }
  }

  method WriteOptions(h: string, keys: seq<Key>, c: Client) returns (r: Result<string, Refusal>)
    requires forall k | k in keys :: k in c.options
    ensures r.Ok? <==> forall k | k in keys :: c.options[k].Literal?
    ensures r.Ok? ==> r.value == h + OptionFields(keys, c.options)
    ensures r.Err? ==> r.error.NotLiteral? && r.error.key in keys && c.options[r.error.key].NonLiteral?
  {
    var out := h;
    var i := 0;
    while i < |keys|
      invariant 0 <= i <= |keys|
      invariant forall k | k in keys[..i] :: k in c.options && c.options[k].Literal?
      invariant out + OptionFields(keys[i..], c.options) == h + OptionFields(keys, c.options)
    {
      var k := keys[i];
      assert k in keys && keys[i..][0] == k && keys[i..][1..] == keys[i + 1..] && keys[..i + 1] == keys[..i] + [k];
      if c.options[k].NonLiteral? { return Err(NotLiteral(k)); }
      OneOption(out, k, Shown(c.options, k), OptionFields(keys[i + 1..], c.options));
      out := WriteField(out, k.text);
      if k == API_KEY {
        out := WriteField(out, SENTINEL);
      } else {
        out := WriteField(out, c.options[k].text);
      }
      i := i + 1;
    }
    assert keys[..i] == keys && keys[i..] == [];
    r := Ok(out);
  }

  lemma OneOption(out: string, k: Key, shown: string, rest: string)
    ensures out + Field(k.text) + Field(shown) + rest == out + (Field(k.text) + (Field(shown) + rest))
  {
  }

  /** The digest up to hashing: the canonical bytes, or why there are none. */
  method Digest(client: Option<Client>, resolved: string) returns (r: Result<string, Refusal>)
    ensures r.Ok? <==>
            client.Some? && resolved != "" && |client.value.options| <= MAX_OPTIONS && AllLiteral(client.value)
    ensures r.Ok? ==> Encodes(client.value, resolved, r.value)
    ensures r == Err(NoClient) <==> client.None?
    ensures r == Err(NoProvider) <==> client.Some? && resolved == ""
    ensures r == Err(TooManyOptions) <==> client.Some? && resolved != "" && |client.value.options| > MAX_OPTIONS
  {
    if client.None? { return Err(NoClient); }
    if resolved == "" { return Err(NoProvider); }
    var c := client.value;
    if |c.options| > MAX_OPTIONS { return Err(TooManyOptions); }
    var found := CollectKeys(c.options);
    var keys := SortKeys(found);
    SortKeysSorts(found);
    var h := WriteField("", DOMAIN);
    h := WriteField(h, resolved);
    h := WriteField(h, c.name);
    h := WriteField(h, c.provider);
    h := WriteCount(h, |keys|);
    Regroup(Field(DOMAIN), Field(resolved), Field(c.name), Field(c.provider), Count(|keys|),
            OptionFields(keys, c.options));
    r := WriteOptions(h, keys, c);
    if r.Ok? { assert KeysOf(keys, c) && r.value == Layout(c, resolved, keys); }
  }

  lemma Regroup(a: string, b: string, c: string, d: string, e: string, f: string)
    ensures "" + a + b + c + d + e + f == a + (b + (c + (d + (e + f))))
  {
    assert d + e + f == d + (e + f);
    assert c + d + e + f == c + (d + (e + f));
    assert b + c + d + e + f == b + (c + (d + (e + f)));
    assert "" + a == a;
  }

  // ---------------------------------------------------------------- equal bytes, same configuration

  function Pow256(width: nat): nat {
    if width == 0 then 1 else 256 * Pow256(width - 1)
  }

  lemma {:induction false} BigEndianInjective(m: nat, n: nat, width: nat)
    requires m < Pow256(width) && n < Pow256(width) && BigEndian(m, width) == BigEndian(n, width)
    ensures m == n
  {
    if width > 0 {
      var a, b := BigEndian(m, width), BigEndian(n, width);
      assert a[..width - 1] == BigEndian(m / 256, width - 1) && b[..width - 1] == BigEndian(n / 256, width - 1);
      assert a[width - 1] == (m % 256) as char && b[width - 1] == (n % 256) as char;
      BigEndianInjective(m / 256, n / 256, width - 1);
    }
  }

  /** A Go string's length is an int. */
  predicate FitsInt(s: string) {
    |s| < TWO64 / 2
  }

  lemma Pow256Of8()
    ensures Pow256(8) == TWO64
  {
    assert Pow256(2) == 0x1_0000;
    assert Pow256(4) == 0x1_0000_0000;
    assert Pow256(6) == 0x1_0000_0000_0000;
  }

  lemma CountInjective(m: nat, n: nat, x: string, y: string)
    requires m < TWO64 && n < TWO64 && Count(m) + x == Count(n) + y
    ensures m == n && x == y
  {
    Pow256Of8();
    assert (Count(m) + x)[..8] == Count(m) && (Count(n) + y)[..8] == Count(n);
    assert (Count(m) + x)[8..] == x && (Count(n) + y)[8..] == y;
    BigEndianInjective(m, n, 8);
  }

  /** A length-prefixed field ends where it says it does. */
  lemma FieldInjective(a: string, b: string, x: string, y: string)
    requires FitsInt(a) && FitsInt(b) && Field(a) + x == Field(b) + y
    ensures a == b && x == y
  {
    assert Field(a) + x == Count(|a|) + (a + x) && Field(b) + y == Count(|b|) + (b + y);
    CountInjective(|a|, |b|, a + x, b + y);
    assert (a + x)[..|a|] == a && (b + y)[..|a|] == b && (a + x)[|a|..] == x && (b + y)[|a|..] == y;
  }

  ghost predicate Sized(c: Client) {
    FitsInt(c.name) && FitsInt(c.provider) && |c.options| < TWO64 && forall k | k in c.options ::
      FitsInt(k.text) && (c.options[k].Literal? ==> FitsInt(c.options[k].text))
  }

  /** The same configuration but for the value of api_key. */
  ghost predicate SameButKey(c: Client, d: Client) {
    && c.name == d.name && c.provider == d.provider && c.options.Keys == d.options.Keys
    && forall k | k in c.options && k != API_KEY :: c.options[k] == d.options[k]
  }

  lemma {:induction false} OptionsInjective(a: seq<Key>, b: seq<Key>, c: Client, d: Client)
    requires |a| == |b| && Sized(c) && Sized(d)
    requires (forall k | k in a :: k in c.options) && (forall k | k in b :: k in d.options)
    requires OptionFields(a, c.options) == OptionFields(b, d.options)
    ensures a == b && forall k | k in a :: Shown(c.options, k) == Shown(d.options, k)
  {
    if a != [] {
      assert a[0] in a && b[0] in b;
      FieldInjective(a[0].text, b[0].text, Field(Shown(c.options, a[0])) + OptionFields(a[1..], c.options),
                     Field(Shown(d.options, b[0])) + OptionFields(b[1..], d.options));
      FieldInjective(Shown(c.options, a[0]), Shown(d.options, b[0]), OptionFields(a[1..], c.options),
                     OptionFields(b[1..], d.options));
      OptionsInjective(a[1..], b[1..], c, d);
      assert a == [a[0]] + a[1..] && b == [b[0]] + b[1..];
    }
  }

  lemma {:induction false} SortedNoDup(s: seq<Key>)
    requires Sorted(s)
    ensures NoDup(s)
  {
    forall i, j | 0 <= i < j < |s| ensures s[i] != s[j] { BeforeTotal(s[i].text, s[j].text); }
  }

  lemma KeyCount(keys: seq<Key>, c: Client)
    requires KeysOf(keys, c)
    ensures |keys| == |c.options|
  {
    SortedNoDup(keys);
    CountMembers(keys);
    assert Members(keys) == c.options.Keys;
  }

  lemma LayoutInjective(c: Client, r: string, a: seq<Key>, d: Client, t: string, b: seq<Key>)
    requires Sized(c) && Sized(d) && FitsInt(r) && FitsInt(t) && KeysOf(a, c) && KeysOf(b, d)
    requires Layout(c, r, a) == Layout(d, t, b)
    ensures r == t && c.name == d.name && c.provider == d.provider && a == b && forall k | k in a ::
              Shown(c.options, k) == Shown(d.options, k)
  {
    KeyCount(a, c);
    KeyCount(b, d);
    var x, y := Count(|a|) + OptionFields(a, c.options), Count(|b|) + OptionFields(b, d.options);
    FieldInjective(DOMAIN, DOMAIN, Field(r) + (Field(c.name) + (Field(c.provider) + x)),
                   Field(t) + (Field(d.name) + (Field(d.provider) + y)));
    FieldInjective(r, t, Field(c.name) + (Field(c.provider) + x), Field(d.name) + (Field(d.provider) + y));
    FieldInjective(c.name, d.name, Field(c.provider) + x, Field(d.provider) + y);
    FieldInjective(c.provider, d.provider, x, y);
    CountInjective(|a|, |b|, OptionFields(a, c.options), OptionFields(b, d.options));
    OptionsInjective(a, b, c, d);
  }

  lemma {:induction false} SameFields(keys: seq<Key>, c: Client, d: Client)
    requires forall k | k in keys :: Shown(c.options, k) == Shown(d.options, k)
    ensures OptionFields(keys, c.options) == OptionFields(keys, d.options)
  {
    if keys != [] {
      assert keys[0] in keys;
      SameFields(keys[1..], c, d);
    }
  }

  lemma SameKeysSameBytes(c: Client, a: seq<Key>, d: Client, b: seq<Key>, r: string)
    requires KeysOf(a, c) && KeysOf(b, d) && SameButKey(c, d)
    ensures Layout(c, r, a) == Layout(d, r, b)
  {
    forall k ensures k in a <==> k in b { assert k in a <==> k in c.options.Keys; }
    SortedIsUnique(a, b);
    SameFields(a, c, d);
  }

  lemma SameBytesSameKeys(c: Client, r: string, a: seq<Key>, d: Client, t: string, b: seq<Key>)
    requires Sized(c) && Sized(d) && FitsInt(r) && FitsInt(t) && AllLiteral(c) && AllLiteral(d) && KeysOf(a, c)
             && KeysOf(b, d)
    requires Layout(c, r, a) == Layout(d, t, b)
    ensures r == t && SameButKey(c, d)
  {
    LayoutInjective(c, r, a, d, t, b);
    forall k ensures k in c.options.Keys <==> k in d.options.Keys { assert k in a <==> k in b; }
    forall k | k in c.options && k != API_KEY ensures c.options[k] == d.options[k] { assert k in a; }
  }

  /**
    * Two configurations have the same bytes just when they agree on the resolved
    * provider and on everything else but the value of api_key.
    */
  lemma SameBytesIff(c: Client, r: string, x: string, d: Client, t: string, y: string)
    requires Sized(c) && Sized(d) && FitsInt(r) && FitsInt(t) && AllLiteral(c) && AllLiteral(d)
    requires Encodes(c, r, x) && Encodes(d, t, y)
    ensures x == y <==> r == t && SameButKey(c, d)
  {
    var a :| KeysOf(a, c) && x == Layout(c, r, a);
    var b :| KeysOf(b, d) && y == Layout(d, t, b);
    if x == y { SameBytesSameKeys(c, r, a, d, t, b); }
    if r == t && SameButKey(c, d) { SameKeysSameBytes(c, a, d, b, r); }
  }
}
