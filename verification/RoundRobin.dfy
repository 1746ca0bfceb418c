/**
  * Fairness of the rotation (worker/sharedstate.go:67, remote_advancer.go:86):
  * a request's child is the value FetchAdd gave it, modulo the child count.
  */
module RoundRobin {
  import opened Common
  import opened SharedStore
  import Counters = SharedStoreCounters

  datatype AdvanceError = NoStore

  /** Advance: the child for a request whose FetchAdd returned previous (None: no store attached). */
  function Advance(previous: Option<u64>, childCount: int): (r: Result<int, AdvanceError>)
    ensures r.Ok? ==> 0 <= r.value && (childCount > 0 ==> r.value < childCount)
    ensures r.Err? <==> childCount > 0 && previous.None?
  {
    if childCount <= 0 then Ok(0)
    else if previous.None? then Err(NoStore)
    else Ok(previous.value % childCount)
  }

  /** The children of len consecutive advances of a counter that has been advanced to start. */
  ghost function Picks(start: nat, len: nat, n: nat): (p: seq<nat>)
    requires n > 0
    ensures |p| == len
  {
    seq(len, j => (start + j) % TWO64 % n)
  }

  ghost function Count(p: seq<nat>, c: nat): nat {
    if p == [] then 0 else Count(p[..|p| - 1], c) + (if p[|p| - 1] == c then 1 else 0)
  }

  /** No child was picked two times more often than another. */
  ghost predicate Fair(p: seq<nat>, n: nat) {
    forall c, d | 0 <= c < n && 0 <= d < n :: Count(p, c) <= Count(p, d) + 1
  }

  lemma AtLeastFactor(k: int, n: nat)
    requires k >= 1
    ensures k * n >= n
  {
    assert k * n == (k - 1) * n + n;
  }

  lemma ModUnique(x: int, n: nat, q: int, r: nat)
    requires n > 0 && r < n && x == q * n + r
    ensures x % n == r && x / n == q
  {
    var q2, r2 := x / n, x % n;
    assert x == q2 * n + r2;
    assert (q - q2) * n == q * n - q2 * n;
    assert (q2 - q) * n == q2 * n - q * n;
    if q > q2 { AtLeastFactor(q - q2, n); }
    if q < q2 { AtLeastFactor(q2 - q, n); }
  }

  /** How far behind start child c comes up: the rotation reaches it at that offset. */
  lemma OffsetOf(start: nat, j: nat, n: nat, c: nat)
    requires n > 0 && c < n
    ensures (start + j) % n == c <==> (c - start) % n == j % n
  {
    if (start + j) % n == c {
      var q := (start + j) / n;
      ModUnique(c - start, n, j / n - q, j % n) by {
        assert start + j == q * n + c && j == j / n * n + j % n;
        assert c - start == (j / n - q) * n + j % n;
      }
    }
    if (c - start) % n == j % n {
      var q := (c - start) / n;
      ModUnique(start + j, n, j / n - q, c) by {
        assert c - start == q * n + j % n && j == j / n * n + j % n;
        assert start + j == (j / n - q) * n + c;
      }
    }
  }

  ghost predicate Plain(p: seq<nat>, start: nat, n: nat)
    requires n > 0
  {
    forall j | 0 <= j < |p| :: p[j] == (start + j) % n
  }

  lemma NextLap(len: nat, n: nat)
    requires n > 0
    ensures if len % n + 1 < n then (len + 1) % n == len % n + 1 && (len + 1) / n == len / n
            else (len + 1) % n == 0 && (len + 1) / n == len / n + 1
  {
    assert len == len / n * n + len % n;
    if len % n + 1 < n { ModUnique(len + 1, n, len / n, len % n + 1); }
    else {
      assert len + 1 == (len / n + 1) * n + 0;
      ModUnique(len + 1, n, len / n + 1, 0);
    }
  }

  /** In an unwrapped rotation child c is picked once a lap, and once more in the last, partial lap. */
  lemma {:induction false} PlainCount(p: seq<nat>, start: nat, n: nat, c: nat)
    requires n > 0 && c < n && Plain(p, start, n)
    ensures Count(p, c) == |p| / n + (if (c - start) % n < |p| % n then 1 else 0)
  {
    if p == [] {
      ModUnique(0, n, 0, 0);
    } else {
      var len := |p| - 1;
      PlainCount(p[..len], start, n, c);
      OffsetOf(start, len, n, c);
      NextLap(len, n);
    }
  }

  lemma PlainIsFair(p: seq<nat>, start: nat, n: nat)
    requires n > 0 && Plain(p, start, n)
    ensures Fair(p, n)
  {
    forall c, d | 0 <= c < n && 0 <= d < n ensures Count(p, c) <= Count(p, d) + 1 {
      PlainCount(p, start, n, c);
      PlainCount(p, start, n, d);
    }
  }

  /** A window of advances that does not cross 2^64 is fair. */
  lemma WindowIsFair(start: nat, len: nat, n: nat)
    requires n > 0 && start % TWO64 + len <= TWO64
    ensures Fair(Picks(start, len, n), n)
  {
    var p, s := Picks(start, len, n), start % TWO64;
    forall j | 0 <= j < len ensures p[j] == (s + j) % n {
      assert start + j == start / TWO64 * TWO64 + (s + j);
      ModUnique(start + j, TWO64, start / TWO64, s + j);
    }
    PlainIsFair(p, s, n);
  }

  lemma ModOfMod(x: nat, n: nat)
    requires n > 0 && TWO64 % n == 0
    ensures x % TWO64 % n == x % n
  {
    var k, q, v := TWO64 / n, x / TWO64, x % TWO64;
    assert TWO64 == k * n;
    assert x == q * TWO64 + v;
    assert q * TWO64 == q * (k * n) == (q * k) * n;
    var v0, v1 := v / n, v % n;
    assert v == v0 * n + v1;
    assert x == (q * k + v0) * n + v1;
    ModUnique(x, n, q * k + v0, v1);
  }

  /** The last value before the wrap, then the first ones after it. */
  lemma WrapWindow(n: nat, r: nat)
    requires n > 0 && r == TWO64 % n && r > 0
    ensures var p := Picks(TWO64 - 1, r + 1, n); p[0] == r - 1 && forall j | 0 < j <= r :: p[j] == j - 1
  {
    var p, q := Picks(TWO64 - 1, r + 1, n), TWO64 / n;
    assert TWO64 == q * n + r;
    ModUnique(TWO64 - 1, n, q, r - 1);
    forall j | 0 < j <= r ensures p[j] == j - 1 { AfterWrap(n, j, r); }
  }

  lemma AfterWrap(n: nat, j: nat, r: nat)
    requires n > 0 && r == TWO64 % n && 0 < j <= r
    ensures (TWO64 - 1 + j) % TWO64 % n == j - 1
  {
    assert TWO64 == TWO64 / n * n + r;
    ModUnique(TWO64 - 1 + j, TWO64, 1, j - 1);
    ModUnique(j - 1, n, 0, j - 1);
  }

  /** If the child count does not divide 2^64, the window across the wrap is unfair. */
  lemma WrapIsUnfair(n: nat)
    requires n > 0 && TWO64 % n != 0
    ensures !Fair(Picks(TWO64 - 1, TWO64 % n + 1, n), n)
  {
    var r := TWO64 % n;
    var p := Picks(TWO64 - 1, r + 1, n);
    WrapWindow(n, r);
    NeverCounted(p, r);
    FirstAndLast(p, r - 1);
  }

  lemma {:induction false} NeverCounted(p: seq<nat>, c: nat)
    requires forall j | 0 <= j < |p| :: p[j] != c
    ensures Count(p, c) == 0
  {
    if p != [] { NeverCounted(p[..|p| - 1], c); }
  }

  lemma {:induction false} AtLeastOnce(p: seq<nat>, c: nat, i: nat)
    requires i < |p| && p[i] == c
    ensures Count(p, c) >= 1
  {
    if i < |p| - 1 { AtLeastOnce(p[..|p| - 1], c, i); }
  }

  lemma {:induction false} FirstAndLast(p: seq<nat>, c: nat)
    requires |p| >= 2 && p[0] == c && p[|p| - 1] == c
    ensures Count(p, c) >= 2
  {
    AtLeastOnce(p[..|p| - 1], c, 0);
  }

  /** Every window is fair exactly when the child count divides 2^64. */
  lemma AlwaysFairIff(n: nat)
    requires n > 0
    ensures (forall start: nat, len: nat :: Fair(Picks(start, len, n), n)) <==> TWO64 % n == 0
  {
    if TWO64 % n == 0 {
      forall start: nat, len: nat ensures Fair(Picks(start, len, n), n) {
        forall j | 0 <= j < len ensures Picks(start, len, n)[j] == (start + j) % n { ModOfMod(start + j, n); }
        PlainIsFair(Picks(start, len, n), start, n);
      }
    } else {
      WrapIsUnfair(n);
    }
  }

  // ---------------------------------------------------------------- rotation of a run

  /** The values handed out for key, in the order the counter was advanced. */
  ghost function Values(log: seq<Advance>, key: Name): seq<u64> {
    if log == [] then []
    else Values(log[..|log| - 1], key) + (if log[|log| - 1].key == key then [log[|log| - 1].previous] else [])
  }

  /** Every addition to key is of one. */
  ghost predicate UnitDeltas(log: seq<Advance>, key: Name) {
    forall i | 0 <= i < |log| && log[i].key == key :: log[i].delta == 1
  }

  lemma {:induction false} ValuesCountUp(log: seq<Advance>, key: Name, born: nat)
    requires UnitDeltas(log, key)
    requires forall i | 0 <= i < |log| && log[i].key == key ::
               log[i].previous == (born + Counters.Total(log[..i], key)) % TWO64
    ensures |Values(log, key)| == Counters.Total(log, key)
    ensures forall j | 0 <= j < |Values(log, key)| :: Values(log, key)[j] == (born + j) % TWO64
  {
    if log != [] {
      var rest := log[..|log| - 1];
      forall i | 0 <= i < |rest| && rest[i].key == key
        ensures rest[i].previous == (born + Counters.Total(rest[..i], key)) % TWO64
      {
        assert rest[..i] == log[..i];
      }
      ValuesCountUp(rest, key, born);
    }
  }

  /** The children of the advances lo, ..., hi - 1 of key. */
  ghost function Children(log: seq<Advance>, key: Name, lo: nat, hi: nat, n: nat): (p: seq<nat>)
    requires n > 0 && lo <= hi <= |Values(log, key)|
    ensures |p| == hi - lo
  {
    seq(hi - lo, j requires 0 <= j < hi - lo => Values(log, key)[lo + j] % n)
  }

  lemma {:induction false} ChildrenArePicks(log: seq<Advance>, key: Name, born: nat, lo: nat, hi: nat, n: nat)
    requires UnitDeltas(log, key) && n > 0 && lo <= hi <= |Values(log, key)|
    requires forall i | 0 <= i < |log| && log[i].key == key ::
               log[i].previous == (born + Counters.Total(log[..i], key)) % TWO64
    ensures Children(log, key, lo, hi, n) == Picks(born + lo, hi - lo, n)
  {
    ValuesCountUp(log, key, born);
  }

  /** Every call on key asks for a delta of one, as both advancers do. */
  ghost predicate UnitCalls(b: Books, key: Name) {
    forall id | id in b.calls && b.calls[id].key == key :: b.calls[id].delta == 1
  }

  /** What the store's invariant says of one key. */
  lemma {:induction false} GivenInOrder(s: State, key: Name)
    requires Counters.CounterInv(s) && key in s.books.born
    ensures forall i | 0 <= i < |s.books.log| && s.books.log[i].key == key ::
              s.books.log[i].previous == (s.books.born[key] + Counters.Total(s.books.log[..i], key)) % TWO64
    ensures UnitCalls(s.books, key) ==> UnitDeltas(s.books.log, key)
  {
    var b := s.books;
    forall i: nat | i < |b.log| && b.log[i].key == key
      ensures b.log[i].previous == (b.born[key] + Counters.Total(b.log[..i], key)) % TWO64
      ensures UnitCalls(b, key) ==> b.log[i].delta == 1
    {
      assert Counters.LogOk(b, i);
    }
  }

  // ---------------------------------------------------------------- what a request gets

  /** The addition a call stands for: its entry's, or its own. */
  ghost function SourceOf(b: Books, id: nat): Source {
    if id in b.regs then OfEntry(b.regs[id]) else OfCall(id)
  }

  /** Which advance of its key a finished call stands for. */
  ghost function TurnOf(b: Books, id: nat): nat
    requires id in b.calls && SourceOf(b, id) in b.firedAt && b.firedAt[SourceOf(b, id)] <= |b.log|
  {
    |Values(b.log[..b.firedAt[SourceOf(b, id)]], b.calls[id].key)|
  }

  lemma {:induction false} ValueAt(log: seq<Advance>, key: Name, i: nat)
    requires i < |log| && log[i].key == key
    ensures |Values(log[..i], key)| < |Values(log, key)| && Values(log, key)[|Values(log[..i], key)|] == log[i].previous
  {
    if i == |log| - 1 {
    } else {
      var rest := log[..|log| - 1];
      assert rest[..i] == log[..i];
      ValueAt(rest, key, i);
    }
  }

  /** A finished call was given the value of the addition it stands for, which is one of its key. */
  ghost predicate Served(b: Books, id: nat) {
    && id in b.results && id in b.calls && SourceOf(b, id) in b.firedAt && b.firedAt[SourceOf(b, id)] < |b.log|
    && b.log[b.firedAt[SourceOf(b, id)]].key == b.calls[id].key
    && b.log[b.firedAt[SourceOf(b, id)]].previous == b.results[id]
  }

  lemma FinishedIsServed(s: State, id: nat)
    requires Counters.CounterInv(s) && id in s.books.results
    ensures Served(s.books, id)
  {
    var b := s.books;
    assert Counters.ResultOk(b, id) && Counters.RegOk(b, id);
    if id in b.regs { assert Counters.EntryOk(b, s.threads, b.regs[id]); }
    assert Counters.FiredOk(b, SourceOf(b, id));
    assert Counters.LogOk(b, b.firedAt[SourceOf(b, id)]);
  }

  lemma ServedGetsItsTurn(b: Books, id: nat, lo: nat, hi: nat, n: nat)
    requires Served(b, id) && n > 0 && lo <= hi <= |Values(b.log, b.calls[id].key)| && lo <= TurnOf(b, id) < hi
    ensures Advance(Some(b.results[id]), n) == Ok(Children(b.log, b.calls[id].key, lo, hi, n)[TurnOf(b, id) - lo])
  {
    ValueAt(b.log, b.calls[id].key, b.firedAt[SourceOf(b, id)]);
  }

  /** Every finished call on key has a turn, and in a window its child is the one that turn picks. */
  ghost predicate PicksItsTurn(b: Books, id: nat, key: Name, lo: nat, hi: nat, n: nat)
    requires n > 0 && lo <= hi <= |Values(b.log, key)|
  {
    && Served(b, id) && TurnOf(b, id) < |Values(b.log, key)|
    && (lo <= TurnOf(b, id) < hi ==>
          Advance(Some(b.results[id]), n) == Ok(Children(b.log, key, lo, hi, n)[TurnOf(b, id) - lo]))
  }

  /**
    * In every run in which calls on key ask for one, over any window of
    * consecutive advances of key that does not cross 2^64, and over any window
    * at all if n divides 2^64, no child is picked two times more often than
    * another; and every finished call, retries included, gets the child of the
    * advance it stands for.
    */
  lemma {:induction false} RotationIsFair(r: seq<State>, acts: seq<Action>, m: nat, key: Name, lo: nat, hi: nat, n: nat)
    requires IsRun(r, acts) && m < |r| && key in r[m].books.born && UnitCalls(r[m].books, key)
    requires n > 0 && lo <= hi <= |Values(r[m].books.log, key)|
    requires (r[m].books.born[key] + lo) % TWO64 + (hi - lo) <= TWO64 || TWO64 % n == 0
    ensures Fair(Children(r[m].books.log, key, lo, hi, n), n)
    ensures forall id | id in r[m].books.results && id in r[m].books.calls && r[m].books.calls[id].key == key ::
              PicksItsTurn(r[m].books, id, key, lo, hi, n)
  {
    Counters.RunKeeps(r, acts, m);
    GivenInOrder(r[m], key);
    ChildrenArePicks(r[m].books.log, key, r[m].books.born[key], lo, hi, n);
    if TWO64 % n == 0 { AlwaysFairIff(n); } else { WindowIsFair(r[m].books.born[key] + lo, hi - lo, n); }
    forall id | id in r[m].books.results && id in r[m].books.calls && r[m].books.calls[id].key == key
      ensures PicksItsTurn(r[m].books, id, key, lo, hi, n)
    {
      FinishedIsServed(r[m], id);
      HasATurn(r[m].books, id, lo, hi, n);
    }
  }

  lemma HasATurn(b: Books, id: nat, lo: nat, hi: nat, n: nat)
    requires Served(b, id) && n > 0 && lo <= hi <= |Values(b.log, b.calls[id].key)|
    ensures PicksItsTurn(b, id, b.calls[id].key, lo, hi, n)
  {
    ValueAt(b.log, b.calls[id].key, b.firedAt[SourceOf(b, id)]);
    if lo <= TurnOf(b, id) < hi { ServedGetsItsTurn(b, id, lo, hi, n); }
  }

  /** Retries do not disturb the rotation: two calls of one entry stand for the same advance and get the same child. */
  lemma RetriesShareATurn(r: seq<State>, acts: seq<Action>, p: nat, q: nat, m: nat, a: nat, b: nat, k: IdemKey, n: nat)
    requires IsRun(r, acts) && p <= q < m < |r| && n > 0
    requires Counters.RegisteredIn(r, p, a, k) && Counters.RegisteredIn(r, q, b, k)
    requires forall i | p < i <= q + 1 :: k in r[i].dir.idem
    requires a in r[m].books.results && b in r[m].books.results
    ensures Served(r[m].books, a) && Served(r[m].books, b) && SourceOf(r[m].books, a) == SourceOf(r[m].books, b)
    ensures r[m].books.calls[a].key == r[m].books.calls[b].key && TurnOf(r[m].books, a) == TurnOf(r[m].books, b)
    ensures Advance(Some(r[m].books.results[a]), n) == Advance(Some(r[m].books.results[b]), n)
  {
    Counters.SameEntry(r, acts, p, q, m, a, b, k);
    Counters.RunKeeps(r, acts, m);
    FinishedIsServed(r[m], a);
    FinishedIsServed(r[m], b);
  }

  // ---------------------------------------------------------------- across the wrap

  const CLIENT := Name("client")

  /** After k plain calls on CLIENT by one thread; the counter was published with the last value before the wrap. */
  ghost predicate CalledTimes(s: State, k: nat) {
    && Reach(s) && PcOf(s, 0).Idle? && (forall id | id in s.books.calls :: id < k)
    && (k > 0 ==> CLIENT in s.books.born && s.books.born[CLIENT] == TWO64 - 1)
    && (CLIENT in s.books.counters <==> k > 0)
    && (k > 0 ==> s.books.counters[CLIENT] in s.books.cells) && (k == 0 ==> s.books.cells == map[])
    && UnitCalls(s.books, CLIENT) && |s.books.log| == k && forall i | 0 <= i < k :: s.books.log[i].key == CLIENT
  }

  lemma StepTo(s: State, ch: Choice) returns (s2: State)
    requires Reach(s) && Step(s, 0, ch).Some?
    ensures Reach(s2) && Step(s, 0, ch) == Some(s2)
  {
    ReachNext(s, 0, ch);
    s2 := Step(s, 0, ch).value;
  }

  /** The counter is there, or is published just before the wrap. */
  lemma FindCounter(s: State, c: Call, k: nat) returns (s2: State, cell: Ref)
    requires Reach(s) && PcOf(s, 0) == CounterLoad(c, None) && c.key == CLIENT
    requires (CLIENT in s.books.counters <==> k > 0) && (k == 0 ==> s.books.cells == map[])
    requires k > 0 ==> s.books.counters[CLIENT] in s.books.cells && CLIENT in s.books.born
                       && s.books.born[CLIENT] == TWO64 - 1
    ensures Reach(s2) && PcOf(s2, 0) == CounterAdd(c, None, cell) && cell in s2.books.cells
    ensures CLIENT in s2.books.counters && s2.books.counters[CLIENT] == cell
    ensures CLIENT in s2.books.born && s2.books.born[CLIENT] == TWO64 - 1
    ensures s2.books.calls == s.books.calls && s2.books.log == s.books.log
  {
    s2 := StepTo(s, Go(0, TWO64 - 1, NO_OP));
    if k == 0 { s2 := StepTo(s2, Go(0, TWO64 - 1, NO_OP)); }
    cell := s2.books.counters[CLIENT];
  }

  /** One more call. */
  lemma CallOnceMore(before: State, k: nat) returns (s: State)
    requires CalledTimes(before, k)
    ensures CalledTimes(s, k + 1)
  {
    var c := Call(k, 0, CLIENT, 1, NO_OP, 0);
    var begun := StepTo(before, StartFetchAdd(k, CLIENT, 1, NO_OP, 0));
    var found, cell := FindCounter(begun, c, k);
    s := StepTo(found, Go(0, 0, NO_OP));
  }

  lemma {:induction false} CallsInARow(k: nat) returns (s: State)
    ensures CalledTimes(s, k)
  {
    if k == 0 {
      s := State(EMPTY_DIR, EMPTY_BOOKS, map[]);
      ReachInit(s);
    } else {
      var before := CallsInARow(k - 1);
      s := CallOnceMore(before, k - 1);
    }
  }

  lemma {:induction false} AllItsValues(log: seq<Advance>, key: Name)
    requires forall i | 0 <= i < |log| :: log[i].key == key
    ensures |Values(log, key)| == |log|
  {
    if log != [] { AllItsValues(log[..|log| - 1], key); }
  }

  /** If the child count does not divide 2^64, some run of plain calls is unfair across the wrap. */
  lemma UnfairRun(n: nat) returns (s: State)
    requires n > 0 && TWO64 % n != 0
    ensures Reach(s) && CLIENT in s.books.born && UnitCalls(s.books, CLIENT)
    ensures |Values(s.books.log, CLIENT)| == TWO64 % n + 1
    ensures !Fair(Children(s.books.log, CLIENT, 0, TWO64 % n + 1, n), n)
  {
    var len := TWO64 % n + 1;
    s := CallsInARow(len);
    AllItsValues(s.books.log, CLIENT);
    var r, acts :| IsRun(r, acts) && r[|acts|] == s;
    Counters.RunKeeps(r, acts, |acts|);
    GivenInOrder(s, CLIENT);
    ChildrenArePicks(s.books.log, CLIENT, TWO64 - 1, 0, len, n);
    WrapIsUnfair(n);
  }

  /** Every window of advances of key so far is fair. */
  ghost predicate AllWindowsFair(s: State, key: Name, n: nat)
    requires n > 0
  {
    forall lo: nat, hi: nat | lo <= hi <= |Values(s.books.log, key)| :: Fair(Children(s.books.log, key, lo, hi, n), n)
  }

  /** Every window of every run is fair, for calls that ask for one, if and only if the child count divides 2^64. */
  lemma RunsAreFairIff(n: nat)
    requires n > 0
    ensures (forall s, key | Reach(s) && key in s.books.born && UnitCalls(s.books, key) :: AllWindowsFair(s, key, n))
       <==> TWO64 % n == 0
  {
    if TWO64 % n == 0 {
      forall s, key | Reach(s) && key in s.books.born && UnitCalls(s.books, key) ensures AllWindowsFair(s, key, n) {
        var r, acts :| IsRun(r, acts) && r[|acts|] == s;
        forall lo: nat, hi: nat | lo <= hi <= |Values(s.books.log, key)|
          ensures Fair(Children(s.books.log, key, lo, hi, n), n)
        {
          RotationIsFair(r, acts, |acts|, key, lo, hi, n);
        }
      }
    } else {
      var s := UnfairRun(n);
      assert !AllWindowsFair(s, CLIENT, n);
    }
  }
}
