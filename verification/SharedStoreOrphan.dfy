/**
  * Why the sweep's guard is needed: a run in which a sweep unpublishes the scope
  * of a later FetchAdd, and an idempotency entry stays behind without a scope.
  */
module SharedStoreOrphan {
  import opened Common
  import opened SharedStore

  /** The state with one thread at pc. */
  function With(s: State, d: Directory, b: Books, t: Tid, pc: Pc): State {
    State(d, b, s.threads[t := pc])
  }

  lemma Twice<K, V>(m: map<K, V>, k: K, a: V, b: V)
    ensures m[k := a][k := b] == m[k := b]
  {
  }

  // ---------------------------------------------------------------- single steps, from pc to pc2

  lemma Attach(s: State, t: Tid, d: Directory, pc: Pc, addr: Ref, d2: Directory, pc2: Pc)
    requires Reach(With(s, d, s.books, t, pc)) && PartOf(pc) == Attaching
             && AttachMove(d, t, pc, addr) == Some((d2, pc2))
    ensures Reach(With(s, d2, s.books, t, pc2))
  {
    Twice(s.threads, t, pc, pc2);
    ReachNext(With(s, d, s.books, t, pc), t, Go(addr, 0, NO_OP));
  }

  lemma Advance(s: State, t: Tid, b: Books, pc: Pc, addr: Ref, b2: Books, pc2: Pc)
    requires Reach(With(s, s.dir, b, t, pc)) && PartOf(pc) == Advancing
             && AdvanceMove(b, t, pc, addr, 0) == Some((b2, pc2))
    ensures Reach(With(s, s.dir, b2, t, pc2))
  {
    Twice(s.threads, t, pc, pc2);
    ReachNext(With(s, s.dir, b, t, pc), t, Go(addr, 0, NO_OP));
  }

  lemma Evict(s: State, t: Tid, d: Directory, pc: Pc, d2: Directory, pc2: Pc)
    requires Reach(With(s, d, s.books, t, pc)) && PartOf(pc) == Evicting && EvictMove(d, t, pc) == Some((d2, pc2))
    ensures Reach(With(s, d2, s.books, t, pc2))
  {
    Twice(s.threads, t, pc, pc2);
    ReachNext(With(s, d, s.books, t, pc), t, Go(0, 0, NO_OP));
  }

  lemma ClearOn(s: State, t: Tid, d: Directory, pc: Pc, pick: Name, d2: Directory, pc2: Pc)
    requires Reach(With(s, d, s.books, t, pc)) && pc.Clear? && ClearMove(d, pc, pick) == Some((d2, pc2))
    ensures Reach(With(s, d2, s.books, t, pc2))
  {
    Twice(s.threads, t, pc, pc2);
    ReachNext(With(s, d, s.books, t, pc), t, Go(0, 0, pick));
  }

  lemma Begin(s: State, t: Tid, ch: Choice, b2: Books, pc2: Pc)
    requires Reach(s) && PcOf(s, t).Idle? && StartMove(s.dir, s.books, t, ch) == Some((b2, pc2))
    ensures Reach(With(s, s.dir, b2, t, pc2))
  {
    ReachNext(s, t, ch);
  }

  lemma IdemMiss(s: State, t: Tid, d: Directory, c: Call, sc: Ref)
    requires Reach(With(s, d, s.books, t, IdemLoad(c, sc))) && c.At() !in d.idem
    ensures Reach(With(s, d, s.books, t, IdemStore(c, sc)))
  {
    Twice(s.threads, t, IdemLoad(c, sc), IdemStore(c, sc));
    ReachNext(With(s, d, s.books, t, IdemLoad(c, sc)), t, Go(0, 0, NO_OP));
  }

  lemma IdemCreate(s: State, t: Tid, d: Directory, c: Call, sc: Ref, n: Ref)
    requires Reach(With(s, d, s.books, t, IdemStore(c, sc))) && c.At() !in d.idem && n !in s.books.entries
    ensures Reach(With(s, d.(idem := d.idem[c.At() := n], owner := d.owner[c.At() := sc]), Entry0(s.books, c, n), t,
                       Unlock(c, sc, n)))
  {
    Twice(s.threads, t, IdemStore(c, sc), Unlock(c, sc, n));
    ReachNext(With(s, d, s.books, t, IdemStore(c, sc)), t, Go(n, 0, NO_OP));
  }

  // ---------------------------------------------------------------- a whole FetchAdd with no other thread moving

  /** The directory in which the scope n of c's operation id has been published and locked by t. */
  function Locked(d: Directory, c: Call, n: Ref, t: Tid): Directory {
    d.(heap := d.heap[n := Scope(c.op, {}, false, c.now, Some(t), None)], scopes := d.scopes[c.op := n])
  }

  lemma LockAlone(s: State, t: Tid, c: Call, n: Ref)
    requires Reach(With(s, s.dir, s.books, t, ScopeLoad(c))) && c.op !in s.dir.scopes && n !in s.dir.heap
    ensures Reach(With(s, Locked(s.dir, c, n, t), s.books, t, AddKey(c, n)))
  {
    var d := s.dir;
    var d1 := d.(heap := d.heap[n := Scope(c.op, {}, false, 0, None, None)], scopes := d.scopes[c.op := n]);
    var d2 := WithScope(d1, n, d1.heap[n].(touched := c.now));
    var d3 := WithScope(d2, n, d2.heap[n].(holder := Some(t)));
    Attach(s, t, d, ScopeLoad(c), 0, d, ScopeStore(c));
    Attach(s, t, d, ScopeStore(c), n, d1, Touch(c, n));
    Attach(s, t, d1, Touch(c, n), 0, d2, Lock(c, n));
    Attach(s, t, d2, Lock(c, n), 0, d3, CheckDeleted(c, n));
    Attach(s, t, d3, CheckDeleted(c, n), 0, d3, AddKey(c, n));
    assert d3.heap == Locked(d, c, n, t).heap;
  }

  /** The directory after c created its entry n under the scope n. */
  function Entering(d: Directory, c: Call, n: Ref, t: Tid): Directory {
    Directory(d.scopes[c.op := n], d.heap[n := Scope(c.op, {c.key}, false, c.now, Some(t), None)],
              d.idem[c.At() := n], d.owner[c.At() := n])
  }

  function Entry0(b: Books, c: Call, n: Ref): Books {
    b.(entries := b.entries[n := Entry(c.At(), Fresh, 0)], regs := b.regs[c.id := n])
  }

  lemma EnterAlone(s: State, t: Tid, c: Call, n: Ref)
    requires Reach(With(s, Locked(s.dir, c, n, t), s.books, t, AddKey(c, n))) && c.At() !in s.dir.idem
             && n !in s.books.entries
    ensures Reach(With(s, Entering(s.dir, c, n, t), Entry0(s.books, c, n), t, Unlock(c, n, n)))
  {
    var d := Locked(s.dir, c, n, t);
    var d1 := WithScope(d, n, d.heap[n].(keys := d.heap[n].keys + {c.key}));
    Attach(s, t, d, AddKey(c, n), 0, d1, IdemLoad(c, n));
    IdemMiss(s, t, d1, c, n);
    IdemCreate(s, t, d1, c, n, n);
    assert {} + {c.key} == {c.key};
    assert d1.heap == Entering(s.dir, c, n, t).heap;
  }

  function Entered1(d: Directory, c: Call, n: Ref): Directory {
    Directory(d.scopes[c.op := n], d.heap[n := Scope(c.op, {c.key}, false, c.now, None, None)],
              d.idem[c.At() := n], d.owner[c.At() := n])
  }

  lemma RegisterAlone(s: State, t: Tid, c: Call, n: Ref)
    requires Reach(With(s, s.dir, s.books, t, ScopeLoad(c))) && c.op !in s.dir.scopes && n !in s.dir.heap
    requires c.At() !in s.dir.idem && n !in s.books.entries
    ensures Reach(With(s, Entered1(s.dir, c, n), Entry0(s.books, c, n), t, EnterOnce(c, n)))
  {
    LockAlone(s, t, c, n);
    EnterAlone(s, t, c, n);
    var d := Entering(s.dir, c, n, t);
    var s1 := State(d, Entry0(s.books, c, n), s.threads);
    Attach(s1, t, d, Unlock(c, n, n), 0, WithScope(d, n, d.heap[n].(holder := None)), EnterOnce(c, n));
    assert WithScope(d, n, d.heap[n].(holder := None)).heap == Entered1(s.dir, c, n).heap;
  }

  /** The counter is found or published, with cells at most one more. */
  lemma CounterAlone(s: State, t: Tid, c: Call, e: Ref, n: Ref) returns (b2: Books, cell: Ref)
    requires Reach(With(s, s.dir, s.books, t, EnterOnce(c, e))) && e in s.books.entries
             && s.books.entries[e].once == Fresh
    requires n !in s.books.cells && (c.key in s.books.counters ==> s.books.counters[c.key] in s.books.cells)
    ensures Reach(With(s, s.dir, b2, t, CounterAdd(c, Some(e), cell)))
    ensures b2.calls == s.books.calls && b2.entries.Keys == s.books.entries.Keys
    ensures c.key in b2.counters && b2.counters[c.key] == cell && cell in b2.cells
            && b2.cells.Keys <= s.books.cells.Keys + {n}
  {
    var b := s.books;
    b2 := b.(entries := b.entries[e := b.entries[e].(once := Running(t))]);
    Advance(s, t, b, EnterOnce(c, e), 0, b2, CounterLoad(c, Some(e)));
    if c.key in b.counters {
      cell := b.counters[c.key];
      Advance(s, t, b2, CounterLoad(c, Some(e)), 0, b2, CounterAdd(c, Some(e), cell));
    } else {
      cell := n;
      Advance(s, t, b2, CounterLoad(c, Some(e)), 0, b2, CounterStore(c, Some(e)));
      Advance(s, t, b2, CounterStore(c, Some(e)), n, WithCounter(b2, c.key, n, 0), CounterAdd(c, Some(e), n));
      b2 := WithCounter(b2, c.key, n, 0);
    }
  }

  lemma ReturnAlone(s: State, t: Tid, c: Call, e: Ref, cell: Ref) returns (b2: Books)
    requires Reach(With(s, s.dir, s.books, t, CounterAdd(c, Some(e), cell))) && e in s.books.entries
             && cell in s.books.cells
    ensures Reach(With(s, s.dir, b2, t, Idle))
    ensures b2.calls == s.books.calls && b2.entries.Keys == s.books.entries.Keys
    ensures b2.counters == s.books.counters && b2.cells.Keys == s.books.cells.Keys
  {
    var b := s.books;
    var b1 := Added(b, c, OfEntry(e), cell);
    var v := WrapSub(WrapAdd(b.cells[cell].value, c.delta), c.delta);
    Advance(s, t, b, CounterAdd(c, Some(e), cell), 0, b1, Record(c, e, v));
    b2 := b1.(entries := b1.entries[e := b1.entries[e].(once := Fired, previous := v)]);
    Advance(s, t, b1, Record(c, e, v), 0, b2, Return(c, e));
    Advance(s, t, b2, Return(c, e), 0, Answered(b2, c, v), Idle);
    b2 := Answered(b2, c, v);
  }

  /** A FetchAdd on an operation id without scope or entry. */
  lemma FetchAddAlone(s: State, t: Tid, c: Call, n: Ref) returns (b2: Books)
    requires Reach(s) && PcOf(s, t).Idle? && c.tid == t && c.id !in s.books.calls && c.op != NO_OP
    requires c.op !in s.dir.scopes && c.At() !in s.dir.idem && n !in s.dir.heap && n !in s.books.entries
             && n !in s.books.cells
    requires c.key in s.books.counters ==> s.books.counters[c.key] in s.books.cells
    ensures Reach(With(s, Entered1(s.dir, c, n), b2, t, Idle))
    ensures b2.calls == s.books.calls[c.id := c] && b2.entries.Keys == s.books.entries.Keys + {n}
    ensures c.key in b2.counters && b2.counters[c.key] in b2.cells && b2.cells.Keys <= s.books.cells.Keys + {n}
  {
    var b := s.books.(calls := s.books.calls[c.id := c]);
    Begin(s, t, StartFetchAdd(c.id, c.key, c.delta, c.op, c.now), b, ScopeLoad(c));
    RegisterAlone(State(s.dir, b, s.threads), t, c, n);
    b2 := CountAlone(State(Entered1(s.dir, c, n), Entry0(b, c, n), s.threads), t, c, n);
  }

  lemma CountAlone(s: State, t: Tid, c: Call, n: Ref) returns (b2: Books)
    requires Reach(With(s, s.dir, s.books, t, EnterOnce(c, n))) && n in s.books.entries
             && s.books.entries[n].once == Fresh
    requires n !in s.books.cells && (c.key in s.books.counters ==> s.books.counters[c.key] in s.books.cells)
    ensures Reach(With(s, s.dir, b2, t, Idle)) && b2.calls == s.books.calls && b2.entries.Keys == s.books.entries.Keys
    ensures c.key in b2.counters && b2.counters[c.key] in b2.cells && b2.cells.Keys <= s.books.cells.Keys + {n}
  {
    var cell;
    b2, cell := CounterAlone(s, t, c, n, n);
    b2 := ReturnAlone(State(s.dir, b2, s.threads), t, c, n, cell);
  }

  // ---------------------------------------------------------------- DropScope and the rest of a sweep

  function Dropped(d: Directory, op: Name, sc: Ref, key: Name, t: Tid): Directory
    requires sc in d.heap
  {
    Directory(d.scopes - {op}, d.heap[sc := d.heap[sc].(taker := Some(t), deleted := true, keys := {})],
              d.idem - {IdemKey(key, op)}, d.owner - {IdemKey(key, op)})
  }

  /** A DropScope on a published scope that lists one key. */
  lemma DropAlone(s: State, t: Tid, op: Name, sc: Ref, key: Name)
    requires Reach(s) && PcOf(s, t).Idle? && op != NO_OP && op in s.dir.scopes && s.dir.scopes[op] == sc
             && sc in s.dir.heap
    requires s.dir.heap[sc].holder == None && s.dir.heap[sc].keys == {key}
    ensures Reach(With(s, Dropped(s.dir, op, sc, key, t), s.books, t, Idle))
  {
    Begin(s, t, StartDropScope(op), s.books, DropTake(op));
    var d1 := TakeAlone(s, t, op, sc);
    var d2 := ClearAlone(s, t, d1, op, sc, key);
    assert d2.heap == Dropped(s.dir, op, sc, key, t).heap;
  }

  lemma TakeAlone(s: State, t: Tid, op: Name, sc: Ref) returns (d2: Directory)
    requires Reach(With(s, s.dir, s.books, t, DropTake(op))) && op in s.dir.scopes && s.dir.scopes[op] == sc
             && sc in s.dir.heap
    requires s.dir.heap[sc].holder == None
    ensures Reach(With(s, d2, s.books, t, Clear(op, sc, s.dir.heap[sc].keys)))
    ensures d2 == s.dir.(heap := s.dir.heap[sc := s.dir.heap[sc].(taker := Some(t), holder := Some(t),
                  deleted := true)], scopes := s.dir.scopes - {op})
  {
    var d := s.dir;
    var d0 := d.(heap := d.heap[sc := d.heap[sc].(taker := Some(t))], scopes := d.scopes - {op});
    var d1 := WithScope(d0, sc, d0.heap[sc].(holder := Some(t)));
    d2 := WithScope(d1, sc, d1.heap[sc].(deleted := true));
    Evict(s, t, d, DropTake(op), d0, DropLock(op, sc));
    Evict(s, t, d0, DropLock(op, sc), d1, DropMark(op, sc));
    Evict(s, t, d1, DropMark(op, sc), d2, Clear(op, sc, d.heap[sc].keys));
  }

  lemma ClearAlone(s: State, t: Tid, d: Directory, op: Name, sc: Ref, key: Name) returns (d2: Directory)
    requires Reach(With(s, d, s.books, t, Clear(op, sc, {key}))) && sc in d.heap
    ensures Reach(With(s, d2, s.books, t, Idle))
    ensures d2 == Directory(d.scopes, d.heap[sc := d.heap[sc].(keys := {}, holder := None)],
                            d.idem - {IdemKey(key, op)}, d.owner - {IdemKey(key, op)})
  {
    var d1 := d.(idem := d.idem - {IdemKey(key, op)}, owner := d.owner - {IdemKey(key, op)});
    d2 := WithScope(d1, sc, d1.heap[sc].(keys := {}, holder := None));
    assert {key} - {key} == {};
    ClearOn(s, t, d, Clear(op, sc, {key}), key, d1, Clear(op, sc, {}));
    ClearOn(s, t, d1, Clear(op, sc, {}), key, d2, Idle);
  }

  /** The rest of a sweep visit, from its mark on. */
  lemma UnpublishAlone(s: State, t: Tid, d: Directory, op: Name, sc: Ref) returns (d2: Directory)
    requires Reach(With(s, d, s.books, t, SweepUnpublish(op, sc))) && sc in d.heap && d.heap[sc].keys == {}
    ensures Reach(With(s, d2, s.books, t, Idle)) && d2.scopes == d.scopes - {op} && d2.idem == d.idem
  {
    var d1 := d.(scopes := d.scopes - {op});
    d2 := WithScope(d1, sc, d1.heap[sc].(keys := {}, holder := None));
    Evict(s, t, d, SweepUnpublish(op, sc), d1, Clear(op, sc, {}));
    ClearOn(s, t, d1, Clear(op, sc, {}), op, d2, Idle);
  }

  /** A sweep that visited sc goes on after sc was dropped: it unpublishes op all the same. */
  lemma SweepOn(s: State, t: Tid, op: Name, sc: Ref, cutoff: int) returns (d2: Directory)
    requires Reach(With(s, s.dir, s.books, t, SweepLock(op, sc, cutoff))) && sc in s.dir.heap
    requires s.dir.heap[sc].holder == None && s.dir.heap[sc].keys == {} && s.dir.heap[sc].touched < cutoff
    ensures Reach(With(s, d2, s.books, t, Idle)) && d2.scopes == s.dir.scopes - {op} && d2.idem == s.dir.idem
  {
    var d := s.dir;
    var d1 := WithScope(d, sc, d.heap[sc].(holder := Some(t)));
    var d0 := WithScope(d1, sc, d1.heap[sc].(deleted := true));
    Evict(s, t, d, SweepLock(op, sc, cutoff), d1, SweepRecheck(op, sc, cutoff));
    Evict(s, t, d1, SweepRecheck(op, sc, cutoff), d1, SweepMark(op, sc));
    Evict(s, t, d1, SweepMark(op, sc), d0, SweepUnpublish(op, sc));
    d2 := UnpublishAlone(s, t, d0, op, sc);
  }

  // ---------------------------------------------------------------- the run

  /** A sweep visits a scope that was touched before its cutoff. */
  lemma VisitAlone(s: State, t: Tid, op: Name, sc: Ref, cutoff: int)
    requires Reach(s) && PcOf(s, t).Idle? && op in s.dir.scopes && s.dir.scopes[op] == sc && sc in s.dir.heap
    requires s.dir.heap[sc].touched < cutoff
    ensures Reach(With(s, s.dir, s.books, t, SweepLock(op, sc, cutoff)))
  {
    Begin(s, t, StartSweep(op, cutoff), s.books, SweepPeek(op, sc, cutoff));
    Evict(s, t, s.dir, SweepPeek(op, sc, cutoff), s.dir, SweepLock(op, sc, cutoff));
  }

  /** A request is served and a sweep picks its scope as a victim; then the request drops the scope. */
  lemma VictimIsDropped(c: Call, k: IdemKey) returns (s: State)
    requires c.tid == 0 && c.op != NO_OP && c.id == 0 && c.now == 0 && k == c.At()
    ensures Reach(s) && s.threads == map[0 := Idle, 1 := SweepLock(c.op, 0, 1), 2 := Idle]
    ensures s.dir == Dropped(Entered1(EMPTY_DIR, c, 0), c.op, 0, c.key, 2) && s.books.calls == map[0 := c]
    ensures s.books.entries.Keys == {0} && c.key in s.books.counters && s.books.counters[c.key] in s.books.cells
            && s.books.cells.Keys <= {0}
  {
    var s0 := State(EMPTY_DIR, EMPTY_BOOKS, map[]);
    ReachInit(s0);
    var b := FetchAddAlone(s0, 0, c, 0);
    var d := Entered1(EMPTY_DIR, c, 0);
    var s1 := With(s0, d, b, 0, Idle);
    VisitAlone(s1, 1, c.op, 0, 1);
    var s2 := With(s1, d, b, 1, SweepLock(c.op, 0, 1));
    DropAlone(s2, 2, c.op, 0, c.key);
    s := With(s2, Dropped(d, c.op, 0, c.key, 2), b, 2, Idle);
  }

  /** A reachable state with no call in progress and an entry whose scope is gone. */
  lemma OrphanIsReachable() returns (s: State, k: IdemKey)
    ensures Reach(s) && Quiet(s) && k in s.dir.idem && k.op !in s.dir.scopes
  {
    var key, op := Name("client"), Name("req");
    k := IdemKey(key, op);
    var s1 := VictimIsDropped(Call(0, 0, key, 1, op, 0), k);
    var c := Call(1, 0, key, 1, op, 0);
    var b := FetchAddAlone(s1, 0, c, 1);
    var s2 := State(Entered1(s1.dir, c, 1), b, s1.threads[0 := Idle]);
    assert s2.threads == s2.threads[1 := SweepLock(op, 0, 1)];
    var d := SweepOn(s2, 1, op, 0, 1);
    s := With(s2, d, b, 1, Idle);
  }
}
