/**
  * No idempotency entry is orphaned: in every interleaving each entry is owned
  * by a scope that the next DropScope or sweep of its operation id will reach.
  */
module SharedStoreScopes {
  import opened Common
  import opened SharedStore

  type Threads = map<Tid, Pc>

  function At(ths: Threads, t: Tid): Pc {
    if t in ths then ths[t] else Idle
  }

  /** The operation id and scope object a program point refers to. */
  function Named(pc: Pc): Option<(Name, Ref)> {
    match pc
    case Touch(c, sc) => Some((c.op, sc))
    case Lock(c, sc) => Some((c.op, sc))
    case CheckDeleted(c, sc) => Some((c.op, sc))
    case AddKey(c, sc) => Some((c.op, sc))
    case IdemLoad(c, sc) => Some((c.op, sc))
    case IdemStore(c, sc) => Some((c.op, sc))
    case Unlock(c, sc, _) => Some((c.op, sc))
    case DropLock(op, sc) => Some((op, sc))
    case DropMark(op, sc) => Some((op, sc))
    case SweepPeek(op, sc, _) => Some((op, sc))
    case SweepLock(op, sc, _) => Some((op, sc))
    case SweepRecheck(op, sc, _) => Some((op, sc))
    case SweepMark(op, sc) => Some((op, sc))
    case SweepUnpublish(op, sc) => Some((op, sc))
    case Clear(op, sc, _) => Some((op, sc))
    case _ => None
  }

  /** Points between mu.Lock and mu.Unlock. */
  predicate Holds(pc: Pc) {
    pc.CheckDeleted? || pc.AddKey? || pc.IdemLoad? || pc.IdemStore? || pc.Unlock? || pc.DropMark?
    || pc.SweepRecheck? || pc.SweepMark? || pc.SweepUnpublish? || pc.Clear?
  }

  /** A DropScope that has unpublished sc and not yet marked it. */
  predicate AboutToMark(pc: Pc, sc: Ref) {
    (pc.DropLock? || pc.DropMark?) && pc.sc == sc
  }

  /** A deletion loop over sc that has still to delete k. */
  predicate WillDelete(pc: Pc, sc: Ref, k: Name) {
    (pc.SweepUnpublish? && pc.sc == sc) || (pc.Clear? && pc.sc == sc && k in pc.left)
  }

  /** What holds of the scope a thread's point refers to. */
  predicate SituationOk(o: Scope, t: Tid, pc: Pc) {
    && (Holds(pc) ==> o.holder == Some(t))
    && (pc.AddKey? || pc.IdemLoad? || pc.IdemStore? ==> !o.deleted)
    && (pc.IdemLoad? || pc.IdemStore? ==> pc.c.key in o.keys)
    && (pc.DropLock? || pc.DropMark? ==> o.taker == Some(t))
    && (pc.SweepUnpublish? || pc.Clear? ==> o.deleted)
    && (pc.Clear? ==> pc.left <= o.keys)
  }

  ghost predicate PointOk(d: Directory, t: Tid, pc: Pc) {
    Named(pc).Some? ==>
      var (op, sc) := Named(pc).value;
      sc in d.heap && d.heap[sc].op == op && SituationOk(d.heap[sc], t, pc)
  }

  ghost predicate PublishedOk(d: Directory, op: Name) {
    op in d.scopes ==> d.scopes[op] in d.heap && d.heap[d.scopes[op]].op == op && d.heap[d.scopes[op]].taker == None
  }

  predicate Published(d: Directory, sc: Ref) {
    sc in d.heap && d.heap[sc].op in d.scopes && d.scopes[d.heap[sc].op] == sc
  }

  /** A scope not marked deleted is published, or held by a DropScope about to mark it. */
  ghost predicate Reachable(d: Directory, ths: Threads, sc: Ref) {
    sc in d.heap ==>
      d.heap[sc].deleted || Published(d, sc)
      || (d.heap[sc].taker.Some? && AboutToMark(At(ths, d.heap[sc].taker.value), sc))
  }

  /** sc owns the entry k: it lists k, and if marked, its deletion loop has yet to reach k. */
  ghost predicate Owns(d: Directory, ths: Threads, sc: Ref, k: IdemKey) {
    && sc in d.heap && d.heap[sc].op == k.op && k.key in d.heap[sc].keys
    && (d.heap[sc].deleted ==> d.heap[sc].holder.Some? && WillDelete(At(ths, d.heap[sc].holder.value), sc, k.key))
  }

  ghost predicate EntryOk(d: Directory, ths: Threads, k: IdemKey) {
    && (k in d.owner <==> k in d.idem)
    && (k in d.owner ==> Owns(d, ths, d.owner[k], k))
  }

  ghost predicate DirInv(d: Directory, ths: Threads) {
    && (forall op {:trigger PublishedOk(d, op)} :: PublishedOk(d, op))
    && (forall t {:trigger PointOk(d, t, At(ths, t))} :: PointOk(d, t, At(ths, t)))
    && (forall sc {:trigger Reachable(d, ths, sc)} :: Reachable(d, ths, sc))
    && (forall k {:trigger EntryOk(d, ths, k)} :: EntryOk(d, ths, k))
  }

  ghost predicate ScopeInv(s: State) {
    DirInv(s.dir, s.threads)
  }

  /** The one step of sweepOnce that can go wrong, and the guard that makes it right. */
  predicate SweepHitsVictim(s: State, t: Tid) {
    var pc := PcOf(s, t);
    pc.SweepUnpublish? && pc.op in s.dir.scopes ==>
      s.dir.scopes[pc.op] == pc.sc || (s.dir.scopes[pc.op] in s.dir.heap && s.dir.heap[s.dir.scopes[pc.op]].deleted)
  }

  // ---------------------------------------------------------------- what one thread may do to the others

  /** What t may do to a scope without disturbing the other threads. */
  predicate MayChange(t: Tid, o: Scope, o2: Scope) {
    && o2.op == o.op && (o2.taker == o.taker || o.taker == None)
    && (o.holder == None || o.holder == Some(t) || o2 == o.(touched := o2.touched, taker := o2.taker))
  }

  /** At most the scope x changed (-1 for none), as t may change it. */
  ghost predicate Local(d: Directory, d2: Directory, t: Tid, x: int) {
    && (forall r | r in d.heap :: r in d2.heap)
    && (forall r | r in d2.heap && r != x :: r in d.heap && d2.heap[r] == d.heap[r])
    && (x in d.heap ==> MayChange(t, d.heap[x], d2.heap[x]))
  }

  lemma OthersKeepPoints(d: Directory, d2: Directory, t: Tid, x: int, u: Tid, pc: Pc)
    requires Local(d, d2, t, x) && u != t && PointOk(d, u, pc)
    ensures PointOk(d2, u, pc)
  {
  }

  lemma OthersStayReachable(d: Directory, d2: Directory, ths: Threads, t: Tid, pc: Pc, x: int, sc: Ref)
    requires Local(d, d2, t, x) && sc != x && Reachable(d, ths, sc)
    requires sc in d.heap && !d.heap[sc].deleted && Published(d, sc) ==> Published(d2, sc)
    requires AboutToMark(At(ths, t), sc) ==> AboutToMark(pc, sc)
    ensures Reachable(d2, ths[t := pc], sc)
  {
  }

  lemma OthersStayOwned(d: Directory, d2: Directory, ths: Threads, t: Tid, pc: Pc, x: int, sc: Ref, k: IdemKey)
    requires Local(d, d2, t, x) && sc != x && Owns(d, ths, sc, k)
    requires WillDelete(At(ths, t), sc, k.key) ==> WillDelete(pc, sc, k.key)
    ensures Owns(d2, ths[t := pc], sc, k)
  {
  }

  /** What has to be shown of a step: the facts about t, about x, and about the entries x owns. */
  lemma StepRule(d: Directory, d2: Directory, ths: Threads, t: Tid, pc: Pc, x: int)
    requires DirInv(d, ths) && Local(d, d2, t, x) && PointOk(d2, t, pc)
    requires forall op :: PublishedOk(d2, op)
    requires x >= 0 ==> Reachable(d2, ths[t := pc], x)
    requires forall sc | sc in d.heap && sc != x && !d.heap[sc].deleted && Published(d, sc) :: Published(d2, sc)
    requires forall sc | sc != x && AboutToMark(At(ths, t), sc) :: AboutToMark(pc, sc)
    requires forall k :: k in d2.owner <==> k in d2.idem
    requires forall k | k in d2.owner && d2.owner[k] == x :: Owns(d2, ths[t := pc], x, k)
    requires forall k | k in d2.owner && d2.owner[k] != x :: k in d.owner && d.owner[k] == d2.owner[k]
    requires forall k | k in d2.owner && d2.owner[k] != x && WillDelete(At(ths, t), d2.owner[k], k.key) ::
               WillDelete(pc, d2.owner[k], k.key)
    ensures DirInv(d2, ths[t := pc])
  {
    var ths2 := ths[t := pc];
    forall u ensures PointOk(d2, u, At(ths2, u)) {
      if u != t { assert PointOk(d, u, At(ths, u)); OthersKeepPoints(d, d2, t, x, u, At(ths, u)); }
    }
    forall sc ensures Reachable(d2, ths2, sc) {
      if sc != x { assert Reachable(d, ths, sc); OthersStayReachable(d, d2, ths, t, pc, x, sc); }
    }
    forall k ensures EntryOk(d2, ths2, k) {
      if k in d2.owner && d2.owner[k] != x {
        assert EntryOk(d, ths, k);
        OthersStayOwned(d, d2, ths, t, pc, x, d.owner[k], k);
      }
    }
  }

  /** A step that only moves its thread, away from a point that guards nothing. */
  lemma QuietRule(d: Directory, ths: Threads, t: Tid, pc: Pc)
    requires DirInv(d, ths) && PointOk(d, t, pc)
    requires var from := At(ths, t); !from.DropLock? && !from.DropMark? && !from.SweepUnpublish? && !from.Clear?
    ensures DirInv(d, ths[t := pc])
  {
    var ths2 := ths[t := pc];
    forall u ensures PointOk(d, u, At(ths2, u)) { if u != t { assert PointOk(d, u, At(ths, u)); } }
    forall sc ensures Reachable(d, ths2, sc) { assert Reachable(d, ths, sc); }
    forall k ensures EntryOk(d, ths2, k) { assert EntryOk(d, ths, k); }
  }

  /** t marks the scope and takes over its entries, or the scope was marked and t owes nothing. */
  ghost predicate KeepsEntries(o: Scope, o2: Scope, t: Tid, from: Pc, pc: Pc, x: Ref) {
    && o.keys <= o2.keys
    && (o2.deleted ==>
          || (o2.holder == Some(t) && forall k | k in o.keys :: WillDelete(pc, x, k))
          || (o.deleted && !from.SweepUnpublish? && !from.Clear?
              && (o2.holder == o.holder || o.holder == None || o.holder == Some(t))))
  }

  /** A step that changes one existing scope and nothing else. */
  lemma ScopeRule(d: Directory, ths: Threads, t: Tid, pc: Pc, x: Ref, o2: Scope)
    requires DirInv(d, ths) && x in d.heap && MayChange(t, d.heap[x], o2) && o2.taker == d.heap[x].taker
    requires PointOk(WithScope(d, x, o2), t, pc)
    requires !o2.deleted ==> !d.heap[x].deleted && (AboutToMark(At(ths, t), x) ==> AboutToMark(pc, x))
    requires KeepsEntries(d.heap[x], o2, t, At(ths, t), pc, x)
    requires Named(At(ths, t)) == Some((o2.op, x))
    ensures DirInv(WithScope(d, x, o2), ths[t := pc])
  {
    var d2, ths2 := WithScope(d, x, o2), ths[t := pc];
    assert Reachable(d, ths, x);
    forall op ensures PublishedOk(d2, op) { assert PublishedOk(d, op); }
    forall k ensures k in d2.owner <==> k in d2.idem { assert EntryOk(d, ths, k); }
    forall k | k in d2.owner && d2.owner[k] == x ensures Owns(d2, ths2, x, k) {
      assert EntryOk(d, ths, k) && PointOk(d, t, At(ths, t));
    }
    StepRule(d, d2, ths, t, pc, x);
  }

  // ---------------------------------------------------------------- every step

  lemma StartKeeps(s: State, t: Tid, ch: Choice)
    requires ScopeInv(s) && PcOf(s, t).Idle? && StartStep(s, t, ch).Some?
    ensures ScopeInv(StartStep(s, t, ch).value)
  {
    var pc := StartMove(s.dir, s.books, t, ch).value.1;
    match ch
    case StartFetchAdd(id, key, delta, op, now) => QuietRule(s.dir, s.threads, t, pc);
    case StartDropScope(op) => QuietRule(s.dir, s.threads, t, pc);
    case StartSweep(op, cutoff) => assert PublishedOk(s.dir, op); QuietRule(s.dir, s.threads, t, pc);
  }

  lemma AdvanceNamesNothing(b: Books, t: Tid, pc: Pc, addr: Ref, seed: u64)
    requires AdvanceMove(b, t, pc, addr, seed).Some?
    ensures Named(pc).None? && Named(AdvanceMove(b, t, pc, addr, seed).value.1).None?
  {
    match pc
    case EnterOnce(c, e) => if b.entries[e].once.Fresh? {} else {}
    case CounterLoad(c, entry) => if c.key in b.counters {} else {}
    case CounterStore(c, entry) => if c.key in b.counters {} else {}
    case CounterAdd(c, entry, cell) => if entry.Some? {} else {}
    case Record(c, e, previous) =>
    case Return(c, e) =>
  }

  lemma AdvanceKeeps(s: State, t: Tid, addr: Ref, seed: u64)
    requires ScopeInv(s) && AdvanceStep(s, t, addr, seed).Some?
    ensures ScopeInv(AdvanceStep(s, t, addr, seed).value)
  {
    AdvanceNamesNothing(s.books, t, PcOf(s, t), addr, seed);
    QuietRule(s.dir, s.threads, t, AdvanceMove(s.books, t, PcOf(s, t), addr, seed).value.1);
  }

  lemma AttachKeeps(s: State, t: Tid, addr: Ref)
    requires ScopeInv(s) && AttachStep(s, t, addr).Some?
    ensures ScopeInv(AttachStep(s, t, addr).value)
  {
    var d, pc := s.dir, PcOf(s, t);
    assert PointOk(d, t, At(s.threads, t));
    match pc
    case ScopeLoad(c) =>
      assert PublishedOk(d, c.op);
      QuietRule(d, s.threads, t, if c.op in d.scopes then Touch(c, d.scopes[c.op]) else ScopeStore(c));
    case ScopeStore(c) =>
      assert PublishedOk(d, c.op);
      if c.op in d.scopes {
        QuietRule(d, s.threads, t, Touch(c, d.scopes[c.op]));
      } else {
        PublishKeeps(d, s.threads, t, c, addr);
      }
    case Touch(c, sc) => ScopeRule(d, s.threads, t, Lock(c, sc), sc, d.heap[sc].(touched := c.now));
    case Lock(c, sc) => ScopeRule(d, s.threads, t, CheckDeleted(c, sc), sc, d.heap[sc].(holder := Some(t)));
    case CheckDeleted(c, sc) =>
      if d.heap[sc].deleted { ScopeRule(d, s.threads, t, ScopeLoad(c), sc, d.heap[sc].(holder := None)); }
      else { QuietRule(d, s.threads, t, AddKey(c, sc)); }
    case AddKey(c, sc) =>
      ScopeRule(d, s.threads, t, IdemLoad(c, sc), sc, d.heap[sc].(keys := d.heap[sc].keys + {c.key}));
    case Unlock(c, sc, e) => ScopeRule(d, s.threads, t, EnterOnce(c, e), sc, d.heap[sc].(holder := None));
  }

  lemma PublishKeeps(d: Directory, ths: Threads, t: Tid, c: Call, addr: Ref)
    requires DirInv(d, ths) && At(ths, t) == ScopeStore(c) && c.op !in d.scopes && addr !in d.heap
    ensures DirInv(d.(heap := d.heap[addr := Scope(c.op, {}, false, 0, None, None)],
                   scopes := d.scopes[c.op := addr]), ths[t := Touch(c, addr)])
  {
    var d2 := d.(heap := d.heap[addr := Scope(c.op, {}, false, 0, None, None)], scopes := d.scopes[c.op := addr]);
    forall k ensures k in d2.owner <==> k in d2.idem { assert EntryOk(d, ths, k); }
    forall k | k in d.owner ensures d.owner[k] != addr { assert EntryOk(d, ths, k); }
    forall op ensures PublishedOk(d2, op) { assert PublishedOk(d, op); }
    StepRule(d, d2, ths, t, Touch(c, addr), addr);
  }

  lemma CreateKeeps(d: Directory, ths: Threads, t: Tid, pc: Pc, e: Ref)
    requires DirInv(d, ths) && At(ths, t) == pc && AtIdem(pc) && pc.c.At() !in d.idem
    ensures DirInv(d.(idem := d.idem[pc.c.At() := e], owner := d.owner[pc.c.At() := pc.sc]),
                   ths[t := Unlock(pc.c, pc.sc, e)])
  {
    var d2, ths2 := d.(idem := d.idem[pc.c.At() := e], owner := d.owner[pc.c.At() := pc.sc]),
                    ths[t := Unlock(pc.c, pc.sc, e)];
    assert PointOk(d, t, At(ths, t)) && Reachable(d, ths, pc.sc);
    forall k ensures k in d2.owner <==> k in d2.idem { assert EntryOk(d, ths, k); }
    forall op ensures PublishedOk(d2, op) { assert PublishedOk(d, op); }
    forall k | k in d2.owner && d2.owner[k] == pc.sc ensures Owns(d2, ths2, pc.sc, k) { assert EntryOk(d, ths, k); }
    StepRule(d, d2, ths, t, Unlock(pc.c, pc.sc, e), pc.sc);
  }

  lemma RegisterKeeps(s: State, t: Tid, addr: Ref)
    requires ScopeInv(s) && RegisterStep(s, t, addr).Some?
    ensures ScopeInv(RegisterStep(s, t, addr).value)
  {
    var d, pc := s.dir, PcOf(s, t);
    assert PointOk(d, t, At(s.threads, t));
    match Entered(d, s.books, pc, addr)
    case None => QuietRule(d, s.threads, t, IdemStore(pc.c, pc.sc));
    case Some(e) =>
      if pc.c.At() in d.idem {
        QuietRule(d, s.threads, t, Unlock(pc.c, pc.sc, e));
      } else {
        CreateKeeps(d, s.threads, t, pc, e);
      }
  }

  lemma TakeKeeps(d: Directory, ths: Threads, t: Tid, op: Name)
    requires DirInv(d, ths) && At(ths, t) == DropTake(op) && op in d.scopes && d.scopes[op] in d.heap
    ensures var sc := d.scopes[op];
            DirInv(d.(heap := d.heap[sc := d.heap[sc].(taker := Some(t))], scopes := d.scopes - {op}),
                   ths[t := DropLock(op, sc)])
  {
    var sc := d.scopes[op];
    var d2 := d.(heap := d.heap[sc := d.heap[sc].(taker := Some(t))], scopes := d.scopes - {op});
    assert PublishedOk(d, op);
    forall p ensures PublishedOk(d2, p) { assert PublishedOk(d, p); }
    forall k ensures k in d2.owner <==> k in d2.idem { assert EntryOk(d, ths, k); }
    forall k | k in d2.owner && d2.owner[k] == sc ensures Owns(d2, ths[t := DropLock(op, sc)], sc, k) {
      assert EntryOk(d, ths, k);
    }
    StepRule(d, d2, ths, t, DropLock(op, sc), sc);
  }

  lemma UnpublishKeeps(d: Directory, ths: Threads, t: Tid, op: Name, sc: Ref)
    requires DirInv(d, ths) && At(ths, t) == SweepUnpublish(op, sc) && sc in d.heap
    requires op in d.scopes ==> d.scopes[op] == sc || (d.scopes[op] in d.heap && d.heap[d.scopes[op]].deleted)
    ensures DirInv(d.(scopes := d.scopes - {op}), ths[t := Clear(op, sc, d.heap[sc].keys)])
  {
    var d2, pc := d.(scopes := d.scopes - {op}), Clear(op, sc, d.heap[sc].keys);
    assert PointOk(d, t, At(ths, t));
    forall p ensures PublishedOk(d2, p) { assert PublishedOk(d, p); }
    forall k ensures k in d2.owner <==> k in d2.idem { assert EntryOk(d, ths, k); }
    forall k | k in d2.owner && d2.owner[k] == sc ensures Owns(d2, ths[t := pc], sc, k) { assert EntryOk(d, ths, k); }
    StepRule(d, d2, ths, t, pc, sc);
  }

  lemma ClearKeeps(s: State, t: Tid, pick: Name)
    requires ScopeInv(s) && ClearStep(s, t, pick).Some?
    ensures ScopeInv(ClearStep(s, t, pick).value)
  {
    var d, ths, pc := s.dir, s.threads, PcOf(s, t);
    var (d2, pc2) := ClearMove(d, pc, pick).value;
    assert PointOk(d, t, At(ths, t)) && Reachable(d, ths, pc.sc);
    forall p ensures PublishedOk(d2, p) { assert PublishedOk(d, p); }
    forall k ensures k in d2.owner <==> k in d2.idem { assert EntryOk(d, ths, k); }
    forall k | k in d2.owner && d2.owner[k] == pc.sc ensures Owns(d2, ths[t := pc2], pc.sc, k) {
      assert EntryOk(d, ths, k);
      if pc.left == {} {} else {}
    }
    if pc.left == {} {} else {}
    StepRule(d, d2, ths, t, pc2, pc.sc);
  }

  predicate Dropping(pc: Pc) {
    pc.DropTake? || pc.DropLock? || pc.DropMark?
  }

  lemma DropKeeps(s: State, t: Tid)
    requires ScopeInv(s) && EvictStep(s, t).Some? && Dropping(PcOf(s, t))
    ensures ScopeInv(EvictStep(s, t).value)
  {
    var d, ths := s.dir, s.threads;
    assert PointOk(d, t, At(ths, t));
    match PcOf(s, t)
    case DropTake(op) => if op in d.scopes { TakeKeeps(d, ths, t, op); } else { QuietRule(d, ths, t, Idle); }
    case DropLock(op, sc) => ScopeRule(d, ths, t, DropMark(op, sc), sc, d.heap[sc].(holder := Some(t)));
    case DropMark(op, sc) => ScopeRule(d, ths, t, Clear(op, sc, d.heap[sc].keys), sc, d.heap[sc].(deleted := true));
  }

  lemma SweepKeeps(s: State, t: Tid)
    requires ScopeInv(s) && EvictStep(s, t).Some? && SweepHitsVictim(s, t) && !Dropping(PcOf(s, t))
    ensures ScopeInv(EvictStep(s, t).value)
  {
    var d, ths := s.dir, s.threads;
    assert PointOk(d, t, At(ths, t));
    match PcOf(s, t)
    case SweepPeek(op, sc, cutoff) =>
      QuietRule(d, ths, t, if d.heap[sc].touched >= cutoff then Idle else SweepLock(op, sc, cutoff));
    case SweepLock(op, sc, cutoff) =>
      ScopeRule(d, ths, t, SweepRecheck(op, sc, cutoff), sc, d.heap[sc].(holder := Some(t)));
    case SweepRecheck(op, sc, cutoff) =>
      if d.heap[sc].touched >= cutoff { ScopeRule(d, ths, t, Idle, sc, d.heap[sc].(holder := None)); }
      else { QuietRule(d, ths, t, SweepMark(op, sc)); }
    case SweepMark(op, sc) => ScopeRule(d, ths, t, SweepUnpublish(op, sc), sc, d.heap[sc].(deleted := true));
    case SweepUnpublish(op, sc) => UnpublishKeeps(d, ths, t, op, sc);
  }

  lemma EvictKeeps(s: State, t: Tid)
    requires ScopeInv(s) && EvictStep(s, t).Some? && SweepHitsVictim(s, t)
    ensures ScopeInv(EvictStep(s, t).value)
  {
    if Dropping(PcOf(s, t)) { DropKeeps(s, t); } else { SweepKeeps(s, t); }
  }

  lemma StepKeeps(s: State, t: Tid, ch: Choice)
    requires ScopeInv(s) && Step(s, t, ch).Some? && SweepHitsVictim(s, t)
    ensures ScopeInv(Step(s, t, ch).value)
  {
    match PartOf(PcOf(s, t))
    case Starting => StartKeeps(s, t, ch);
    case Attaching => AttachKeeps(s, t, ch.addr);
    case Registering => RegisterKeeps(s, t, ch.addr);
    case Advancing => AdvanceKeeps(s, t, ch.addr, ch.seed);
    case Evicting => EvictKeeps(s, t);
    case Clearing => ClearKeeps(s, t, ch.pick);
  }

  // ---------------------------------------------------------------- whole runs

  /** Every sweep of the run finds its victim still published when it unpublishes. */
  ghost predicate SweepsHit(r: seq<State>, acts: seq<Action>)
    requires |r| == |acts| + 1
  {
    forall i {:trigger acts[i]} | 0 <= i < |acts| :: SweepHitsVictim(r[i], acts[i].t)
  }

  lemma {:induction false} RunKeeps(r: seq<State>, acts: seq<Action>, n: nat)
    requires IsRun(r, acts) && SweepsHit(r, acts) && n < |r|
    ensures ScopeInv(r[n])
  {
    if n > 0 {
      RunKeeps(r, acts, n - 1);
      StepOf(r, acts, n - 1);
      StepKeeps(r[n - 1], acts[n - 1].t, acts[n - 1].ch);
    }
  }

  /**
    * In every reachable state each entry (k, op) has a scope object of op that
    * lists k and is not yet deleted away from under it, and that scope is
    * published, or a DropScope has unpublished it and is still to delete k, or
    * a deletion loop is on its way to k.
    */
  lemma EveryEntryIsOwned(r: seq<State>, acts: seq<Action>, n: nat, k: IdemKey)
    requires IsRun(r, acts) && SweepsHit(r, acts) && n < |r| && k in r[n].dir.idem
    ensures exists sc :: Owns(r[n].dir, r[n].threads, sc, k) && Reachable(r[n].dir, r[n].threads, sc)
  {
    RunKeeps(r, acts, n);
    assert EntryOk(r[n].dir, r[n].threads, k);
    assert Reachable(r[n].dir, r[n].threads, r[n].dir.owner[k]);
  }

  /** Between calls the comment at sharedstate.go:261 holds: an entry implies its published scope. */
  lemma EntryImpliesScope(r: seq<State>, acts: seq<Action>, n: nat, k: IdemKey)
    requires IsRun(r, acts) && SweepsHit(r, acts) && n < |r| && k in r[n].dir.idem && Quiet(r[n])
    ensures k.op in r[n].dir.scopes && r[n].dir.scopes[k.op] in r[n].dir.heap
    ensures k.key in r[n].dir.heap[r[n].dir.scopes[k.op]].keys && !r[n].dir.heap[r[n].dir.scopes[k.op]].deleted
  {
    RunKeeps(r, acts, n);
    assert EntryOk(r[n].dir, r[n].threads, k);
    assert Reachable(r[n].dir, r[n].threads, r[n].dir.owner[k]);
  }

  /** The guard is exact: without it the sweep's Delete breaks the invariant at once. */
  lemma SweepGuardIsExact(s: State, t: Tid)
    requires ScopeInv(s) && PcOf(s, t).SweepUnpublish? && EvictStep(s, t).Some?
    ensures ScopeInv(EvictStep(s, t).value) <==> SweepHitsVictim(s, t)
  {
    var pc := PcOf(s, t);
    if SweepHitsVictim(s, t) {
      UnpublishKeeps(s.dir, s.threads, t, pc.op, pc.sc);
    } else {
      var s2 := EvictStep(s, t).value;
      assert PublishedOk(s.dir, pc.op);
      assert !Reachable(s2.dir, s2.threads, s.dir.scopes[pc.op]);
    }
  }

  // ---------------------------------------------------------------- which entries a sweep strands

  /** An entry that no deletion will reach: no scope owns it that is published, being taken or being cleared. */
  ghost predicate Orphaned(s: State, k: IdemKey) {
    k in s.dir.idem && forall sc | Owns(s.dir, s.threads, sc, k) :: !Reachable(s.dir, s.threads, sc)
  }

  /** The scope published under the sweep's operation id is not its victim, is in use, and alone owns the entry. */
  ghost predicate Strands(s: State, op: Name, victim: Ref, k: IdemKey) {
    && k in s.dir.idem && k.op == op && op in s.dir.scopes && s.dir.scopes[op] in s.dir.heap
    && s.dir.scopes[op] != victim && !s.dir.heap[s.dir.scopes[op]].deleted
    && forall sc | Owns(s.dir, s.threads, sc, k) :: sc == s.dir.scopes[op]
  }

  /** The sweep's Delete takes the scope published under its operation id out of reach, and no other. */
  lemma UnpublishReach(s: State, t: Tid, op: Name, victim: Ref, k: IdemKey, sc: Ref)
    requires ScopeInv(s) && PcOf(s, t) == SweepUnpublish(op, victim) && EvictStep(s, t).Some?
    requires Owns(s.dir, s.threads, sc, k)
    ensures Owns(EvictStep(s, t).value.dir, EvictStep(s, t).value.threads, sc, k)
    ensures Reachable(EvictStep(s, t).value.dir, EvictStep(s, t).value.threads, sc) <==>
            !(op in s.dir.scopes && s.dir.scopes[op] == sc && !s.dir.heap[sc].deleted)
  {
    assert PointOk(s.dir, t, At(s.threads, t)) && Reachable(s.dir, s.threads, sc);
    assert PublishedOk(s.dir, op) && PublishedOk(s.dir, s.dir.heap[sc].op);
  }

  lemma OwnedBefore(s: State, t: Tid, op: Name, victim: Ref, k: IdemKey, sc: Ref)
    requires ScopeInv(s) && PcOf(s, t) == SweepUnpublish(op, victim) && EvictStep(s, t).Some?
    requires Owns(EvictStep(s, t).value.dir, EvictStep(s, t).value.threads, sc, k)
    ensures Owns(s.dir, s.threads, sc, k)
  {
  }

  /** An entry is orphaned by the sweep's Delete if and only if it is stranded: exactly those entries are lost. */
  lemma SweepOrphansIff(s: State, t: Tid, k: IdemKey)
    requires ScopeInv(s) && PcOf(s, t).SweepUnpublish? && EvictStep(s, t).Some?
    ensures Orphaned(EvictStep(s, t).value, k) <==> Strands(s, PcOf(s, t).op, PcOf(s, t).sc, k)
  {
    var op, victim, s2 := PcOf(s, t).op, PcOf(s, t).sc, EvictStep(s, t).value;
    assert PointOk(s.dir, t, At(s.threads, t)) && EntryOk(s.dir, s.threads, k) && PublishedOk(s.dir, op);
    forall sc ensures Owns(s.dir, s.threads, sc, k) <==> Owns(s2.dir, s2.threads, sc, k) {
      if Owns(s.dir, s.threads, sc, k) { UnpublishReach(s, t, op, victim, k, sc); }
      if Owns(s2.dir, s2.threads, sc, k) { OwnedBefore(s, t, op, victim, k, sc); }
    }
    forall sc | Owns(s.dir, s.threads, sc, k)
      ensures Reachable(s2.dir, s2.threads, sc) <==>
              !(op in s.dir.scopes && s.dir.scopes[op] == sc && !s.dir.heap[sc].deleted)
    {
      UnpublishReach(s, t, op, victim, k, sc);
    }
  }
}
