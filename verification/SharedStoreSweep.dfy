/**
  * What eviction does and what it spares: a sweep leaves fresh scopes alone and
  * evicts stale ones, DropScope drops its scope, and so an idempotency entry
  * lives as long as its operation is used.
  */
module SharedStoreSweep {
  import opened Common
  import opened SharedStore
  import Counters = SharedStoreCounters

  // ---------------------------------------------------------------- what one step may change

  lemma MovesOne(r: seq<State>, acts: seq<Action>, i: nat, u: Tid)
    requires IsRun(r, acts) && i < |acts| && u != acts[i].t
    ensures PcOf(r[i + 1], u) == PcOf(r[i], u)
  {
    StepOf(r, acts, i);
  }

  /** The next point of a thread that visits a scope, and the directory it leaves. */
  lemma EvictNext(r: seq<State>, acts: seq<Action>, i: nat)
    requires IsRun(r, acts) && i < |acts| && PartOf(PcOf(r[i], acts[i].t)) == Evicting
    ensures EvictMove(r[i].dir, acts[i].t, PcOf(r[i], acts[i].t)) == Some((r[i + 1].dir, PcOf(r[i + 1], acts[i].t)))
  {
    StepOf(r, acts, i);
  }

  lemma ClearNext(r: seq<State>, acts: seq<Action>, i: nat)
    requires IsRun(r, acts) && i < |acts| && PcOf(r[i], acts[i].t).Clear?
    ensures acts[i].ch.Go?
    ensures ClearMove(r[i].dir, PcOf(r[i], acts[i].t), acts[i].ch.pick)
         == Some((r[i + 1].dir, PcOf(r[i + 1], acts[i].t)))
  {
    StepOf(r, acts, i);
  }

  // ---------------------------------------------------------------- a fresh scope is left alone

  /** A visit of sweepOnce that has not marked its scope. */
  predicate Visiting(pc: Pc, op: Name, sc: Ref, cutoff: int) {
    pc == SweepPeek(op, sc, cutoff) || pc == SweepLock(op, sc, cutoff) || pc == SweepRecheck(op, sc, cutoff)
  }

  /** The scope was used since the cutoff. */
  predicate IsFresh(s: State, sc: Ref, cutoff: int) {
    sc in s.dir.heap && s.dir.heap[sc].touched >= cutoff
  }

  /** No scope is unpublished or marked and no entry deleted. */
  ghost predicate Harmless(d: Directory, d2: Directory) {
    d2.scopes == d.scopes && d2.idem == d.idem && d2.heap.Keys == d.heap.Keys
    && forall x | x in d.heap :: d2.heap[x].deleted == d.heap[x].deleted && d2.heap[x].keys == d.heap[x].keys
  }

  lemma VisitStep(r: seq<State>, acts: seq<Action>, i: nat, op: Name, sc: Ref, cutoff: int)
    requires IsRun(r, acts) && i < |acts| && Visiting(PcOf(r[i], acts[i].t), op, sc, cutoff)
    requires PcOf(r[i], acts[i].t).SweepRecheck? ==> IsFresh(r[i], sc, cutoff)
    ensures Harmless(r[i].dir, r[i + 1].dir)
    ensures Visiting(PcOf(r[i + 1], acts[i].t), op, sc, cutoff) || PcOf(r[i + 1], acts[i].t).Idle?
    ensures PcOf(r[i], acts[i].t).SweepPeek? && IsFresh(r[i], sc, cutoff) ==>
              r[i + 1].dir == r[i].dir && PcOf(r[i + 1], acts[i].t).Idle?
  {
    EvictNext(r, acts, i);
  }

  lemma VisitNext(r: seq<State>, acts: seq<Action>, i: nat, t: Tid, op: Name, sc: Ref, cutoff: int)
    requires IsRun(r, acts) && i < |acts| && Visiting(PcOf(r[i], t), op, sc, cutoff)
    requires PcOf(r[i], t).SweepRecheck? ==> IsFresh(r[i], sc, cutoff)
    ensures acts[i].t == t ==> Harmless(r[i].dir, r[i + 1].dir)
    ensures Visiting(PcOf(r[i + 1], t), op, sc, cutoff) || PcOf(r[i + 1], t).Idle?
    ensures PcOf(r[i], t).SweepPeek? && IsFresh(r[i], sc, cutoff) ==>
              (acts[i].t == t ==> r[i + 1].dir == r[i].dir)
              && (PcOf(r[i + 1], t) == PcOf(r[i], t) || PcOf(r[i + 1], t).Idle?)
  {
    if acts[i].t == t { VisitStep(r, acts, i, op, sc, cutoff); } else { MovesOne(r, acts, i, t); }
  }

  /** t has not returned, and if it is about to look at the scope under the lock, the scope is fresh. */
  ghost predicate FreshWhenLocked(r: seq<State>, i: nat, t: Tid, sc: Ref, cutoff: int) {
    i < |r| && !PcOf(r[i], t).Idle? && (PcOf(r[i], t).SweepRecheck? ==> IsFresh(r[i], sc, cutoff))
  }

  /** If step i is t's, it is harmless. */
  ghost predicate HarmlessStep(r: seq<State>, acts: seq<Action>, i: nat, t: Tid) {
    i < |acts| && i + 1 < |r| && (acts[i].t == t ==> Harmless(r[i].dir, r[i + 1].dir))
  }

  /** t has not returned, and the scope is fresh. */
  ghost predicate FreshNow(r: seq<State>, i: nat, t: Tid, sc: Ref, cutoff: int) {
    i < |r| && !PcOf(r[i], t).Idle? && IsFresh(r[i], sc, cutoff)
  }

  /** If step i is t's, it leaves the directory as it is. */
  ghost predicate IdleStep(r: seq<State>, acts: seq<Action>, i: nat, t: Tid) {
    i < |acts| && i + 1 < |r| && (acts[i].t == t ==> r[i + 1].dir == r[i].dir)
  }

  /** What VisitNext says of step i. */
  ghost predicate VisitGoesOn(r: seq<State>, acts: seq<Action>, i: nat, t: Tid, op: Name, sc: Ref, cutoff: int) {
    && i + 1 < |r|
    && (Visiting(PcOf(r[i], t), op, sc, cutoff) && FreshWhenLocked(r, i, t, sc, cutoff) ==>
          HarmlessStep(r, acts, i, t) && (Visiting(PcOf(r[i + 1], t), op, sc, cutoff) || PcOf(r[i + 1], t).Idle?))
    && (PcOf(r[i], t) == SweepPeek(op, sc, cutoff) && FreshNow(r, i, t, sc, cutoff) ==>
          IdleStep(r, acts, i, t) && (PcOf(r[i + 1], t) == PcOf(r[i], t) || PcOf(r[i + 1], t).Idle?))
  }

  lemma VisitsGoOn(r: seq<State>, acts: seq<Action>, t: Tid, op: Name, sc: Ref, cutoff: int)
    requires IsRun(r, acts)
    ensures forall i {:trigger VisitGoesOn(r, acts, i, t, op, sc, cutoff)} | 0 <= i < |acts| ::
              VisitGoesOn(r, acts, i, t, op, sc, cutoff)
  {
    forall i | 0 <= i < |acts| ensures VisitGoesOn(r, acts, i, t, op, sc, cutoff) {
      if Visiting(PcOf(r[i], t), op, sc, cutoff) && (PcOf(r[i], t).SweepRecheck? ==> IsFresh(r[i], sc, cutoff)) {
        VisitNext(r, acts, i, t, op, sc, cutoff);
      }
    }
  }

  lemma {:induction false} VisitSpares(r: seq<State>, acts: seq<Action>, m: nat, n: nat, t: Tid, op: Name,
                                       sc: Ref, cutoff: int)
    requires |r| == |acts| + 1 && m <= n < |r| && PcOf(r[m], t) == SweepPeek(op, sc, cutoff)
    requires forall i {:trigger VisitGoesOn(r, acts, i, t, op, sc, cutoff)} | 0 <= i < |acts| ::
               VisitGoesOn(r, acts, i, t, op, sc, cutoff)
    requires forall i {:trigger FreshWhenLocked(r, i, t, sc, cutoff)} | m <= i < n ::
               FreshWhenLocked(r, i, t, sc, cutoff)
    ensures Visiting(PcOf(r[n], t), op, sc, cutoff) || PcOf(r[n], t).Idle?
    ensures forall i {:trigger HarmlessStep(r, acts, i, t)} | m <= i < n :: HarmlessStep(r, acts, i, t)
    decreases n
  {
    if m < n {
      VisitSpares(r, acts, m, n - 1, t, op, sc, cutoff);
      assert VisitGoesOn(r, acts, n - 1, t, op, sc, cutoff) && FreshWhenLocked(r, n - 1, t, sc, cutoff);
    }
  }

  /**
    * A visit that finds its scope used since the cutoff when it looks under the lock unpublishes no scope,
    * marks none and deletes no entry; t is in the visit until it returns.
    */
  lemma FreshScopeIsSpared(r: seq<State>, acts: seq<Action>, m: nat, n: nat, t: Tid, op: Name, sc: Ref, cutoff: int)
    requires IsRun(r, acts) && m <= n < |r| && PcOf(r[m], t) == SweepPeek(op, sc, cutoff)
    requires forall i {:trigger FreshWhenLocked(r, i, t, sc, cutoff)} | m <= i < n ::
               FreshWhenLocked(r, i, t, sc, cutoff)
    ensures Visiting(PcOf(r[n], t), op, sc, cutoff) || PcOf(r[n], t).Idle?
    ensures forall i {:trigger HarmlessStep(r, acts, i, t)} | m <= i < n :: HarmlessStep(r, acts, i, t)
  {
    VisitsGoOn(r, acts, t, op, sc, cutoff);
    VisitSpares(r, acts, m, n, t, op, sc, cutoff);
  }

  lemma {:induction false} VisitLeaves(r: seq<State>, acts: seq<Action>, m: nat, n: nat, t: Tid, op: Name,
                                       sc: Ref, cutoff: int)
    requires |r| == |acts| + 1 && m <= n < |r| && PcOf(r[m], t) == SweepPeek(op, sc, cutoff)
    requires forall i {:trigger VisitGoesOn(r, acts, i, t, op, sc, cutoff)} | 0 <= i < |acts| ::
               VisitGoesOn(r, acts, i, t, op, sc, cutoff)
    requires forall i {:trigger FreshNow(r, i, t, sc, cutoff)} | m <= i < n :: FreshNow(r, i, t, sc, cutoff)
    ensures PcOf(r[n], t) == SweepPeek(op, sc, cutoff) || PcOf(r[n], t).Idle?
    ensures forall i {:trigger IdleStep(r, acts, i, t)} | m <= i < n :: IdleStep(r, acts, i, t)
    decreases n
  {
    if m < n {
      VisitLeaves(r, acts, m, n - 1, t, op, sc, cutoff);
      assert VisitGoesOn(r, acts, n - 1, t, op, sc, cutoff) && FreshNow(r, n - 1, t, sc, cutoff);
    }
  }

  /** If the scope is fresh all the time, the visit does not even take its mutex. */
  lemma FreshScopeIsNotTouched(r: seq<State>, acts: seq<Action>, m: nat, n: nat, t: Tid, op: Name, sc: Ref,
                               cutoff: int)
    requires IsRun(r, acts) && m <= n < |r| && PcOf(r[m], t) == SweepPeek(op, sc, cutoff)
    requires forall i {:trigger FreshNow(r, i, t, sc, cutoff)} | m <= i < n :: FreshNow(r, i, t, sc, cutoff)
    ensures PcOf(r[n], t) == SweepPeek(op, sc, cutoff) || PcOf(r[n], t).Idle?
    ensures forall i {:trigger IdleStep(r, acts, i, t)} | m <= i < n :: IdleStep(r, acts, i, t)
  {
    VisitsGoOn(r, acts, t, op, sc, cutoff);
    VisitLeaves(r, acts, m, n, t, op, sc, cutoff);
  }

  // ---------------------------------------------------------------- a stale scope is evicted

  /** Between i and n thread t deleted the entry k. */
  ghost predicate Deletes(r: seq<State>, acts: seq<Action>, i: nat, n: nat, t: Tid, k: IdemKey) {
    |r| == |acts| + 1 && n < |r| && exists j | i <= j < n :: acts[j].t == t && k !in r[j + 1].dir.idem
  }

  lemma DeletesLater(r: seq<State>, acts: seq<Action>, i: nat, j: nat, n: nat, t: Tid, k: IdemKey)
    requires i <= j && Deletes(r, acts, j, n, t, k)
    ensures Deletes(r, acts, i, n, t, k)
  {
    var x :| j <= x < n && acts[x].t == t && k !in r[x + 1].dir.idem;
    assert i <= x < n;
  }

  /** The deletion loop deletes every key it has left before it returns. */
  lemma {:induction false} ClearFinishes(r: seq<State>, acts: seq<Action>, i: nat, n: nat, t: Tid, key: Name)
    requires IsRun(r, acts) && i < n < |r| && PcOf(r[i], t).Clear? && key in PcOf(r[i], t).left && PcOf(r[n], t).Idle?
    requires forall j | i <= j < n :: !PcOf(r[j], t).Idle?
    ensures Deletes(r, acts, i, n, t, IdemKey(key, PcOf(r[i], t).op))
    decreases n - i
  {
    var k := IdemKey(key, PcOf(r[i], t).op);
    if acts[i].t != t {
      MovesOne(r, acts, i, t);
      ClearFinishes(r, acts, i + 1, n, t, key);
      DeletesLater(r, acts, i, i + 1, n, t, k);
    } else {
      ClearNext(r, acts, i);
      if acts[i].ch.pick == key {
        assert acts[i].t == t && k !in r[i + 1].dir.idem;
      } else {
        ClearFinishes(r, acts, i + 1, n, t, key);
        DeletesLater(r, acts, i, i + 1, n, t, k);
      }
    }
  }

  /** From step j on, at which t unpublished op, the scope is marked and t deletes all the entries it lists. */
  ghost predicate EvictsAt(r: seq<State>, acts: seq<Action>, j: nat, n: nat, t: Tid, op: Name, sc: Ref) {
    && |r| == |acts| + 1 && j < n < |r| && acts[j].t == t && op !in r[j + 1].dir.scopes
    && sc in r[j].dir.heap && r[j].dir.heap[sc].deleted
    && forall key | key in r[j].dir.heap[sc].keys :: Deletes(r, acts, j + 1, n, t, IdemKey(key, op))
  }

  lemma UnpublishEvicts(r: seq<State>, acts: seq<Action>, i: nat, n: nat, t: Tid, op: Name, sc: Ref)
    requires IsRun(r, acts) && i < n < |r| && PcOf(r[i], t) == SweepUnpublish(op, sc) && acts[i].t == t
    requires sc in r[i].dir.heap && r[i].dir.heap[sc].deleted && PcOf(r[n], t).Idle?
    requires forall j | i <= j < n :: !PcOf(r[j], t).Idle?
    ensures EvictsAt(r, acts, i, n, t, op, sc)
  {
    EvictNext(r, acts, i);
    forall key | key in r[i].dir.heap[sc].keys ensures Deletes(r, acts, i + 1, n, t, IdemKey(key, op)) {
      ClearFinishes(r, acts, i + 1, n, t, key);
    }
  }

  lemma AttachKeepsDeleted(d: Directory, t: Tid, pc: Pc, addr: Ref, sc: Ref)
    requires AttachMove(d, t, pc, addr).Some? && sc in d.heap && d.heap[sc].deleted
    ensures var d2 := AttachMove(d, t, pc, addr).value.0; sc in d2.heap && d2.heap[sc].deleted
  {
  }

  lemma EvictKeepsDeleted(d: Directory, t: Tid, pc: Pc, sc: Ref)
    requires EvictMove(d, t, pc).Some? && sc in d.heap && d.heap[sc].deleted
    ensures var d2 := EvictMove(d, t, pc).value.0; sc in d2.heap && d2.heap[sc].deleted
  {
  }

  lemma DeletedStays(r: seq<State>, acts: seq<Action>, i: nat, sc: Ref)
    requires IsRun(r, acts) && i < |acts| && sc in r[i].dir.heap && r[i].dir.heap[sc].deleted
    ensures sc in r[i + 1].dir.heap && r[i + 1].dir.heap[sc].deleted
  {
    StepOf(r, acts, i);
    var s, t, ch := r[i], acts[i].t, acts[i].ch;
    match PartOf(PcOf(s, t))
    case Attaching => AttachKeepsDeleted(s.dir, t, PcOf(s, t), ch.addr, sc);
    case Evicting => EvictKeepsDeleted(s.dir, t, PcOf(s, t), sc);
    case _ =>
  }

  predicate MarkedVisit(s: State, pc: Pc, op: Name, sc: Ref) {
    pc == SweepMark(op, sc) || (pc == SweepUnpublish(op, sc) && sc in s.dir.heap && s.dir.heap[sc].deleted)
  }

  lemma StaleStep(r: seq<State>, acts: seq<Action>, i: nat, op: Name, sc: Ref, cutoff: int)
    requires IsRun(r, acts) && i < |acts| && sc in r[i].dir.heap && r[i].dir.heap[sc].touched < cutoff
    requires Visiting(PcOf(r[i], acts[i].t), op, sc, cutoff) || PcOf(r[i], acts[i].t) == SweepMark(op, sc)
    ensures var pc := PcOf(r[i + 1], acts[i].t); Visiting(pc, op, sc, cutoff) || MarkedVisit(r[i + 1], pc, op, sc)
  {
    EvictNext(r, acts, i);
  }

  /**
    * A visit that returns, and whose scope was not used since the cutoff at any time in between, has marked
    * the scope, unpublished its operation id and deleted every entry the scope listed.
    */
  lemma {:induction false} StaleScopeIsEvicted(r: seq<State>, acts: seq<Action>, m: nat, n: nat, t: Tid, op: Name,
                                               sc: Ref, cutoff: int)
    returns (j: nat)
    requires IsRun(r, acts) && m < n < |r|
    requires Visiting(PcOf(r[m], t), op, sc, cutoff) || MarkedVisit(r[m], PcOf(r[m], t), op, sc)
    requires forall i | m <= i < n :: !PcOf(r[i], t).Idle? && sc in r[i].dir.heap && r[i].dir.heap[sc].touched < cutoff
    requires PcOf(r[n], t).Idle?
    ensures m <= j && EvictsAt(r, acts, j, n, t, op, sc)
    decreases n - m
  {
    if acts[m].t != t {
      MovesOne(r, acts, m, t);
      if r[m].dir.heap[sc].deleted { DeletedStays(r, acts, m, sc); }
      j := StaleScopeIsEvicted(r, acts, m + 1, n, t, op, sc, cutoff);
    } else if PcOf(r[m], t).SweepUnpublish? {
      UnpublishEvicts(r, acts, m, n, t, op, sc);
      j := m;
    } else {
      StaleStep(r, acts, m, op, sc, cutoff);
      j := StaleScopeIsEvicted(r, acts, m + 1, n, t, op, sc, cutoff);
    }
  }

  /**
    * A DropScope that finds a scope published unpublishes it, and before it returns marks it and deletes
    * every entry the scope lists at that time.
    */
  lemma DropScopeDrops(r: seq<State>, acts: seq<Action>, i: nat, n: nat, t: Tid, op: Name, sc: Ref) returns (j: nat)
    requires IsRun(r, acts) && i < n < |r| && PcOf(r[i], t) == DropTake(op) && acts[i].t == t
    requires op in r[i].dir.scopes && r[i].dir.scopes[op] == sc && PcOf(r[n], t).Idle?
    requires forall j | i <= j < n :: !PcOf(r[j], t).Idle?
    ensures op !in r[i + 1].dir.scopes && DropsAt(r, acts, j, n, t, op, sc)
  {
    EvictNext(r, acts, i);
    j := LockedDrops(r, acts, i + 1, n, t, op, sc);
  }

  /** At step j thread t marks the scope, and it deletes all the entries the scope lists. */
  ghost predicate DropsAt(r: seq<State>, acts: seq<Action>, j: nat, n: nat, t: Tid, op: Name, sc: Ref) {
    && |r| == |acts| + 1 && j < n < |r| && acts[j].t == t && sc in r[j].dir.heap
    && sc in r[j + 1].dir.heap && r[j + 1].dir.heap[sc].deleted
    && forall key | key in r[j].dir.heap[sc].keys :: Deletes(r, acts, j + 1, n, t, IdemKey(key, op))
  }

  lemma {:induction false} LockedDrops(r: seq<State>, acts: seq<Action>, i: nat, n: nat, t: Tid, op: Name, sc: Ref)
    returns (j: nat)
    requires IsRun(r, acts) && i < n < |r| && (PcOf(r[i], t) == DropLock(op, sc) || PcOf(r[i], t) == DropMark(op, sc))
    requires PcOf(r[n], t).Idle? && forall j | i <= j < n :: !PcOf(r[j], t).Idle?
    ensures DropsAt(r, acts, j, n, t, op, sc)
    decreases n - i
  {
    if acts[i].t != t {
      MovesOne(r, acts, i, t);
      j := LockedDrops(r, acts, i + 1, n, t, op, sc);
    } else {
      EvictNext(r, acts, i);
      if PcOf(r[i], t).DropLock? {
        j := LockedDrops(r, acts, i + 1, n, t, op, sc);
      } else {
        j := i;
        forall key | key in r[i].dir.heap[sc].keys ensures Deletes(r, acts, i + 1, n, t, IdemKey(key, op)) {
          ClearFinishes(r, acts, i + 1, n, t, key);
        }
      }
    }
  }

  // ---------------------------------------------------------------- how long an entry lives

  /** A thread past the point of no return: it will delete the entries of op that its scope lists. */
  predicate Evicts(pc: Pc, op: Name) {
    (pc.DropTake? || pc.DropLock? || pc.DropMark? || pc.SweepMark? || pc.SweepUnpublish? || pc.Clear?) && pc.op == op
  }

  ghost predicate NoEvictor(s: State, op: Name) {
    forall t | t in s.threads :: !Evicts(s.threads[t], op)
  }

  /** The step begins no DropScope of op, and if it is a sweep's look at a scope of op under the lock, that is fresh. */
  ghost predicate Spares(s: State, a: Action, op: Name) {
    && a.ch != StartDropScope(op)
    && var pc := PcOf(s, a.t); pc.SweepRecheck? && pc.op == op ==> IsFresh(s, pc.sc, pc.cutoff)
  }

  lemma NoEvictorStays(r: seq<State>, acts: seq<Action>, i: nat, op: Name)
    requires IsRun(r, acts) && i < |acts| && NoEvictor(r[i], op) && Spares(r[i], acts[i], op)
    ensures NoEvictor(r[i + 1], op)
  {
    StepOf(r, acts, i);
    var t := acts[i].t;
    assert !Evicts(PcOf(r[i], t), op);
    assert !Evicts(PcOf(r[i + 1], t), op);
    assert r[i + 1].threads == r[i].threads[t := PcOf(r[i + 1], t)];
  }

  lemma EntryStaysOnce(r: seq<State>, acts: seq<Action>, i: nat, k: IdemKey)
    requires IsRun(r, acts) && i < |acts| && NoEvictor(r[i], k.op) && k in r[i].dir.idem
    ensures k in r[i + 1].dir.idem
  {
    StepOf(r, acts, i);
  }

  lemma NextEntryStays(r: seq<State>, acts: seq<Action>, i: nat, k: IdemKey)
    requires IsRun(r, acts) && i < |acts| && k in r[i].dir.idem && NoEvictor(r[i], k.op) && Spares(r[i], acts[i], k.op)
    ensures k in r[i + 1].dir.idem && NoEvictor(r[i + 1], k.op)
  {
    NoEvictorStays(r, acts, i, k.op);
    EntryStaysOnce(r, acts, i, k);
  }

  /** The entry is there and nobody is about to delete it. */
  ghost predicate Lives(s: State, k: IdemKey) {
    k in s.dir.idem && NoEvictor(s, k.op)
  }

  ghost predicate NextLives(r: seq<State>, i: nat, k: IdemKey) {
    i + 1 < |r| && (Lives(r[i], k) ==> Lives(r[i + 1], k))
  }

  lemma {:induction false} LivesOn(r: seq<State>, m: nat, n: nat, k: IdemKey)
    requires m <= n < |r| && Lives(r[m], k)
    requires forall i {:trigger NextLives(r, i, k)} | m <= i < n :: NextLives(r, i, k)
    ensures Lives(r[n], k)
    decreases n
  {
    if m < n {
      LivesOn(r, m, n - 1, k);
      assert NextLives(r, n - 1, k);
    }
  }

  /** An entry stays until a DropScope of its operation id, or a sweep that finds a scope of it stale. */
  lemma EntryStays(r: seq<State>, acts: seq<Action>, m: nat, n: nat, k: IdemKey)
    requires IsRun(r, acts) && m <= n < |r| && Lives(r[m], k)
    requires forall i {:trigger Spares(r[i], acts[i], k.op)} | m <= i < n :: Spares(r[i], acts[i], k.op)
    ensures Lives(r[n], k)
  {
    forall i | m <= i < n ensures NextLives(r, i, k) {
      if Lives(r[i], k) { NextEntryStays(r, acts, i, k); }
    }
    LivesOn(r, m, n, k);
  }

  /**
    * Two calls on one key and operation id return the same value, from one addition, if between their
    * registrations no DropScope of the id begins or is in progress and no sweep finds a scope of it whose
    * last touch is before its cutoff.
    */
  lemma RetriesAgreeUnlessEvicted(r: seq<State>, acts: seq<Action>, p: nat, q: nat, n: nat, a: nat, b: nat, k: IdemKey)
    requires IsRun(r, acts) && p <= q < n < |r|
    requires Counters.RegisteredIn(r, p, a, k) && Counters.RegisteredIn(r, q, b, k)
    requires NoEvictor(r[p + 1], k.op)
    requires forall i {:trigger Spares(r[i], acts[i], k.op)} | p < i <= q :: Spares(r[i], acts[i], k.op)
    requires a in r[n].books.results && b in r[n].books.results
    ensures r[n].books.results[a] == r[n].books.results[b]
    ensures a in r[n].books.regs
            && Counters.LoggedOnce(r[n].books.log, OfEntry(r[n].books.regs[a]), r[n].books.results[a])
  {
    Counters.NextRemembers(r, acts, p);
    forall m | p < m <= q + 1 ensures k in r[m].dir.idem { EntryStays(r, acts, p + 1, m, k); }
    Counters.RetriesAgree(r, acts, p, q, n, a, b, k);
  }
}
