/**
  * An entry lives as long as its operation is used: if every FetchAdd of an
  * operation id is at or after a time, and no sweep visits it with a later
  * cutoff, no sweep deletes its entries, and retries agree until a DropScope.
  */
module SharedStoreFresh {
  import opened Common
  import opened SharedStore
  import Counters = SharedStoreCounters

  /** The call of a thread inside FetchAdd, up to the registration of its entry. */
  function CallOf(pc: Pc): Option<Call> {
    match pc
    case ScopeLoad(c) => Some(c)
    case ScopeStore(c) => Some(c)
    case Touch(c, _) => Some(c)
    case Lock(c, _) => Some(c)
    case CheckDeleted(c, _) => Some(c)
    case AddKey(c, _) => Some(c)
    case IdemLoad(c, _) => Some(c)
    case IdemStore(c, _) => Some(c)
    case Unlock(c, _, _) => Some(c)
    case _ => None
  }

  /** The operation id and the scope a thread works on. */
  function Target(pc: Pc): Option<(Name, Ref)> {
    match pc
    case Touch(c, sc) => Some((c.op, sc))
    case Lock(c, sc) => Some((c.op, sc))
    case CheckDeleted(c, sc) => Some((c.op, sc))
    case AddKey(c, sc) => Some((c.op, sc))
    case IdemLoad(c, sc) => Some((c.op, sc))
    case IdemStore(c, sc) => Some((c.op, sc))
    case Unlock(c, sc, _) => Some((c.op, sc))
    case DropLock(op, sc) => Some((op, sc))
    case DropMark(op, sc) => Some((op, sc))
    case SweepPeek(op, sc, _) => Some((op, sc))
    case SweepLock(op, sc, _) => Some((op, sc))
    case SweepRecheck(op, sc, _) => Some((op, sc))
    case SweepMark(op, sc) => Some((op, sc))
    case SweepUnpublish(op, sc) => Some((op, sc))
    case Clear(op, sc, _) => Some((op, sc))
    case _ => None
  }

  /** Points that hold the scope's mutex. */
  predicate Holds(pc: Pc) {
    pc.CheckDeleted? || pc.AddKey? || pc.IdemLoad? || pc.IdemStore? || pc.Unlock? || pc.DropMark? || pc.SweepRecheck?
    || pc.SweepMark? || pc.SweepUnpublish? || pc.Clear?
  }

  /** Points of a FetchAdd that has touched its scope. */
  predicate HasTouched(pc: Pc) {
    pc.Lock? || pc.CheckDeleted? || pc.AddKey? || pc.IdemLoad? || pc.IdemStore? || pc.Unlock?
  }

  /** What holds of a thread if op is used at or after since: it never saw an older time, nor a later cutoff. */
  ghost predicate ThreadOk(d: Directory, op: Name, since: int, t: Tid, pc: Pc) {
    && (CallOf(pc).Some? && CallOf(pc).value.op == op ==> CallOf(pc).value.now >= since)
    && (Target(pc).Some? ==>
          var (o, sc) := Target(pc).value;
          && sc in d.heap && d.heap[sc].op == o
          && (Holds(pc) ==> d.heap[sc].holder == Some(t))
          && (o == op ==>
                && (HasTouched(pc) ==> d.heap[sc].touched >= since)
                && (pc.SweepPeek? || pc.SweepLock? || pc.SweepRecheck? ==> pc.cutoff <= since)
                && (pc.SweepMark? || pc.SweepUnpublish? ==> d.heap[sc].keys == {})))
  }

  /** A scope of op that lists a key was touched since. */
  ghost predicate ScopeOk(d: Directory, op: Name, since: int, sc: Ref) {
    sc in d.heap && d.heap[sc].op == op && d.heap[sc].keys != {} ==> d.heap[sc].touched >= since
  }

  ghost predicate PublishedOk(d: Directory, o: Name) {
    o in d.scopes ==> d.scopes[o] in d.heap && d.heap[d.scopes[o]].op == o
  }

  ghost predicate UsedSince(s: State, op: Name, since: int) {
    && (forall t {:trigger ThreadOk(s.dir, op, since, t, s.threads[t])} | t in s.threads ::
          ThreadOk(s.dir, op, since, t, s.threads[t]))
    && (forall sc {:trigger ScopeOk(s.dir, op, since, sc)} :: ScopeOk(s.dir, op, since, sc))
    && (forall o {:trigger PublishedOk(s.dir, o)} :: PublishedOk(s.dir, o))
  }

  /** What a step of t may do to a scope that others work on. */
  ghost predicate ScopeMay(d: Directory, d2: Directory, op: Name, since: int, t: Tid, sc: Ref) {
    sc in d.heap ==>
      && sc in d2.heap
      && var o, o2 := d.heap[sc], d2.heap[sc];
      && o2.op == o.op
      && (o2.holder == o.holder || o.holder == None || o.holder == Some(t))
      && (o2.keys == o.keys || o.holder == Some(t))
      && (o2.touched == o.touched || (o.op == op ==> o2.touched >= since))
  }

  lemma OthersKeep(d: Directory, d2: Directory, op: Name, since: int, t: Tid, u: Tid, pc: Pc)
    requires ThreadOk(d, op, since, u, pc) && u != t
    requires Target(pc).Some? ==> ScopeMay(d, d2, op, since, t, Target(pc).value.1)
    ensures ThreadOk(d2, op, since, u, pc)
  {
  }

  /** What remains to be shown of a step. */
  lemma StepRule(s: State, s2: State, op: Name, since: int, t: Tid, pc: Pc)
    requires UsedSince(s, op, since) && s2.threads == s.threads[t := pc]
    requires forall sc {:trigger ScopeMay(s.dir, s2.dir, op, since, t, sc)} :: ScopeMay(s.dir, s2.dir, op, since, t, sc)
    requires ThreadOk(s2.dir, op, since, t, pc)
    requires forall sc {:trigger ScopeOk(s2.dir, op, since, sc)} :: ScopeOk(s2.dir, op, since, sc)
    requires forall o {:trigger PublishedOk(s2.dir, o)} :: PublishedOk(s2.dir, o)
    ensures UsedSince(s2, op, since)
  {
    forall u | u in s2.threads ensures ThreadOk(s2.dir, op, since, u, s2.threads[u]) {
      if u != t {
        assert ThreadOk(s.dir, op, since, u, s.threads[u]);
        if Target(s.threads[u]).Some? { assert ScopeMay(s.dir, s2.dir, op, since, t, Target(s.threads[u]).value.1); }
        OthersKeep(s.dir, s2.dir, op, since, t, u, s.threads[u]);
      }
    }
  }

  /** A step that leaves the scopes alone. */
  lemma QuietRule(s: State, s2: State, op: Name, since: int, t: Tid, pc: Pc)
    requires UsedSince(s, op, since) && s2.threads == s.threads[t := pc] && s2.dir.heap == s.dir.heap
    requires forall o | o in s2.dir.scopes :: o in s.dir.scopes && s2.dir.scopes[o] == s.dir.scopes[o]
    requires ThreadOk(s2.dir, op, since, t, pc)
    ensures UsedSince(s2, op, since)
  {
    forall sc ensures ScopeMay(s.dir, s2.dir, op, since, t, sc) {}
    forall sc ensures ScopeOk(s2.dir, op, since, sc) { assert ScopeOk(s.dir, op, since, sc); }
    forall o ensures PublishedOk(s2.dir, o) { assert PublishedOk(s.dir, o); }
    StepRule(s, s2, op, since, t, pc);
  }

  /** A step that changes one scope, or makes a new one. */
  lemma ScopeRule(s: State, s2: State, op: Name, since: int, t: Tid, pc: Pc, x: Ref, o: Scope)
    requires UsedSince(s, op, since) && s2.threads == s.threads[t := pc] && s2.dir.heap == s.dir.heap[x := o]
    requires forall n | n in s2.dir.scopes && (n !in s.dir.scopes || s2.dir.scopes[n] != s.dir.scopes[n]) ::
               PublishedOk(s2.dir, n)
    requires x in s.dir.heap ==> ScopeMay(s.dir, s2.dir, op, since, t, x)
    requires ThreadOk(s2.dir, op, since, t, pc) && ScopeOk(s2.dir, op, since, x)
    ensures UsedSince(s2, op, since)
  {
    forall sc ensures ScopeMay(s.dir, s2.dir, op, since, t, sc) {}
    forall sc ensures ScopeOk(s2.dir, op, since, sc) { if sc != x { assert ScopeOk(s.dir, op, since, sc); } }
    forall n ensures PublishedOk(s2.dir, n) { assert PublishedOk(s.dir, n); }
    StepRule(s, s2, op, since, t, pc);
  }

  predicate Finding(pc: Pc) {
    pc.ScopeLoad? || pc.ScopeStore? || pc.Touch?
  }

  lemma FindKeeps(s: State, t: Tid, addr: Ref, op: Name, since: int)
    requires UsedSince(s, op, since) && AttachStep(s, t, addr).Some? && Finding(PcOf(s, t))
    ensures UsedSince(AttachStep(s, t, addr).value, op, since)
  {
    var d, pc, s2 := s.dir, PcOf(s, t), AttachStep(s, t, addr).value;
    assert ThreadOk(d, op, since, t, pc);
    match pc
    case ScopeLoad(c) =>
      assert PublishedOk(d, c.op);
      QuietRule(s, s2, op, since, t, if c.op in d.scopes then Touch(c, d.scopes[c.op]) else ScopeStore(c));
    case ScopeStore(c) =>
      assert PublishedOk(d, c.op);
      if c.op in d.scopes {
        QuietRule(s, s2, op, since, t, Touch(c, d.scopes[c.op]));
      } else {
        ScopeRule(s, s2, op, since, t, Touch(c, addr), addr, Scope(c.op, {}, false, 0, None, None));
      }
    case Touch(c, sc) =>
      assert ScopeOk(d, op, since, sc);
      ScopeRule(s, s2, op, since, t, Lock(c, sc), sc, d.heap[sc].(touched := c.now));
  }

  lemma LockKeeps(s: State, t: Tid, addr: Ref, op: Name, since: int)
    requires UsedSince(s, op, since) && AttachStep(s, t, addr).Some? && !Finding(PcOf(s, t))
    ensures UsedSince(AttachStep(s, t, addr).value, op, since)
  {
    var d, pc, s2 := s.dir, PcOf(s, t), AttachStep(s, t, addr).value;
    assert ThreadOk(d, op, since, t, pc);
    match pc
    case Lock(c, sc) =>
      assert ScopeOk(d, op, since, sc);
      ScopeRule(s, s2, op, since, t, CheckDeleted(c, sc), sc, d.heap[sc].(holder := Some(t)));
    case CheckDeleted(c, sc) =>
      assert ScopeOk(d, op, since, sc);
      if d.heap[sc].deleted {
        ScopeRule(s, s2, op, since, t, ScopeLoad(c), sc, d.heap[sc].(holder := None));
      } else {
        QuietRule(s, s2, op, since, t, AddKey(c, sc));
      }
    case AddKey(c, sc) =>
      ScopeRule(s, s2, op, since, t, IdemLoad(c, sc), sc, d.heap[sc].(keys := d.heap[sc].keys + {c.key}));
    case Unlock(c, sc, e) =>
      assert ScopeOk(d, op, since, sc);
      ScopeRule(s, s2, op, since, t, EnterOnce(c, e), sc, d.heap[sc].(holder := None));
  }

  lemma DropKeeps(s: State, t: Tid, op: Name, since: int)
    requires UsedSince(s, op, since) && EvictStep(s, t).Some?
    requires PcOf(s, t).DropTake? || PcOf(s, t).DropLock? || PcOf(s, t).DropMark?
    ensures UsedSince(EvictStep(s, t).value, op, since)
  {
    var d, pc, s2 := s.dir, PcOf(s, t), EvictStep(s, t).value;
    assert ThreadOk(d, op, since, t, pc);
    match pc
    case DropTake(o) =>
      assert PublishedOk(d, o);
      if o in d.scopes {
        var sc := d.scopes[o];
        assert ScopeOk(d, op, since, sc);
        ScopeRule(s, s2, op, since, t, DropLock(o, sc), sc, d.heap[sc].(taker := Some(t)));
      } else {
        QuietRule(s, s2, op, since, t, Idle);
      }
    case DropLock(o, sc) =>
      assert ScopeOk(d, op, since, sc);
      ScopeRule(s, s2, op, since, t, DropMark(o, sc), sc, d.heap[sc].(holder := Some(t)));
    case DropMark(o, sc) =>
      assert ScopeOk(d, op, since, sc);
      ScopeRule(s, s2, op, since, t, Clear(o, sc, d.heap[sc].keys), sc, d.heap[sc].(deleted := true));
  }

  lemma SweepKeeps(s: State, t: Tid, op: Name, since: int)
    requires UsedSince(s, op, since) && EvictStep(s, t).Some?
    requires !PcOf(s, t).DropTake? && !PcOf(s, t).DropLock? && !PcOf(s, t).DropMark?
    ensures UsedSince(EvictStep(s, t).value, op, since)
  {
    var d, pc, s2 := s.dir, PcOf(s, t), EvictStep(s, t).value;
    assert ThreadOk(d, op, since, t, pc);
    assert ScopeOk(d, op, since, pc.sc);
    match pc
    case SweepPeek(o, sc, cutoff) =>
      QuietRule(s, s2, op, since, t, if d.heap[sc].touched >= cutoff then Idle else SweepLock(o, sc, cutoff));
    case SweepLock(o, sc, cutoff) =>
      ScopeRule(s, s2, op, since, t, SweepRecheck(o, sc, cutoff), sc, d.heap[sc].(holder := Some(t)));
    case SweepRecheck(o, sc, cutoff) =>
      if d.heap[sc].touched >= cutoff {
        ScopeRule(s, s2, op, since, t, Idle, sc, d.heap[sc].(holder := None));
      } else {
        QuietRule(s, s2, op, since, t, SweepMark(o, sc));
      }
    case SweepMark(o, sc) =>
      ScopeRule(s, s2, op, since, t, SweepUnpublish(o, sc), sc, d.heap[sc].(deleted := true));
    case SweepUnpublish(o, sc) => QuietRule(s, s2, op, since, t, Clear(o, sc, d.heap[sc].keys));
  }

  lemma ClearKeeps(s: State, t: Tid, pick: Name, op: Name, since: int)
    requires UsedSince(s, op, since) && ClearStep(s, t, pick).Some?
    ensures UsedSince(ClearStep(s, t, pick).value, op, since)
  {
    var d, pc, s2 := s.dir, PcOf(s, t), ClearStep(s, t, pick).value;
    assert ThreadOk(d, op, since, t, pc);
    if pc.left == {} {
      ScopeRule(s, s2, op, since, t, Idle, pc.sc, d.heap[pc.sc].(keys := {}, holder := None));
    } else {
      QuietRule(s, s2, op, since, t, Clear(pc.op, pc.sc, pc.left - {pick}));
    }
  }

  /** A call that uses op at or after since, and a sweep of op with no later cutoff. */
  predicate Uses(ch: Choice, op: Name, since: int) {
    && (ch.StartFetchAdd? && ch.op == op ==> ch.now >= since)
    && (ch.StartSweep? && ch.visit == op ==> ch.cutoff <= since)
  }

  lemma StartKeeps(s: State, t: Tid, ch: Choice, op: Name, since: int)
    requires UsedSince(s, op, since) && PcOf(s, t).Idle? && StartStep(s, t, ch).Some? && Uses(ch, op, since)
    ensures UsedSince(StartStep(s, t, ch).value, op, since)
  {
    var s2 := StartStep(s, t, ch).value;
    if ch.StartSweep? { assert PublishedOk(s.dir, ch.visit); }
    QuietRule(s, s2, op, since, t, StartMove(s.dir, s.books, t, ch).value.1);
  }

  lemma RegisterKeeps(s: State, t: Tid, addr: Ref, op: Name, since: int)
    requires UsedSince(s, op, since) && RegisterStep(s, t, addr).Some?
    ensures UsedSince(RegisterStep(s, t, addr).value, op, since)
  {
    var pc, s2 := PcOf(s, t), RegisterStep(s, t, addr).value;
    assert ThreadOk(s.dir, op, since, t, pc);
    match Entered(s.dir, s.books, pc, addr)
    case None => QuietRule(s, s2, op, since, t, IdemStore(pc.c, pc.sc));
    case Some(e) => QuietRule(s, s2, op, since, t, Unlock(pc.c, pc.sc, e));
  }

  lemma AdvanceKeeps(s: State, t: Tid, addr: Ref, seed: u64, op: Name, since: int)
    requires UsedSince(s, op, since) && AdvanceStep(s, t, addr, seed).Some?
    ensures UsedSince(AdvanceStep(s, t, addr, seed).value, op, since)
  {
    QuietRule(s, AdvanceStep(s, t, addr, seed).value, op, since, t,
              AdvanceMove(s.books, t, PcOf(s, t), addr, seed).value.1);
  }

  lemma StepKeeps(s: State, t: Tid, ch: Choice, op: Name, since: int)
    requires UsedSince(s, op, since) && Step(s, t, ch).Some? && Uses(ch, op, since)
    ensures UsedSince(Step(s, t, ch).value, op, since)
  {
    match PartOf(PcOf(s, t))
    case Starting => StartKeeps(s, t, ch, op, since);
    case Attaching =>
      if Finding(PcOf(s, t)) { FindKeeps(s, t, ch.addr, op, since); } else { LockKeeps(s, t, ch.addr, op, since); }
    case Registering => RegisterKeeps(s, t, ch.addr, op, since);
    case Advancing => AdvanceKeeps(s, t, ch.addr, ch.seed, op, since);
    case Evicting =>
      if PcOf(s, t).DropTake? || PcOf(s, t).DropLock? || PcOf(s, t).DropMark? {
        DropKeeps(s, t, op, since);
      } else {
        SweepKeeps(s, t, op, since);
      }
    case Clearing => ClearKeeps(s, t, ch.pick, op, since);
  }

  /** Every action of the run before n uses op at or after since. */
  ghost predicate RunUses(acts: seq<Action>, n: nat, op: Name, since: int) {
    forall i | 0 <= i < n && i < |acts| :: Uses(acts[i].ch, op, since)
  }

  lemma {:induction false} RunKeeps(r: seq<State>, acts: seq<Action>, n: nat, op: Name, since: int)
    requires IsRun(r, acts) && n < |r| && RunUses(acts, n, op, since)
    ensures UsedSince(r[n], op, since)
  {
    if n > 0 {
      RunKeeps(r, acts, n - 1, op, since);
      StepOf(r, acts, n - 1);
      StepKeeps(r[n - 1], acts[n - 1].t, acts[n - 1].ch, op, since);
    }
  }

  // ---------------------------------------------------------------- no sweep deletes the entry

  /** A thread that will delete entries of op: in DropScope, or in a deletion loop that has keys left. */
  predicate Drops(pc: Pc, op: Name) {
    (pc.DropTake? || pc.DropLock? || pc.DropMark? || (pc.Clear? && pc.left != {})) && pc.op == op
  }

  ghost predicate NoDrop(s: State, op: Name) {
    forall t | t in s.threads :: !Drops(s.threads[t], op)
  }

  lemma NoDropStays(r: seq<State>, acts: seq<Action>, i: nat, op: Name, since: int)
    requires IsRun(r, acts) && i < |acts| && UsedSince(r[i], op, since) && NoDrop(r[i], op)
    requires acts[i].ch != StartDropScope(op)
    ensures NoDrop(r[i + 1], op)
  {
    StepOf(r, acts, i);
    var t, pc := acts[i].t, PcOf(r[i], acts[i].t);
    if t in r[i].threads { assert ThreadOk(r[i].dir, op, since, t, pc); }
    assert !Drops(PcOf(r[i + 1], t), op);
    assert r[i + 1].threads == r[i].threads[t := PcOf(r[i + 1], t)];
  }

  lemma EntryStaysOnce(r: seq<State>, acts: seq<Action>, i: nat, k: IdemKey)
    requires IsRun(r, acts) && i < |acts| && NoDrop(r[i], k.op) && k in r[i].dir.idem
    ensures k in r[i + 1].dir.idem
  {
    StepOf(r, acts, i);
  }

  /** While op is used since, its entries stay until a DropScope of op. */
  lemma {:induction false} EntryStays(r: seq<State>, acts: seq<Action>, m: nat, n: nat, k: IdemKey, since: int)
    requires IsRun(r, acts) && m <= n < |r| && RunUses(acts, n, k.op, since)
    requires k in r[m].dir.idem && NoDrop(r[m], k.op)
    requires forall i | m <= i < n :: acts[i].ch != StartDropScope(k.op)
    ensures k in r[n].dir.idem && NoDrop(r[n], k.op)
    decreases n
  {
    if m < n {
      EntryStays(r, acts, m, n - 1, k, since);
      RunKeeps(r, acts, n - 1, k.op, since);
      NoDropStays(r, acts, n - 1, k.op, since);
      EntryStaysOnce(r, acts, n - 1, k);
    }
  }

  lemma RegisteredHasEntry(r: seq<State>, acts: seq<Action>, p: nat, id: nat, k: IdemKey)
    requires IsRun(r, acts) && p < |acts| && Counters.RegisteredIn(r, p, id, k)
    ensures k in r[p + 1].dir.idem
  {
    Counters.NextRemembers(r, acts, p);
  }

  /**
    * Two calls on one key and operation id return the same value, from one addition, if between their
    * registrations no DropScope of the id is in progress or begins, every FetchAdd of the id so far was at
    * or after some time, and no sweep visited it with a later cutoff.
    */
  lemma RetriesAgreeWhileUsed(r: seq<State>, acts: seq<Action>, p: nat, q: nat, n: nat, a: nat, b: nat, k: IdemKey,
                              since: int)
    requires IsRun(r, acts) && p <= q < n < |r|
    requires Counters.RegisteredIn(r, p, a, k) && Counters.RegisteredIn(r, q, b, k)
    requires RunUses(acts, q + 1, k.op, since) && NoDrop(r[p + 1], k.op)
    requires forall i | p < i <= q :: acts[i].ch != StartDropScope(k.op)
    requires a in r[n].books.results && b in r[n].books.results
    ensures r[n].books.results[a] == r[n].books.results[b]
    ensures a in r[n].books.regs
            && Counters.LoggedOnce(r[n].books.log, OfEntry(r[n].books.regs[a]), r[n].books.results[a])
  {
    RegisteredHasEntry(r, acts, p, a, k);
    forall m | p < m <= q + 1 ensures k in r[m].dir.idem { EntryStays(r, acts, p + 1, m, k, since); }
    Counters.RetriesAgree(r, acts, p, q, n, a, b, k);
  }
}
