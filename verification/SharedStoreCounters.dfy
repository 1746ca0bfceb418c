/**
  * Counter conservation and idempotency: the log of additions is a
  * linearization of all FetchAdd calls, each entry adds exactly once, and
  * calls that registered with the same entry return the same value.
  */
module SharedStoreCounters {
  import opened Common
  import opened SharedStore

  /** The sum of the deltas logged for key. */
  ghost function Total(log: seq<Advance>, key: Name): nat {
    if log == [] then 0
    else Total(log[..|log| - 1], key) + (if log[|log| - 1].key == key then log[|log| - 1].delta else 0)
  }

  lemma {:induction false} TotalAppend(log: seq<Advance>, a: Advance, key: Name)
    ensures Total(log + [a], key) == Total(log, key) + (if a.key == key then a.delta else 0)
  {
    assert (log + [a])[..|log|] == log;
  }

  lemma WrapIsMod(x: nat, d: u64)
    ensures WrapAdd(x % TWO64, d) == (x + d) % TWO64
    ensures WrapSub(WrapAdd(x % TWO64, d), d) == x % TWO64
  {
    var q, v := x / TWO64, x % TWO64;
    assert x + d == q * TWO64 + (v + d);
    if v + d < TWO64 {
      assert (x + d) % TWO64 == v + d;
    } else {
      assert x + d == (q + 1) * TWO64 + (v + d - TWO64);
      assert (x + d) % TWO64 == v + d - TWO64;
    }
  }

  type Threads = map<Tid, Pc>

  function PcCall(pc: Pc): Option<Call> {
    match pc
    case ScopeLoad(c) => Some(c)
    case ScopeStore(c) => Some(c)
    case Touch(c, _) => Some(c)
    case Lock(c, _) => Some(c)
    case CheckDeleted(c, _) => Some(c)
    case AddKey(c, _) => Some(c)
    case IdemLoad(c, _) => Some(c)
    case IdemStore(c, _) => Some(c)
    case Unlock(c, _, _) => Some(c)
    case EnterOnce(c, _) => Some(c)
    case CounterLoad(c, _) => Some(c)
    case CounterStore(c, _) => Some(c)
    case CounterAdd(c, _, _) => Some(c)
    case Record(c, _, _) => Some(c)
    case Return(c, _) => Some(c)
    case _ => None
  }

  function PcEntry(pc: Pc): Option<Ref> {
    match pc
    case Unlock(_, _, e) => Some(e)
    case EnterOnce(_, e) => Some(e)
    case CounterLoad(_, entry) => entry
    case CounterStore(_, entry) => entry
    case CounterAdd(_, entry, _) => entry
    case Record(_, e, _) => Some(e)
    case Return(_, e) => Some(e)
    case _ => None
  }

  /** Inside counterFor and before the addition. */
  predicate InCounter(pc: Pc) {
    pc.CounterLoad? || pc.CounterStore? || pc.CounterAdd?
  }

  /** The value the log says source was given. */
  ghost predicate Given(b: Books, source: Source, v: u64) {
    source in b.firedAt && b.firedAt[source] < |b.log| && b.log[b.firedAt[source]].previous == v
  }

  ghost predicate CallOk(b: Books, t: Tid, pc: Pc, c: Call) {
    && c.id in b.calls && b.calls[c.id] == c && c.tid == t && c.id !in b.results
    && (if PcEntry(pc).Some? then c.id in b.regs && b.regs[c.id] == PcEntry(pc).value else c.id !in b.regs)
    && (if InCounter(pc) && pc.entry.None? then c.op == NO_OP && OfCall(c.id) !in b.firedAt else c.op != NO_OP)
  }

  ghost predicate ThreadOk(b: Books, t: Tid, pc: Pc) {
    && (PcCall(pc).Some? ==> CallOk(b, t, pc, PcCall(pc).value))
    && (InCounter(pc) && pc.entry.Some? ==>
          && pc.entry.value in b.entries && b.entries[pc.entry.value].once == Running(t)
          && OfEntry(pc.entry.value) !in b.firedAt)
    && (pc.Record? ==> pc.e in b.entries && b.entries[pc.e].once == Running(t) && Given(b, OfEntry(pc.e), pc.previous))
    && (pc.Return? ==> pc.e in b.entries && b.entries[pc.e].once == Fired)
    && (pc.CounterAdd? ==> pc.c.key in b.counters && b.counters[pc.c.key] == pc.cell)
  }

  /** The thread that runs an entry's once is inside counterFor, or about to record the result. */
  predicate Runs(pc: Pc, e: Ref) {
    PcEntry(pc) == Some(e) && (InCounter(pc) || pc.Record?)
  }

  ghost predicate EntryOk(b: Books, ths: Threads, e: Ref) {
    e in b.entries ==>
      match b.entries[e].once
      case Fresh => OfEntry(e) !in b.firedAt
      case Running(u) => u in ths && Runs(ths[u], e)
      case Fired => Given(b, OfEntry(e), b.entries[e].previous)
  }

  ghost predicate RegOk(b: Books, id: nat) {
    id in b.regs ==>
      && id in b.calls && b.calls[id].op != NO_OP
      && b.regs[id] in b.entries && b.entries[b.regs[id]].at == b.calls[id].At()
  }

  /** What a finished call returned. */
  ghost predicate ResultOk(b: Books, id: nat) {
    id in b.results ==>
      && id in b.calls
      && if id in b.regs
         then b.regs[id] in b.entries && b.entries[b.regs[id]].once == Fired
              && b.entries[b.regs[id]].previous == b.results[id]
         else b.calls[id].op == NO_OP && Given(b, OfCall(id), b.results[id])
  }

  ghost predicate IdemOk(b: Books, idem: map<IdemKey, Ref>, k: IdemKey) {
    k in idem ==> idem[k] in b.entries && b.entries[idem[k]].at == k
  }

  /** A counter is its first value plus everything logged for it, modulo 2^64. */
  ghost predicate CounterOk(b: Books, key: Name) {
    && (key in b.born <==> key in b.counters)
    && (key in b.counters ==>
          && b.counters[key] in b.cells && b.cells[b.counters[key]].key == key
          && b.cells[b.counters[key]].value == (b.born[key] + Total(b.log, key)) % TWO64)
  }

  /** The addition is by a call on its key with its delta: the entry's, registered with it, or the plain call itself. */
  ghost predicate ByCall(b: Books, a: Advance) {
    && a.caller in b.calls && b.calls[a.caller].key == a.key && b.calls[a.caller].delta == a.delta
    && match a.source
       case OfEntry(e) => e in b.entries && b.entries[e].at.key == a.key && a.caller in b.regs && b.regs[a.caller] == e
       case OfCall(id) => id == a.caller && b.calls[id].op == NO_OP
  }

  /** Position i of the log: its source stands nowhere else, and it was given the running total. */
  ghost predicate LogOk(b: Books, i: nat) {
    i < |b.log| ==>
      var a := b.log[i];
      && a.key in b.counters && a.key in b.born
      && a.previous == (b.born[a.key] + Total(b.log[..i], a.key)) % TWO64
      && a.source in b.firedAt && b.firedAt[a.source] == i && ByCall(b, a)
  }

  ghost predicate FiredOk(b: Books, source: Source) {
    source in b.firedAt ==> b.firedAt[source] < |b.log| && b.log[b.firedAt[source]].source == source
  }

  ghost predicate BookInv(b: Books, idem: map<IdemKey, Ref>, ths: Threads) {
    && (forall t {:trigger ThreadOk(b, t, ths[t])} | t in ths :: ThreadOk(b, t, ths[t]))
    && (forall e {:trigger EntryOk(b, ths, e)} :: EntryOk(b, ths, e))
    && (forall id {:trigger RegOk(b, id)} :: RegOk(b, id))
    && (forall id {:trigger ResultOk(b, id)} :: ResultOk(b, id))
    && (forall k {:trigger IdemOk(b, idem, k)} :: IdemOk(b, idem, k))
    && (forall key {:trigger CounterOk(b, key)} :: CounterOk(b, key))
    && (forall i {:trigger LogOk(b, i)} :: LogOk(b, i))
    && (forall source {:trigger FiredOk(b, source)} :: FiredOk(b, source))
  }

  ghost predicate CounterInv(s: State) {
    BookInv(s.books, s.dir.idem, s.threads)
  }

  // ---------------------------------------------------------------- one step

  ghost predicate SubMap<K(!new), V>(m: map<K, V>, m2: map<K, V>) {
    forall k | k in m :: k in m2 && m2[k] == m[k]
  }

  /** An entry as t may leave it. */
  ghost predicate EntryMay(b: Books, b2: Books, t: Tid, e: Ref) {
    e in b.entries ==>
      && e in b2.entries && b2.entries[e].at == b.entries[e].at
      && (b2.entries[e] == b.entries[e] || b.entries[e].once == Fresh || b.entries[e].once == Running(t))
  }

  /** Only t's own calls and the entries it runs fire. */
  ghost predicate FiresOwn(b: Books, b2: Books, t: Tid, source: Source) {
    source in b2.firedAt && source !in b.firedAt ==>
      match source
      case OfEntry(e) => e in b.entries && b.entries[e].once == Running(t)
      case OfCall(id) => id in b.calls && b.calls[id].tid == t
  }

  /** Everything a step of t may do to what the other threads rely on. */
  ghost predicate Grew(b: Books, b2: Books, t: Tid) {
    && SubMap(b.calls, b2.calls) && SubMap(b.regs, b2.regs) && SubMap(b.results, b2.results)
    && SubMap(b.firedAt, b2.firedAt) && SubMap(b.counters, b2.counters) && SubMap(b.born, b2.born)
    && b.log <= b2.log
    && (forall id | id in b2.regs && id !in b.regs :: id in b.calls && b.calls[id].tid == t)
    && (forall id | id in b2.results && id !in b.results :: id in b.calls && b.calls[id].tid == t)
    && (forall e {:trigger EntryMay(b, b2, t, e)} :: EntryMay(b, b2, t, e))
    && (forall source {:trigger FiresOwn(b, b2, t, source)} :: FiresOwn(b, b2, t, source))
  }

  lemma OthersKeepCall(b: Books, b2: Books, t: Tid, u: Tid, pc: Pc, c: Call)
    requires Grew(b, b2, t) && u != t && CallOk(b, u, pc, c)
    ensures CallOk(b2, u, pc, c)
  {
    assert FiresOwn(b, b2, t, OfCall(c.id));
  }

  lemma OthersKeepEntry(b: Books, b2: Books, t: Tid, u: Tid, pc: Pc, e: Ref)
    requires Grew(b, b2, t) && u != t && ThreadOk(b, u, pc) && PcEntry(pc) == Some(e)
    ensures InCounter(pc) ==> e in b2.entries && b2.entries[e].once == Running(u) && OfEntry(e) !in b2.firedAt
    ensures pc.Record? ==> e in b2.entries && b2.entries[e].once == Running(u) && Given(b2, OfEntry(e), pc.previous)
    ensures pc.Return? ==> e in b2.entries && b2.entries[e].once == Fired
  {
    assert EntryMay(b, b2, t, e) && FiresOwn(b, b2, t, OfEntry(e));
  }

  lemma OthersKeep(b: Books, b2: Books, t: Tid, u: Tid, pc: Pc)
    requires Grew(b, b2, t) && u != t && ThreadOk(b, u, pc)
    ensures ThreadOk(b2, u, pc)
  {
    if PcCall(pc).Some? { OthersKeepCall(b, b2, t, u, pc, PcCall(pc).value); }
    if PcEntry(pc).Some? { OthersKeepEntry(b, b2, t, u, pc, PcEntry(pc).value); }
  }

  lemma EntriesKeep(b: Books, b2: Books, ths: Threads, t: Tid, pc: Pc, e: Ref)
    requires Grew(b, b2, t) && e in b.entries && e in b2.entries && EntryOk(b, ths, e)
             && b2.entries[e] == b.entries[e] && b.entries[e].once != Running(t)
    ensures EntryOk(b2, ths[t := pc], e)
  {
    assert FiresOwn(b, b2, t, OfEntry(e));
  }

  lemma LogKeeps(b: Books, b2: Books, t: Tid, i: nat)
    requires Grew(b, b2, t) && i < |b.log| && LogOk(b, i)
    ensures LogOk(b2, i)
  {
    assert b2.log[..i] == b.log[..i];
    if b.log[i].source.OfEntry? { assert EntryMay(b, b2, t, b.log[i].source.e); }
  }

  lemma RegKeeps(b: Books, b2: Books, t: Tid, id: nat)
    requires Grew(b, b2, t) && id in b.regs && RegOk(b, id)
    ensures RegOk(b2, id)
  {
    assert EntryMay(b, b2, t, b.regs[id]);
  }

  lemma ResultKeeps(b: Books, b2: Books, t: Tid, id: nat)
    requires Grew(b, b2, t) && id in b.results && ResultOk(b, id)
    requires id in b2.regs ==> id in b.regs
    ensures ResultOk(b2, id)
  {
    if id in b.regs { assert EntryMay(b, b2, t, b.regs[id]); }
  }

  /** What has to be shown of t's own step about entries: the new, the changed, and the ones it runs. */
  ghost predicate EntryMine(b: Books, b2: Books, t: Tid, e: Ref) {
    e in b2.entries && (e !in b.entries || b2.entries[e] != b.entries[e] || b.entries[e].once == Running(t))
  }

  /** What remains to be shown of a step: the facts about t and about whatever is new. */
  lemma StepRule(b: Books, b2: Books, idem: map<IdemKey, Ref>, idem2: map<IdemKey, Ref>, ths: Threads, t: Tid, pc: Pc)
    requires BookInv(b, idem, ths) && Grew(b, b2, t) && ThreadOk(b2, t, pc)
    requires forall e | EntryMine(b, b2, t, e) :: EntryOk(b2, ths[t := pc], e)
    requires forall id | id in b2.regs && id !in b.regs :: id !in b.results && RegOk(b2, id)
    requires forall id | id in b2.results && id !in b.results :: ResultOk(b2, id)
    requires forall k | k in idem2 && (k !in idem || idem2[k] != idem[k]) :: IdemOk(b2, idem2, k)
    requires forall key :: CounterOk(b2, key)
    requires forall i: nat | |b.log| <= i < |b2.log| :: LogOk(b2, i)
    requires forall source | source in b2.firedAt && source !in b.firedAt :: FiredOk(b2, source)
    ensures BookInv(b2, idem2, ths[t := pc])
  {
    var ths2 := ths[t := pc];
    forall u | u in ths2 ensures ThreadOk(b2, u, ths2[u]) {
      if u != t { assert ThreadOk(b, u, ths[u]); OthersKeep(b, b2, t, u, ths[u]); }
    }
    forall e ensures EntryOk(b2, ths2, e) {
      assert EntryOk(b, ths, e);
      if e in b2.entries && !EntryMine(b, b2, t, e) { EntriesKeep(b, b2, ths, t, pc, e); }
    }
    forall id ensures RegOk(b2, id) { assert RegOk(b, id); if id in b.regs { RegKeeps(b, b2, t, id); } }
    forall id ensures ResultOk(b2, id) { assert ResultOk(b, id); if id in b.results { ResultKeeps(b, b2, t, id); } }
    forall k ensures IdemOk(b2, idem2, k) {
      assert IdemOk(b, idem, k); if k in idem { assert EntryMay(b, b2, t, idem[k]); }
    }
    forall i: nat ensures LogOk(b2, i) { assert LogOk(b, i); if i < |b.log| { LogKeeps(b, b2, t, i); } }
    forall source ensures FiredOk(b2, source) { assert FiredOk(b, source); }
  }

  /** The same for a step that leaves counters and log alone. */
  lemma QuietRule(b: Books, b2: Books, idem: map<IdemKey, Ref>, idem2: map<IdemKey, Ref>, ths: Threads, t: Tid, pc: Pc)
    requires BookInv(b, idem, ths) && Grew(b, b2, t) && ThreadOk(b2, t, pc)
    requires b2.log == b.log && b2.counters == b.counters && b2.cells == b.cells && b2.born == b.born
             && b2.firedAt == b.firedAt
    requires forall e | EntryMine(b, b2, t, e) :: EntryOk(b2, ths[t := pc], e)
    requires forall id | id in b2.regs && id !in b.regs :: id !in b.results && RegOk(b2, id)
    requires forall id | id in b2.results && id !in b.results :: ResultOk(b2, id)
    requires forall k | k in idem2 && (k !in idem || idem2[k] != idem[k]) :: IdemOk(b2, idem2, k)
    ensures BookInv(b2, idem2, ths[t := pc])
  {
    forall key ensures CounterOk(b2, key) { assert CounterOk(b, key); }
    StepRule(b, b2, idem, idem2, ths, t, pc);
  }

  lemma SameGrew(b: Books, t: Tid)
    ensures Grew(b, b, t)
  {
    forall e ensures EntryMay(b, b, t, e) {}
    forall source ensures FiresOwn(b, b, t, source) {}
  }

  /** A step that leaves the books alone; entries may leave the table. */
  lemma MoveRule(b: Books, idem: map<IdemKey, Ref>, idem2: map<IdemKey, Ref>, ths: Threads, t: Tid, from: Pc, pc: Pc)
    requires BookInv(b, idem, ths) && SubMap(idem2, idem) && ThreadOk(b, t, pc)
    requires from == (if t in ths then ths[t] else Idle) && forall e | Runs(from, e) :: Runs(pc, e)
    ensures BookInv(b, idem2, ths[t := pc])
  {
    SameGrew(b, t);
    forall e ensures EntryMine(b, b, t, e) ==> EntryOk(b, ths[t := pc], e) { assert EntryOk(b, ths, e); }
    QuietRule(b, b, idem, idem2, ths, t, pc);
  }

  // ---------------------------------------------------------------- every step

  /** A thread outside counterFor runs no entry. */
  lemma RunsNone(b: Books, idem: map<IdemKey, Ref>, ths: Threads, t: Tid)
    requires BookInv(b, idem, ths) && (t in ths ==> !InCounter(ths[t]) && !ths[t].Record?)
    ensures forall e | e in b.entries :: b.entries[e].once != Running(t)
  {
    forall e | e in b.entries ensures b.entries[e].once != Running(t) { assert EntryOk(b, ths, e); }
  }

  lemma FiredIsKnown(b: Books, idem: map<IdemKey, Ref>, ths: Threads, source: Source)
    requires BookInv(b, idem, ths)
    ensures source in b.firedAt ==> match source case OfEntry(e) => e in b.entries case OfCall(id) => id in b.calls
  {
    assert FiredOk(b, source);
    if source in b.firedAt { assert LogOk(b, b.firedAt[source]); }
  }

  lemma BeginKeeps(s: State, t: Tid, c: Call)
    requires CounterInv(s) && PcOf(s, t).Idle? && c.id !in s.books.calls && c.tid == t
    ensures BookInv(s.books.(calls := s.books.calls[c.id := c]), s.dir.idem,
                    s.threads[t := if c.op == NO_OP then CounterLoad(c, None) else ScopeLoad(c)])
  {
    var b, pc := s.books, if c.op == NO_OP then CounterLoad(c, None) else ScopeLoad(c);
    var b2 := b.(calls := b.calls[c.id := c]);
    assert RegOk(b, c.id) && ResultOk(b, c.id);
    FiredIsKnown(b, s.dir.idem, s.threads, OfCall(c.id));
    RunsNone(b, s.dir.idem, s.threads, t);
    forall e ensures EntryMay(b, b2, t, e) {}
    forall source ensures FiresOwn(b, b2, t, source) {}
    QuietRule(b, b2, s.dir.idem, s.dir.idem, s.threads, t, pc);
  }

  lemma StartKeeps(s: State, t: Tid, ch: Choice)
    requires CounterInv(s) && PcOf(s, t).Idle? && StartStep(s, t, ch).Some?
    ensures CounterInv(StartStep(s, t, ch).value)
  {
    var pc := StartMove(s.dir, s.books, t, ch).value.1;
    match ch
    case StartFetchAdd(id, key, delta, op, now) => BeginKeeps(s, t, Call(id, t, key, delta, op, now));
    case StartDropScope(op) =>
      if op == NO_OP {} else {}
      MoveRule(s.books, s.dir.idem, s.dir.idem, s.threads, t, Idle, pc);
    case StartSweep(op, cutoff) => MoveRule(s.books, s.dir.idem, s.dir.idem, s.threads, t, Idle, pc);
  }

  lemma EvictIsSilent(d: Directory, t: Tid, pc: Pc)
    requires EvictMove(d, t, pc).Some?
    ensures EvictMove(d, t, pc).value.0.idem == d.idem
    ensures PcCall(pc).None? && PcCall(EvictMove(d, t, pc).value.1).None?
  {
    match pc
    case DropTake(op) => if op in d.scopes {} else {}
    case DropLock(op, sc) =>
    case DropMark(op, sc) =>
    case SweepPeek(op, sc, cutoff) =>
    case SweepLock(op, sc, cutoff) =>
    case SweepRecheck(op, sc, cutoff) => if d.heap[sc].touched >= cutoff {} else {}
    case SweepMark(op, sc) =>
    case SweepUnpublish(op, sc) =>
  }

  lemma EvictKeeps(s: State, t: Tid)
    requires CounterInv(s) && EvictStep(s, t).Some?
    ensures CounterInv(EvictStep(s, t).value)
  {
    EvictIsSilent(s.dir, t, PcOf(s, t));
    var (d, pc) := EvictMove(s.dir, t, PcOf(s, t)).value;
    MoveRule(s.books, s.dir.idem, d.idem, s.threads, t, PcOf(s, t), pc);
  }

  lemma ClearKeeps(s: State, t: Tid, pick: Name)
    requires CounterInv(s) && ClearStep(s, t, pick).Some?
    ensures CounterInv(ClearStep(s, t, pick).value)
  {
    var (d, pc) := ClearMove(s.dir, PcOf(s, t), pick).value;
    if PcOf(s, t).left == {} {} else {}
    MoveRule(s.books, s.dir.idem, d.idem, s.threads, t, PcOf(s, t), pc);
  }

  lemma AttachIsSilent(d: Directory, t: Tid, pc: Pc, addr: Ref)
    requires AttachMove(d, t, pc, addr).Some?
    ensures var (d2, pc2) := AttachMove(d, t, pc, addr).value;
            && d2.idem == d.idem && PcCall(pc).Some? && PcCall(pc2) == PcCall(pc) && PcEntry(pc2) == PcEntry(pc)
            && !InCounter(pc) && !InCounter(pc2) && !pc.Record? && !pc2.Record? && !pc2.Return?
  {
    match pc
    case ScopeLoad(c) => if c.op in d.scopes {} else {}
    case ScopeStore(c) => if c.op in d.scopes {} else {}
    case Touch(c, sc) =>
    case Lock(c, sc) =>
    case CheckDeleted(c, sc) => if d.heap[sc].deleted {} else {}
    case AddKey(c, sc) =>
    case Unlock(c, sc, e) =>
  }

  lemma AttachKeeps(s: State, t: Tid, addr: Ref)
    requires CounterInv(s) && AttachStep(s, t, addr).Some?
    ensures CounterInv(AttachStep(s, t, addr).value)
  {
    AttachIsSilent(s.dir, t, PcOf(s, t), addr);
    assert ThreadOk(s.books, t, PcOf(s, t));
    var (d, pc) := AttachMove(s.dir, t, PcOf(s, t), addr).value;
    MoveRule(s.books, s.dir.idem, d.idem, s.threads, t, PcOf(s, t), pc);
  }

  lemma RegisterHitKeeps(s: State, t: Tid, addr: Ref)
    requires CounterInv(s) && AtIdem(PcOf(s, t)) && PcOf(s, t).c.At() in s.dir.idem
    ensures CounterInv(RegisterStep(s, t, addr).value)
  {
    var b, pc := s.books, PcOf(s, t);
    var e := s.dir.idem[pc.c.At()];
    var b2 := b.(regs := b.regs[pc.c.id := e]);
    assert ThreadOk(b, t, pc) && IdemOk(b, s.dir.idem, pc.c.At());
    RunsNone(b, s.dir.idem, s.threads, t);
    forall x ensures EntryMay(b, b2, t, x) {}
    forall source ensures FiresOwn(b, b2, t, source) {}
    QuietRule(b, b2, s.dir.idem, s.dir.idem, s.threads, t, Unlock(pc.c, pc.sc, e));
  }

  lemma EntryGrew(b: Books, k: IdemKey, addr: Ref, id: nat, t: Tid)
    requires addr !in b.entries && id !in b.regs && id in b.calls && b.calls[id].tid == t
    ensures Grew(b, b.(entries := b.entries[addr := Entry(k, Fresh, 0)], regs := b.regs[id := addr]), t)
  {
    var b2 := b.(entries := b.entries[addr := Entry(k, Fresh, 0)], regs := b.regs[id := addr]);
    forall x ensures EntryMay(b, b2, t, x) {}
    forall source ensures FiresOwn(b, b2, t, source) {}
  }

  lemma RegisterNewKeeps(s: State, t: Tid, addr: Ref)
    requires CounterInv(s) && PcOf(s, t).IdemStore? && PcOf(s, t).c.At() !in s.dir.idem && addr !in s.books.entries
    ensures CounterInv(RegisterStep(s, t, addr).value)
  {
    var b, pc := s.books, PcOf(s, t);
    var k := pc.c.At();
    var b2 := b.(entries := b.entries[addr := Entry(k, Fresh, 0)], regs := b.regs[pc.c.id := addr]);
    assert ThreadOk(b, t, pc);
    FiredIsKnown(b, s.dir.idem, s.threads, OfEntry(addr));
    RunsNone(b, s.dir.idem, s.threads, t);
    EntryGrew(b, k, addr, pc.c.id, t);
    QuietRule(b, b2, s.dir.idem, s.dir.idem[k := addr], s.threads, t, Unlock(pc.c, pc.sc, addr));
  }

  lemma RegisterKeeps(s: State, t: Tid, addr: Ref)
    requires CounterInv(s) && RegisterStep(s, t, addr).Some?
    ensures CounterInv(RegisterStep(s, t, addr).value)
  {
    var pc := PcOf(s, t);
    assert ThreadOk(s.books, t, pc);
    if pc.c.At() in s.dir.idem {
      RegisterHitKeeps(s, t, addr);
    } else if pc.IdemStore? {
      RegisterNewKeeps(s, t, addr);
    } else {
      MoveRule(s.books, s.dir.idem, s.dir.idem, s.threads, t, pc, IdemStore(pc.c, pc.sc));
    }
  }

  lemma EnterOnceKeeps(b: Books, idem: map<IdemKey, Ref>, ths: Threads, t: Tid, c: Call, e: Ref)
    requires BookInv(b, idem, ths) && t in ths && ths[t] == EnterOnce(c, e) && e in b.entries
             && b.entries[e].once.Fresh?
    ensures BookInv(b.(entries := b.entries[e := b.entries[e].(once := Running(t))]), idem,
                    ths[t := CounterLoad(c, Some(e))])
  {
    var b2 := b.(entries := b.entries[e := b.entries[e].(once := Running(t))]);
    assert ThreadOk(b, t, ths[t]) && EntryOk(b, ths, e);
    RunsNone(b, idem, ths, t);
    forall x ensures EntryMay(b, b2, t, x) {}
    forall source ensures FiresOwn(b, b2, t, source) {}
    QuietRule(b, b2, idem, idem, ths, t, CounterLoad(c, Some(e)));
  }

  lemma RecordKeeps(b: Books, idem: map<IdemKey, Ref>, ths: Threads, t: Tid, c: Call, e: Ref, v: u64)
    requires BookInv(b, idem, ths) && t in ths && ths[t] == Record(c, e, v) && e in b.entries
    ensures BookInv(b.(entries := b.entries[e := b.entries[e].(once := Fired, previous := v)]), idem,
                    ths[t := Return(c, e)])
  {
    var b2 := b.(entries := b.entries[e := b.entries[e].(once := Fired, previous := v)]);
    assert ThreadOk(b, t, ths[t]);
    forall x ensures EntryMay(b, b2, t, x) {}
    forall source ensures FiresOwn(b, b2, t, source) {}
    forall x ensures EntryMine(b, b2, t, x) ==> EntryOk(b2, ths[t := Return(c, e)], x) { assert EntryOk(b, ths, x); }
    QuietRule(b, b2, idem, idem, ths, t, Return(c, e));
  }

  lemma ReturnKeeps(b: Books, idem: map<IdemKey, Ref>, ths: Threads, t: Tid, c: Call, e: Ref)
    requires BookInv(b, idem, ths) && t in ths && ths[t] == Return(c, e) && e in b.entries
    ensures BookInv(Answered(b, c, b.entries[e].previous), idem, ths[t := Idle])
  {
    var b2 := Answered(b, c, b.entries[e].previous);
    assert ThreadOk(b, t, ths[t]);
    RunsNone(b, idem, ths, t);
    forall x ensures EntryMay(b, b2, t, x) {}
    forall source ensures FiresOwn(b, b2, t, source) {}
    QuietRule(b, b2, idem, idem, ths, t, Idle);
  }

  lemma {:induction false} NoLogNoTotal(log: seq<Advance>, key: Name)
    requires forall i | 0 <= i < |log| :: log[i].key != key
    ensures Total(log, key) == 0
  {
    if log != [] { NoLogNoTotal(log[..|log| - 1], key); }
  }

  /** A counter starts at the value it was published with: nothing was logged for it before. */
  lemma PublishedCounts(b: Books, idem: map<IdemKey, Ref>, ths: Threads, key: Name, addr: Ref, seed: u64)
    requires BookInv(b, idem, ths) && key !in b.counters && addr !in b.cells
    ensures forall k :: CounterOk(WithCounter(b, key, addr, seed), k)
  {
    var b2 := WithCounter(b, key, addr, seed);
    forall i: nat | i < |b.log| ensures b.log[i].key != key { assert LogOk(b, i); }
    NoLogNoTotal(b.log, key);
    forall k ensures CounterOk(b2, k) { assert CounterOk(b, k); }
  }

  lemma CounterGrew(b: Books, key: Name, addr: Ref, seed: u64, t: Tid)
    requires key !in b.counters && key !in b.born
    ensures Grew(b, WithCounter(b, key, addr, seed), t)
  {
    var b2 := WithCounter(b, key, addr, seed);
    forall x ensures EntryMay(b, b2, t, x) {}
    forall source ensures FiresOwn(b, b2, t, source) {}
  }

  lemma PublishKeeps(b: Books, idem: map<IdemKey, Ref>, ths: Threads, t: Tid, c: Call, entry: Option<Ref>, addr: Ref,
                     seed: u64)
    requires BookInv(b, idem, ths) && t in ths && ths[t] == CounterStore(c, entry) && c.key !in b.counters
             && addr !in b.cells
    ensures BookInv(WithCounter(b, c.key, addr, seed), idem, ths[t := CounterAdd(c, entry, addr)])
  {
    var b2 := WithCounter(b, c.key, addr, seed);
    assert ThreadOk(b, t, ths[t]) && CounterOk(b, c.key);
    PublishedCounts(b, idem, ths, c.key, addr, seed);
    CounterGrew(b, c.key, addr, seed, t);
    forall x ensures EntryMine(b, b2, t, x) ==> EntryOk(b2, ths[t := CounterAdd(c, entry, addr)], x) {
      assert EntryOk(b, ths, x);
    }
    StepRule(b, b2, idem, idem, ths, t, CounterAdd(c, entry, addr));
  }

  /** The addition keeps every counter equal to its first value plus its total. */
  lemma AddedCounts(b: Books, c: Call, source: Source, cell: Ref)
    requires forall key {:trigger CounterOk(b, key)} :: CounterOk(b, key)
    requires c.key in b.counters && b.counters[c.key] == cell && cell in b.cells
    ensures forall key :: CounterOk(Added(b, c, source, cell), key)
    ensures c.key in b.born
            && Added(b, c, source, cell).log[|b.log|].previous == (b.born[c.key] + Total(b.log, c.key)) % TWO64
  {
    var b2 := Added(b, c, source, cell);
    assert CounterOk(b, c.key);
    WrapIsMod(b.born[c.key] + Total(b.log, c.key), c.delta);
    forall key ensures CounterOk(b2, key) {
      assert CounterOk(b, key);
      TotalAppend(b.log, b2.log[|b.log|], key);
    }
  }

  /** What the addition leaves as it was. */
  lemma AddedGrew(b: Books, c: Call, source: Source, cell: Ref, t: Tid)
    requires cell in b.cells && source !in b.firedAt
    requires match source
             case OfEntry(e) => e in b.entries && b.entries[e].once == Running(t)
             case OfCall(id) => id in b.calls && b.calls[id].tid == t
    ensures Grew(b, Added(b, c, source, cell), t)
  {
    var b2 := Added(b, c, source, cell);
    forall x ensures EntryMay(b, b2, t, x) {}
    forall src ensures FiresOwn(b, b2, t, src) {}
  }

  lemma AddByEntryKeeps(b: Books, idem: map<IdemKey, Ref>, ths: Threads, t: Tid, c: Call, e: Ref, cell: Ref)
    requires BookInv(b, idem, ths) && t in ths && ths[t] == CounterAdd(c, Some(e), cell) && cell in b.cells
    ensures var b2 := Added(b, c, OfEntry(e), cell); BookInv(b2, idem, ths[t := Record(c, e, b2.log[|b.log|].previous)])
  {
    var b2 := Added(b, c, OfEntry(e), cell);
    var pc := Record(c, e, b2.log[|b.log|].previous);
    assert ThreadOk(b, t, ths[t]) && RegOk(b, c.id);
    AddedGrew(b, c, OfEntry(e), cell, t);
    AddedCounts(b, c, OfEntry(e), cell);
    assert b2.log[..|b.log|] == b.log;
    assert LogOk(b2, |b.log|);
    forall x ensures EntryMine(b, b2, t, x) ==> EntryOk(b2, ths[t := pc], x) { assert EntryOk(b, ths, x); }
    StepRule(b, b2, idem, idem, ths, t, pc);
  }

  lemma AnswerGrew(b: Books, b1: Books, c: Call, v: u64, t: Tid)
    requires Grew(b, b1, t) && c.id !in b1.results && c.id !in b.results && c.id in b.calls && b.calls[c.id].tid == t
    ensures Grew(b, Answered(b1, c, v), t)
  {
    var b2 := Answered(b1, c, v);
    forall x ensures EntryMay(b, b2, t, x) { assert EntryMay(b, b1, t, x); }
    forall src ensures FiresOwn(b, b2, t, src) { assert FiresOwn(b, b1, t, src); }
  }

  /** A plain call's addition and its answer keep the counters and are logged as that call's. */
  lemma CallCounts(b: Books, c: Call, cell: Ref)
    requires forall key {:trigger CounterOk(b, key)} :: CounterOk(b, key)
    requires c.key in b.counters && b.counters[c.key] == cell && cell in b.cells
    requires c.op == NO_OP && c.id in b.calls && b.calls[c.id] == c
    ensures var b1 := Added(b, c, OfCall(c.id), cell);
            var b2 := Answered(b1, c, b1.log[|b.log|].previous);
            (forall key :: CounterOk(b2, key)) && LogOk(b2, |b.log|)
  {
    var b1 := Added(b, c, OfCall(c.id), cell);
    var b2 := Answered(b1, c, b1.log[|b.log|].previous);
    AddedCounts(b, c, OfCall(c.id), cell);
    forall key ensures CounterOk(b2, key) { assert CounterOk(b1, key); }
    assert b2.log[..|b.log|] == b.log;
  }

  lemma AddByCallKeeps(b: Books, idem: map<IdemKey, Ref>, ths: Threads, t: Tid, c: Call, cell: Ref)
    requires BookInv(b, idem, ths) && t in ths && ths[t] == CounterAdd(c, None, cell) && cell in b.cells
    ensures var b1 := Added(b, c, OfCall(c.id), cell);
            BookInv(Answered(b1, c, b1.log[|b.log|].previous), idem, ths[t := Idle])
  {
    var b1 := Added(b, c, OfCall(c.id), cell);
    var b2 := Answered(b1, c, b1.log[|b.log|].previous);
    assert ThreadOk(b, t, ths[t]);
    AddedGrew(b, c, OfCall(c.id), cell, t);
    AnswerGrew(b, b1, c, b1.log[|b.log|].previous, t);
    CallCounts(b, c, cell);
    forall x ensures EntryMine(b, b2, t, x) ==> EntryOk(b2, ths[t := Idle], x) { assert EntryOk(b, ths, x); }
    StepRule(b, b2, idem, idem, ths, t, Idle);
  }

  lemma AdvanceKeeps(s: State, t: Tid, addr: Ref, seed: u64)
    requires CounterInv(s) && AdvanceStep(s, t, addr, seed).Some?
    ensures CounterInv(AdvanceStep(s, t, addr, seed).value)
  {
    var b, idem, ths, pc := s.books, s.dir.idem, s.threads, PcOf(s, t);
    assert ThreadOk(b, t, pc);
    match pc
    case EnterOnce(c, e) =>
      if b.entries[e].once.Fresh? {
        EnterOnceKeeps(b, idem, ths, t, c, e);
      } else {
        MoveRule(b, idem, idem, ths, t, pc, Return(c, e));
      }
    case CounterLoad(c, entry) =>
      MoveRule(b, idem, idem, ths, t, pc,
               if c.key in b.counters then CounterAdd(c, entry, b.counters[c.key]) else CounterStore(c, entry));
    case CounterStore(c, entry) =>
      if c.key in b.counters { MoveRule(b, idem, idem, ths, t, pc, CounterAdd(c, entry, b.counters[c.key])); }
      else { PublishKeeps(b, idem, ths, t, c, entry, addr, seed); }
    case CounterAdd(c, entry, cell) =>
      if entry.Some? {
        AddByEntryKeeps(b, idem, ths, t, c, entry.value, cell);
      } else {
        AddByCallKeeps(b, idem, ths, t, c, cell);
      }
    case Record(c, e, previous) => RecordKeeps(b, idem, ths, t, c, e, previous);
    case Return(c, e) => ReturnKeeps(b, idem, ths, t, c, e);
  }

  lemma StepKeeps(s: State, t: Tid, ch: Choice)
    requires CounterInv(s) && Step(s, t, ch).Some?
    ensures CounterInv(Step(s, t, ch).value)
  {
    match PartOf(PcOf(s, t))
    case Starting => StartKeeps(s, t, ch);
    case Attaching => AttachKeeps(s, t, ch.addr);
    case Registering => RegisterKeeps(s, t, ch.addr);
    case Advancing => AdvanceKeeps(s, t, ch.addr, ch.seed);
    case Evicting => EvictKeeps(s, t);
    case Clearing => ClearKeeps(s, t, ch.pick);
  }

  lemma {:induction false} RunKeeps(r: seq<State>, acts: seq<Action>, n: nat)
    requires IsRun(r, acts) && n < |r|
    ensures CounterInv(r[n])
  {
    if n > 0 {
      RunKeeps(r, acts, n - 1);
      StepOf(r, acts, n - 1);
      StepKeeps(r[n - 1], acts[n - 1].t, acts[n - 1].ch);
    }
  }

  // ---------------------------------------------------------------- whole runs

  /** What no step ever takes back. */
  ghost predicate Remembers(b: Books, b2: Books) {
    && SubMap(b.calls, b2.calls) && SubMap(b.regs, b2.regs) && SubMap(b.results, b2.results)
    && SubMap(b.born, b2.born) && b.log <= b2.log
  }

  /** An idempotency key keeps its entry until it is deleted, and calls register with that entry. */
  ghost predicate Registers(s: State, s2: State) {
    && (forall k | k in s.dir.idem && k in s2.dir.idem :: s2.dir.idem[k] == s.dir.idem[k])
    && (forall id | id in s2.books.regs && id !in s.books.regs ::
          id in s2.books.calls && s2.books.calls[id].At() in s2.dir.idem
          && s2.dir.idem[s2.books.calls[id].At()] == s2.books.regs[id])
  }

  lemma StartRemembers(s: State, t: Tid, ch: Choice)
    requires StartStep(s, t, ch).Some?
    ensures Remembers(s.books, StartStep(s, t, ch).value.books) && Registers(s, StartStep(s, t, ch).value)
  {
    match ch
    case StartFetchAdd(_, _, _, _, _) =>
    case StartDropScope(op) => if op == NO_OP {} else {}
    case StartSweep(_, _) =>
  }

  lemma RegisterRemembers(s: State, t: Tid, addr: Ref)
    requires CounterInv(s) && RegisterStep(s, t, addr).Some?
    ensures Remembers(s.books, RegisterStep(s, t, addr).value.books) && Registers(s, RegisterStep(s, t, addr).value)
  {
    var pc := PcOf(s, t);
    assert ThreadOk(s.books, t, pc);
    if pc.c.At() in s.dir.idem {} else if pc.IdemStore? {} else {}
  }

  /** Advancing registers nobody. */
  lemma AdvanceRemembers(b: Books, t: Tid, pc: Pc, addr: Ref, seed: u64)
    requires AdvanceMove(b, t, pc, addr, seed).Some? && ThreadOk(b, t, pc)
    requires pc.CounterStore? ==> CounterOk(b, pc.c.key)
    ensures var b2 := AdvanceMove(b, t, pc, addr, seed).value.0;
            Remembers(b, b2) && b2.regs == b.regs && b2.calls == b.calls
  {
    match pc
    case EnterOnce(c, e) => if b.entries[e].once.Fresh? {} else {}
    case CounterLoad(c, entry) =>
    case CounterStore(c, entry) => if c.key in b.counters {} else {}
    case CounterAdd(c, entry, cell) => if entry.Some? {} else {}
    case Record(c, e, previous) =>
    case Return(c, e) =>
  }

  lemma StepRemembers(s: State, t: Tid, ch: Choice)
    requires CounterInv(s) && Step(s, t, ch).Some?
    ensures Remembers(s.books, Step(s, t, ch).value.books) && Registers(s, Step(s, t, ch).value)
  {
    match PartOf(PcOf(s, t))
    case Starting => StartRemembers(s, t, ch);
    case Attaching => AttachIsSilent(s.dir, t, PcOf(s, t), ch.addr);
    case Registering => RegisterRemembers(s, t, ch.addr);
    case Advancing =>
      assert ThreadOk(s.books, t, PcOf(s, t));
      AdvanceRemembers(s.books, t, PcOf(s, t), ch.addr, ch.seed);
    case Evicting => EvictIsSilent(s.dir, t, PcOf(s, t));
    case Clearing => if PcOf(s, t).left == {} {} else {}
  }

  lemma NextRemembers(r: seq<State>, acts: seq<Action>, i: nat)
    requires IsRun(r, acts) && i < |acts|
    ensures Remembers(r[i].books, r[i + 1].books) && Registers(r[i], r[i + 1])
  {
    RunKeeps(r, acts, i);
    StepOf(r, acts, i);
    StepRemembers(r[i], acts[i].t, acts[i].ch);
  }

  lemma RemembersOn(b: Books, b1: Books, b2: Books)
    requires Remembers(b, b1) && Remembers(b1, b2)
    ensures Remembers(b, b2)
  {
  }

  lemma {:induction false} RunRemembers(r: seq<State>, acts: seq<Action>, i: nat, j: nat)
    requires IsRun(r, acts) && i <= j < |r|
    ensures Remembers(r[i].books, r[j].books)
    decreases j
  {
    if i < j {
      RunRemembers(r, acts, i, j - 1);
      NextRemembers(r, acts, j - 1);
      RemembersOn(r[i].books, r[j - 1].books, r[j].books);
    }
  }

  lemma {:induction false} KeyKeepsEntry(r: seq<State>, acts: seq<Action>, i: nat, j: nat, k: IdemKey)
    requires IsRun(r, acts) && i <= j < |r| && (forall m | i <= m <= j :: k in r[m].dir.idem)
    ensures r[j].dir.idem[k] == r[i].dir.idem[k]
    decreases j
  {
    if i < j {
      KeyKeepsEntry(r, acts, i, j - 1, k);
      NextRemembers(r, acts, j - 1);
    }
  }

  /** Call id obtained its entry in step p of the run, and that entry stood at k. */
  ghost predicate RegisteredIn(r: seq<State>, p: nat, id: nat, k: IdemKey) {
    && p + 1 < |r| && id !in r[p].books.regs && id in r[p + 1].books.regs
    && id in r[p + 1].books.calls && r[p + 1].books.calls[id].At() == k
  }

  lemma SameEntry(r: seq<State>, acts: seq<Action>, p: nat, q: nat, n: nat, a: nat, b: nat, k: IdemKey)
    requires IsRun(r, acts) && p <= q < n < |r|
    requires RegisteredIn(r, p, a, k) && RegisteredIn(r, q, b, k)
    requires forall m | p < m <= q + 1 :: k in r[m].dir.idem
    ensures a in r[n].books.regs && b in r[n].books.regs && r[n].books.regs[a] == r[n].books.regs[b]
  {
    NextRemembers(r, acts, p);
    NextRemembers(r, acts, q);
    KeyKeepsEntry(r, acts, p + 1, q + 1, k);
    RunRemembers(r, acts, p + 1, n);
    RunRemembers(r, acts, q + 1, n);
  }

  /** Source src stands exactly once in the log, and was given v there. */
  ghost predicate LoggedOnce(log: seq<Advance>, src: Source, v: u64) {
    exists i | 0 <= i < |log| ::
      log[i].source == src && log[i].previous == v && forall j | 0 <= j < |log| && log[j].source == src :: j == i
  }

  lemma FiredEntryLoggedOnce(s: State, e: Ref)
    requires CounterInv(s) && e in s.books.entries && s.books.entries[e].once == Fired
    ensures LoggedOnce(s.books.log, OfEntry(e), s.books.entries[e].previous)
  {
    var b := s.books;
    assert EntryOk(b, s.threads, e) && FiredOk(b, OfEntry(e));
    forall j: nat | j < |b.log| && b.log[j].source == OfEntry(e) ensures j == b.firedAt[OfEntry(e)] {
      assert LogOk(b, j);
    }
    assert b.log[b.firedAt[OfEntry(e)]].source == OfEntry(e)
           && b.log[b.firedAt[OfEntry(e)]].previous == b.entries[e].previous;
  }

  lemma NeverLoggedAsCall(s: State, id: nat)
    requires CounterInv(s) && id in s.books.regs
    ensures forall i | 0 <= i < |s.books.log| :: s.books.log[i].source != OfCall(id)
  {
    assert RegOk(s.books, id);
    forall i: nat | i < |s.books.log| ensures s.books.log[i].source != OfCall(id) { assert LogOk(s.books, i); }
  }

  /**
    * Two calls on the same key and operation id, whose entry is not deleted
    * between their registrations, return the same value, and the log holds
    * exactly one addition for both of them, the one that was given that value,
    * however their steps interleave.
    */
  lemma RetriesAgree(r: seq<State>, acts: seq<Action>, p: nat, q: nat, n: nat, a: nat, b: nat, k: IdemKey)
    requires IsRun(r, acts) && p <= q < n < |r|
    requires RegisteredIn(r, p, a, k) && RegisteredIn(r, q, b, k)
    requires forall m | p < m <= q + 1 :: k in r[m].dir.idem
    requires a in r[n].books.results && b in r[n].books.results
    ensures r[n].books.results[a] == r[n].books.results[b]
    ensures a in r[n].books.regs && b in r[n].books.regs && r[n].books.regs[a] == r[n].books.regs[b]
    ensures LoggedOnce(r[n].books.log, OfEntry(r[n].books.regs[a]), r[n].books.results[a])
    ensures forall i | 0 <= i < |r[n].books.log| ::
              r[n].books.log[i].source != OfCall(a) && r[n].books.log[i].source != OfCall(b)
  {
    SameEntry(r, acts, p, q, n, a, b, k);
    RunKeeps(r, acts, n);
    assert ResultOk(r[n].books, a) && ResultOk(r[n].books, b);
    FiredEntryLoggedOnce(r[n], r[n].books.regs[a]);
    NeverLoggedAsCall(r[n], a);
    NeverLoggedAsCall(r[n], b);
  }

  /**
    * Conservation: at every moment of every run a counter is the value it was
    * first published with, plus every delta logged for it, modulo 2^64.
    */
  lemma {:induction false} CountersAreConserved(r: seq<State>, acts: seq<Action>, m: nat, n: nat, key: Name)
    requires IsRun(r, acts) && m <= n < |r| && key in r[m].books.counters
    ensures key in r[n].books.counters && r[n].books.counters[key] in r[n].books.cells
    ensures key in r[m].books.born && key in r[n].books.born && r[n].books.born[key] == r[m].books.born[key]
    ensures r[n].books.cells[r[n].books.counters[key]].value ==
            (r[m].books.born[key] + Total(r[n].books.log, key)) % TWO64
  {
    RunKeeps(r, acts, m);
    assert CounterOk(r[m].books, key);
    RunRemembers(r, acts, m, n);
    RunKeeps(r, acts, n);
    assert CounterOk(r[n].books, key);
  }

  /** The log is a linearization: position i was given the sum of what stands before it. */
  lemma LogIsALinearization(r: seq<State>, acts: seq<Action>, n: nat, i: nat)
    requires IsRun(r, acts) && n < |r| && i < |r[n].books.log|
    ensures var b := r[n].books;
            && b.log[i].key in b.born
            && b.log[i].previous == (b.born[b.log[i].key] + Total(b.log[..i], b.log[i].key)) % TWO64
  {
    RunKeeps(r, acts, n);
    assert LogOk(r[n].books, i);
  }

  /**
    * Every logged delta is that of a call on its key: the call without an
    * operation id, or one call registered with the entry; no entry and no such
    * call is logged twice.
    */
  lemma EveryAdditionIsACalls(r: seq<State>, acts: seq<Action>, n: nat, i: nat, j: nat)
    requires IsRun(r, acts) && n < |r| && i <= j < |r[n].books.log|
    ensures ByCall(r[n].books, r[n].books.log[i])
    ensures i < j ==> r[n].books.log[i].source != r[n].books.log[j].source
  {
    RunKeeps(r, acts, n);
    assert LogOk(r[n].books, i) && LogOk(r[n].books, j);
  }

  /** A finished call without an operation id advanced its counter exactly once, by its own delta. */
  lemma PlainCallAdvancesOnce(r: seq<State>, acts: seq<Action>, n: nat, id: nat)
    requires IsRun(r, acts) && n < |r| && id in r[n].books.results && id in r[n].books.calls
             && r[n].books.calls[id].op == NO_OP
    ensures exists i | 0 <= i < |r[n].books.log| ::
              r[n].books.log[i] ==
              Advance(r[n].books.calls[id].key, r[n].books.calls[id].delta, r[n].books.results[id], OfCall(id), id)
  {
    RunKeeps(r, acts, n);
    var b := r[n].books;
    assert ResultOk(b, id) && RegOk(b, id) && FiredOk(b, OfCall(id));
    assert LogOk(b, b.firedAt[OfCall(id)]);
  }
}
