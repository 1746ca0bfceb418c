/**
  * The host-side round-robin store (workerplugin/sharedstate.go) as a step
  * system. Every thread owns a program point; one step executes the next
  * atomic operation of one thread. A sync.Map operation, an atomic access, a
  * mutex acquisition and the entry of a sync.Once are one step each, so a run
  * is an arbitrary interleaving of FetchAdd, DropScope and sweepOnce calls.
  *
  * Fields below the line "history" do not exist in the program. They record
  * what happened so that properties of whole runs can be stated on one state.
  */
module SharedStore {
  import opened Common

  type Tid = nat
  type Ref = nat

  /** A counter key or an operation id. */
  datatype Name = Name(text: string)

  /** The operation id of a call that wants no idempotency. */
  const NO_OP := Name("")

  datatype IdemKey = IdemKey(key: Name, op: Name)

  /** One FetchAdd call, with a number that no other call has. */
  datatype Call = Call(id: nat, tid: Tid, key: Name, delta: u64, op: Name, now: int) {
    function At(): IdemKey { IdemKey(key, op) }
  }

  /** A scope object. `op` and `taker` (the DropScope that unpublished it) are history. */
  datatype Scope = Scope(op: Name, keys: set<Name>, deleted: bool, touched: int,
                         holder: Option<Tid>, taker: Option<Tid>)

  datatype Once = Fresh | Running(tid: Tid) | Fired

  datatype Entry = Entry(at: IdemKey, once: Once, previous: u64)

  datatype Cell = Cell(key: Name, value: u64)

  /** Who advanced a counter: the first call through an entry, or a call without an op. */
  datatype Source = OfEntry(e: Ref) | OfCall(id: nat)

  /** One addition, and the call whose step it was. */
  datatype Advance = Advance(key: Name, delta: u64, previous: u64, source: Source, caller: nat)

  /** Program points; each names the operation the thread executes next. */
  datatype Pc =
    | Idle
      // FetchAdd, registerAndLoadIdem
    | ScopeLoad(c: Call)
    | ScopeStore(c: Call)
    | Touch(c: Call, sc: Ref)
    | Lock(c: Call, sc: Ref)
    | CheckDeleted(c: Call, sc: Ref)
    | AddKey(c: Call, sc: Ref)
    | IdemLoad(c: Call, sc: Ref)
    | IdemStore(c: Call, sc: Ref)
    | Unlock(c: Call, sc: Ref, e: Ref)
      // FetchAdd, the body of once.Do; `entry` is None for an empty op
    | EnterOnce(c: Call, e: Ref)
    | CounterLoad(c: Call, entry: Option<Ref>)
    | CounterStore(c: Call, entry: Option<Ref>)
    | CounterAdd(c: Call, entry: Option<Ref>, cell: Ref)
    | Record(c: Call, e: Ref, previous: u64)
    | Return(c: Call, e: Ref)
      // DropScope
    | DropTake(op: Name)
    | DropLock(op: Name, sc: Ref)
    | DropMark(op: Name, sc: Ref)
      // sweepOnce, one visit of its Range
    | SweepPeek(op: Name, sc: Ref, cutoff: int)
    | SweepLock(op: Name, sc: Ref, cutoff: int)
    | SweepRecheck(op: Name, sc: Ref, cutoff: int)
    | SweepMark(op: Name, sc: Ref)
    | SweepUnpublish(op: Name, sc: Ref)
      // the deletion loop both share; `left` are the keys not yet deleted
    | Clear(op: Name, sc: Ref, left: set<Name>)

  /** The published scopes and idempotency entries. */
  datatype Directory = Directory(
    scopes: map<Name, Ref>,
    heap: map<Ref, Scope>,
    idem: map<IdemKey, Ref>,
    owner: map<IdemKey, Ref>)     // history: the scope an entry was created under

  /** The counters, the entries' results, and what has been asked and answered. */
  datatype Books = Books(
    entries: map<Ref, Entry>,
    counters: map<Name, Ref>,
    cells: map<Ref, Cell>,
    // ---- history ----
    calls: map<nat, Call>,        // every FetchAdd call made
    regs: map<nat, Ref>,          // the entry a call registered with
    results: map<nat, u64>,       // what a finished call returned
    born: map<Name, u64>,         // the value a counter was published with
    log: seq<Advance>,            // counter additions in the order they happened
    firedAt: map<Source, nat>)    // where in the log each source stands

  datatype State = State(dir: Directory, books: Books, threads: map<Tid, Pc>)

  /** What the environment decides: calls to start, fresh addresses, seeds, iteration order. */
  datatype Choice =
    | StartFetchAdd(id: nat, key: Name, delta: u64, op: Name, now: int)
    | StartDropScope(dropOp: Name)
    | StartSweep(visit: Name, cutoff: int)
    | Go(addr: Ref, seed: u64, pick: Name)

  function PcOf(s: State, t: Tid): Pc {
    if t in s.threads then s.threads[t] else Idle
  }

  const EMPTY_DIR := Directory(map[], map[], map[], map[])
  const EMPTY_BOOKS := Books(map[], map[], map[], map[], map[], map[], map[], [], map[])

  predicate Init(s: State) {
    s == State(EMPTY_DIR, EMPTY_BOOKS, map[])
  }

  // ---------------------------------------------------------------- what one operation does

  /** A call begins: only FetchAdd leaves a trace, the call itself. */
  function StartMove(d: Directory, b: Books, t: Tid, ch: Choice): Option<(Books, Pc)> {
    match ch
    case StartFetchAdd(id, key, delta, op, now) =>
      if id in b.calls then None else
      var c := Call(id, t, key, delta, op, now);
      Some((b.(calls := b.calls[id := c]), if op == NO_OP then CounterLoad(c, None) else ScopeLoad(c)))
    case StartDropScope(op) => Some((b, if op == NO_OP then Idle else DropTake(op)))
    case StartSweep(op, cutoff) => if op in d.scopes then Some((b, SweepPeek(op, d.scopes[op], cutoff))) else None
    case Go(_, _, _) => None
  }

  function WithScope(d: Directory, sc: Ref, o: Scope): Directory {
    d.(heap := d.heap[sc := o])
  }

  /** FetchAdd on its scope: find or publish it, lock it, list the key, unlock it. */
  function AttachMove(d: Directory, t: Tid, pc: Pc, addr: Ref): Option<(Directory, Pc)> {
    match pc
    case ScopeLoad(c) => Some((d, if c.op in d.scopes then Touch(c, d.scopes[c.op]) else ScopeStore(c)))
    case ScopeStore(c) =>
      if c.op in d.scopes then Some((d, Touch(c, d.scopes[c.op])))
      else if addr in d.heap then None
      else Some((d.(heap := d.heap[addr := Scope(c.op, {}, false, 0, None, None)], scopes := d.scopes[c.op := addr]),
                 Touch(c, addr)))
    case Touch(c, sc) =>
      if sc !in d.heap then None else Some((WithScope(d, sc, d.heap[sc].(touched := c.now)), Lock(c, sc)))
    case Lock(c, sc) =>
      if sc !in d.heap || d.heap[sc].holder.Some? then None
      else Some((WithScope(d, sc, d.heap[sc].(holder := Some(t))), CheckDeleted(c, sc)))
    case CheckDeleted(c, sc) =>
      if sc !in d.heap then None
      else if d.heap[sc].deleted then Some((WithScope(d, sc, d.heap[sc].(holder := None)), ScopeLoad(c)))
      else Some((d, AddKey(c, sc)))
    case AddKey(c, sc) =>
      if sc !in d.heap then None
      else Some((WithScope(d, sc, d.heap[sc].(keys := d.heap[sc].keys + {c.key})), IdemLoad(c, sc)))
    case Unlock(c, sc, e) =>
      if sc !in d.heap then None else Some((WithScope(d, sc, d.heap[sc].(holder := None)), EnterOnce(c, e)))
    case _ => None
  }

  predicate AtIdem(pc: Pc) {
    pc.IdemLoad? || pc.IdemStore?
  }

  /** The entry a call at the idempotency table registers with; a load that finds none registers later. */
  function Entered(d: Directory, b: Books, pc: Pc, addr: Ref): Option<Ref>
    requires AtIdem(pc)
  {
    if pc.c.At() in d.idem then Some(d.idem[pc.c.At()])
    else if pc.IdemLoad? || addr in b.entries then None
    else Some(addr)
  }

  /** FetchAdd from once.Do on: advance the counter at most once per entry. */
  function AdvanceMove(b: Books, t: Tid, pc: Pc, addr: Ref, seed: u64): Option<(Books, Pc)> {
    match pc
    case EnterOnce(c, e) =>
      if e !in b.entries || b.entries[e].once.Running? then None
      else if b.entries[e].once.Fresh? then
        Some((b.(entries := b.entries[e := b.entries[e].(once := Running(t))]), CounterLoad(c, Some(e))))
      else Some((b, Return(c, e)))
    case CounterLoad(c, entry) =>
      Some((b, if c.key in b.counters then CounterAdd(c, entry, b.counters[c.key]) else CounterStore(c, entry)))
    case CounterStore(c, entry) =>
      if c.key in b.counters then Some((b, CounterAdd(c, entry, b.counters[c.key])))
      else if addr in b.cells then None
      else Some((WithCounter(b, c.key, addr, seed), CounterAdd(c, entry, addr)))
    case CounterAdd(c, entry, cell) =>
      if cell !in b.cells then None else
      var previous := WrapSub(WrapAdd(b.cells[cell].value, c.delta), c.delta);
      if entry.Some? then Some((Added(b, c, OfEntry(entry.value), cell), Record(c, entry.value, previous)))
      else Some((Answered(Added(b, c, OfCall(c.id), cell), c, previous), Idle))
    case Record(c, e, previous) =>
      if e !in b.entries then None
      else Some((b.(entries := b.entries[e := b.entries[e].(once := Fired, previous := previous)]), Return(c, e)))
    case Return(c, e) => if e !in b.entries then None else Some((Answered(b, c, b.entries[e].previous), Idle))
    case _ => None
  }

  function WithCounter(b: Books, key: Name, addr: Ref, seed: u64): Books {
    b.(cells := b.cells[addr := Cell(key, seed)], counters := b.counters[key := addr], born := b.born[key := seed])
  }

  /** counter.Add(delta) - delta: the cell moves on, the caller is given what was there before. */
  function Added(b: Books, c: Call, source: Source, cell: Ref): Books
    requires cell in b.cells
  {
    var after := WrapAdd(b.cells[cell].value, c.delta);
    b.(cells := b.cells[cell := b.cells[cell].(value := after)],
    log := b.log + [Advance(c.key, c.delta, WrapSub(after, c.delta), source, c.id)],
    firedAt := b.firedAt[source := |b.log|])
  }

  function Answered(b: Books, c: Call, v: u64): Books {
    b.(results := b.results[c.id := v])
  }

  /** DropScope and one visit of sweepOnce, up to the deletion loop. */
  function EvictMove(d: Directory, t: Tid, pc: Pc): Option<(Directory, Pc)> {
    match pc
    case DropTake(op) =>
      if op !in d.scopes then Some((d, Idle))
      else if d.scopes[op] !in d.heap then None
      else
        var sc := d.scopes[op];
        Some((d.(heap := d.heap[sc := d.heap[sc].(taker := Some(t))], scopes := d.scopes - {op}), DropLock(op, sc)))
    case DropLock(op, sc) =>
      if sc !in d.heap || d.heap[sc].holder.Some? then None
      else Some((WithScope(d, sc, d.heap[sc].(holder := Some(t))), DropMark(op, sc)))
    case DropMark(op, sc) =>
      if sc !in d.heap then None
      else Some((WithScope(d, sc, d.heap[sc].(deleted := true)), Clear(op, sc, d.heap[sc].keys)))
    case SweepPeek(op, sc, cutoff) =>
      if sc !in d.heap then None
      else Some((d, if d.heap[sc].touched >= cutoff then Idle else SweepLock(op, sc, cutoff)))
    case SweepLock(op, sc, cutoff) =>
      if sc !in d.heap || d.heap[sc].holder.Some? then None
      else Some((WithScope(d, sc, d.heap[sc].(holder := Some(t))), SweepRecheck(op, sc, cutoff)))
    case SweepRecheck(op, sc, cutoff) =>
      if sc !in d.heap then None
      else if d.heap[sc].touched >= cutoff then Some((WithScope(d, sc, d.heap[sc].(holder := None)), Idle))
      else Some((d, SweepMark(op, sc)))
    case SweepMark(op, sc) =>
      if sc !in d.heap then None
      else Some((WithScope(d, sc, d.heap[sc].(deleted := true)), SweepUnpublish(op, sc)))
    case SweepUnpublish(op, sc) =>
      // deletes by operation id, whatever scope is published under it
      if sc !in d.heap then None else Some((d.(scopes := d.scopes - {op}), Clear(op, sc, d.heap[sc].keys)))
    case _ => None
  }

  /** The deletion loop: one key, or the end of the loop. */
  function ClearMove(d: Directory, pc: Pc, pick: Name): Option<(Directory, Pc)>
    requires pc.Clear?
  {
    if pc.sc !in d.heap then None
    else if pc.left == {} then Some((WithScope(d, pc.sc, d.heap[pc.sc].(keys := {}, holder := None)), Idle))
    else if pick !in pc.left then None
    else
      var k := IdemKey(pick, pc.op);
      Some((d.(idem := d.idem - {k}, owner := d.owner - {k}), Clear(pc.op, pc.sc, pc.left - {pick})))
  }

  // ---------------------------------------------------------------- steps

  function StartStep(s: State, t: Tid, ch: Choice): Option<State> {
    match StartMove(s.dir, s.books, t, ch)
    case None => None
    case Some((b, pc)) => Some(State(s.dir, b, s.threads[t := pc]))
  }

  function AttachStep(s: State, t: Tid, addr: Ref): Option<State> {
    match AttachMove(s.dir, t, PcOf(s, t), addr)
    case None => None
    case Some((d, pc)) => Some(State(d, s.books, s.threads[t := pc]))
  }

  function RegisterStep(s: State, t: Tid, addr: Ref): Option<State> {
    var pc := PcOf(s, t);
    if !AtIdem(pc) then None
    else match Entered(s.dir, s.books, pc, addr)
         case None => if pc.IdemLoad? then Some(State(s.dir, s.books, s.threads[t := IdemStore(pc.c, pc.sc)])) else None
         case Some(e) =>
           var k := pc.c.At();
           var dir := if k in s.dir.idem then s.dir
                      else s.dir.(idem := s.dir.idem[k := e], owner := s.dir.owner[k := pc.sc]);
           var entries := if k in s.dir.idem then s.books.entries else s.books.entries[e := Entry(k, Fresh, 0)];
           Some(State(dir, s.books.(entries := entries, regs := s.books.regs[pc.c.id := e]),
                      s.threads[t := Unlock(pc.c, pc.sc, e)]))
  }

  function AdvanceStep(s: State, t: Tid, addr: Ref, seed: u64): Option<State> {
    match AdvanceMove(s.books, t, PcOf(s, t), addr, seed)
    case None => None
    case Some((b, pc)) => Some(State(s.dir, b, s.threads[t := pc]))
  }

  function EvictStep(s: State, t: Tid): Option<State> {
    match EvictMove(s.dir, t, PcOf(s, t))
    case None => None
    case Some((d, pc)) => Some(State(d, s.books, s.threads[t := pc]))
  }

  function ClearStep(s: State, t: Tid, pick: Name): Option<State> {
    if !PcOf(s, t).Clear? then None
    else match ClearMove(s.dir, PcOf(s, t), pick)
         case None => None
         case Some((d, pc)) => Some(State(d, s.books, s.threads[t := pc]))
  }

  /** The part of the program a thread is in. */
  datatype Part = Starting | Attaching | Registering | Advancing | Evicting | Clearing

  function PartOf(pc: Pc): Part {
    match pc
    case Idle => Starting
    case ScopeLoad(_) => Attaching
    case ScopeStore(_) => Attaching
    case Touch(_, _) => Attaching
    case Lock(_, _) => Attaching
    case CheckDeleted(_, _) => Attaching
    case AddKey(_, _) => Attaching
    case Unlock(_, _, _) => Attaching
    case IdemLoad(_, _) => Registering
    case IdemStore(_, _) => Registering
    case EnterOnce(_, _) => Advancing
    case CounterLoad(_, _) => Advancing
    case CounterStore(_, _) => Advancing
    case CounterAdd(_, _, _) => Advancing
    case Record(_, _, _) => Advancing
    case Return(_, _) => Advancing
    case Clear(_, _, _) => Clearing
    case _ => Evicting
  }

  /** The next step of thread t; None when t is blocked or the choice does not apply. */
  function Step(s: State, t: Tid, ch: Choice): Option<State> {
    if PcOf(s, t).Idle? then StartStep(s, t, ch)
    else if !ch.Go? then None
    else match PartOf(PcOf(s, t))
         case Starting => None
         case Attaching => AttachStep(s, t, ch.addr)
         case Registering => RegisterStep(s, t, ch.addr)
         case Advancing => AdvanceStep(s, t, ch.addr, ch.seed)
         case Evicting => EvictStep(s, t)
         case Clearing => ClearStep(s, t, ch.pick)
  }

  // ---------------------------------------------------------------- runs

  datatype Action = Action(t: Tid, ch: Choice)

  ghost predicate IsRun(r: seq<State>, acts: seq<Action>) {
    && |r| == |acts| + 1
    && Init(r[0])
    && forall i {:trigger acts[i]} | 0 <= i < |acts| :: Step(r[i], acts[i].t, acts[i].ch) == Some(r[i + 1])
  }

  lemma StepOf(r: seq<State>, acts: seq<Action>, i: nat)
    requires IsRun(r, acts) && i < |acts|
    ensures Step(r[i], acts[i].t, acts[i].ch) == Some(r[i + 1])
  {
  }

  /** Some run ends in s. */
  ghost predicate Reach(s: State) {
    exists r, acts :: IsRun(r, acts) && r[|acts|] == s
  }

  lemma ReachInit(s: State)
    requires Init(s)
    ensures Reach(s)
  {
    var none: seq<Action> := [];
    assert IsRun([s], none) && [s][|none|] == s;
  }

  lemma ReachNext(s: State, t: Tid, ch: Choice)
    requires Reach(s) && Step(s, t, ch).Some?
    ensures Reach(Step(s, t, ch).value)
  {
    var r, acts :| IsRun(r, acts) && r[|acts|] == s;
    var r2, acts2 := r + [Step(s, t, ch).value], acts + [Action(t, ch)];
    forall i | 0 <= i < |acts2| ensures Step(r2[i], acts2[i].t, acts2[i].ch) == Some(r2[i + 1]) {
      if i < |acts| { StepOf(r, acts, i); }
    }
    assert IsRun(r2, acts2) && r2[|acts2|] == Step(s, t, ch).value;
  }

  /** No call is in progress. */
  ghost predicate Quiet(s: State) {
    forall t | t in s.threads :: s.threads[t].Idle?
  }
}
