/**
  * The worker pool's hot-swap restarts racing Close (pool/pool.go:566, 674,
  * 2038 and the start files) as a step system. A thread runs restartWorker,
  * dispatchRestart, awaitRestart or Close; the goroutine of a worker start is
  * a start task of its own. Mutexes are owner fields, one atomic access or one
  * critical section without inner effects is one step. Killing a worker is an
  * idempotent flag, a start may produce a worker, fail or time out at any time.
  *
  * Fields under "history" do not exist in the program.
  */
module Restart {
  import opened Common

  type Tid = nat
  type Hid = nat
  type Cid = nat
  type Sid = nat

  /** A restartWorker call: the slot, the handle seen failing, and whether restartWG counts it. */
  datatype Job = Job(slot: nat, failed: Hid, tracked: bool)

  /** `owner` is history: the thread whose CompareAndSwap won and that has not yet stored false. */
  datatype Handle = Handle(slot: nat, restarting: bool, mu: Option<Tid>, done: Option<Cid>, owner: Option<Tid>)

  /** A restartDone channel. `of` and `creator` are history: the handle it was made for and the thread that made it. */
  datatype Chan = Chan(of: Hid, creator: Tid, closes: nat)

  /** A start task and the thread still waiting for its result (None: handed to the reaper). */
  datatype Start =
    | Booting(slot: nat, waiter: Option<Tid>)
    | Produced(h: Hid, waiter: Option<Tid>)
    | Failed(waiter: Option<Tid>)
    | Consumed

  /** Where a handle is accounted for. */
  datatype Place = InSlot | New(t: Tid) | Old(t: Tid) | InStart(sid: Sid) | Dead

  datatype Pc =
    | Idle
      // restartWorker
    | Early(j: Job)
    | Cas(j: Job)
    | LoserLock(j: Job)
    | LoserCheck(j: Job)
    | Parked(j: Job)
    | PubLock(j: Job)
    | Pub(j: Job)
    | Recheck(j: Job)
    | StartWorker(j: Job)
    | Starting(j: Job, sid: Sid)
    | StartErr(j: Job)
    | SwapLock(j: Job, h: Hid)
    | SwapClosed(j: Job, h: Hid)
    | Swap(j: Job, h: Hid)
    | KillNew(j: Job, h: Hid)
    | KillOld(j: Job)
      // finishRestart, deferred
    | FinLock(j: Job)
    | FinStore(j: Job)
    | FinClose(j: Job)
    | FinWake(j: Job)
    | FinUnlock(j: Job)
    | Exit(j: Job)
      // dispatchRestart
    | DispLock(h: Hid)
    | DispRead(h: Hid)
    | DispAdd(h: Hid)
      // awaitRestart on a published channel
    | AwaitSnap(h: Hid)
    | AwaitChan(h: Hid, c: Cid)
      // Close
    | CloseSwap
    | CloseStop
    | CloseBarrier
    | CloseBarrierEnd
    | CloseSnapshot
    | CloseKill(left: set<Hid>)
    | CloseWait

  /** The pool-wide flags and the dispatch mutex; the last three are history of Close. */
  datatype Gate = Gate(
    closed: bool,
    stopped: bool,              // p.done is closed
    dispatchMu: Option<Tid>,    // p.restartMu
    barrier: bool,              // Close is past its restartMu barrier
    snapped: bool,              // Close has taken its snapshot
    returned: bool)             // Close has returned

  datatype State = State(
    slots: map<nat, Hid>,
    handles: map<Hid, Handle>,
    killed: set<Hid>,
    gate: Gate,
    poolMu: Option<Tid>,
    wg: nat,
    starts: map<Sid, Start>,
    threads: map<Tid, Pc>,
    chans: map<Cid, Chan>,
    // ---- history ----
    place: map<Hid, Place>,
    replacedBy: map<Hid, Hid>,
    tracked: set<Tid>)

  /** The environment: which call to start, new names, outcomes and scheduling. */
  datatype Choice =
    | StartRestart(slot: nat, h: Hid)
    | StartDispatch(h: Hid)
    | StartAwait(h: Hid)
    | StartClose
    | Go(name: nat)           // go on; a new name where one is needed
    | TimeOut                 // the start timeout wins
    | GiveUp                  // the stop channel, drainCh or the caller's context wins

  function PcOf(s: State, t: Tid): Pc {
    if t in s.threads then s.threads[t] else Idle
  }

  function Goto(s: State, t: Tid, pc: Pc): State {
    s.(threads := s.threads[t := pc])
  }

  predicate Current(s: State, j: Job) {
    j.slot in s.slots && s.slots[j.slot] == j.failed
  }

  // ---------------------------------------------------------------- starting a call

  function FirstPc(s: State, ch: Choice): Option<Pc> {
    match ch
    case StartRestart(slot, h) =>
      if h in s.handles && s.handles[h].slot == slot then Some(Early(Job(slot, h, false))) else None
    case StartDispatch(h) => if h in s.handles then Some(DispLock(h)) else None
    case StartAwait(h) => if h in s.handles then Some(AwaitSnap(h)) else None
    case StartClose => Some(CloseSwap)
    case _ => None
  }

  function BeginStep(s: State, t: Tid, ch: Choice): Option<State> {
    if !PcOf(s, t).Idle? || FirstPc(s, ch).None? then None else Some(Goto(s, t, FirstPc(s, ch).value))
  }

  // ---------------------------------------------------------------- the handle's own protocol

  /** Points whose step reads the slot or works on the failed handle under its own mutex. */
  predicate OnHandle(pc: Pc) {
    pc.Early? || pc.Cas? || pc.LoserLock? || pc.LoserCheck? || pc.PubLock? || pc.Pub? || pc.Recheck?
    || pc.FinLock? || pc.FinStore? || pc.FinClose? || pc.FinUnlock?
  }

  /** What such a step does to the handle o, and where its thread goes; None if it is blocked. */
  function HandleMove(s: State, t: Tid, o: Handle, name: nat): Option<(Handle, Pc)>
    requires OnHandle(PcOf(s, t))
  {
    var pc := PcOf(s, t);
    var j := pc.j;
    match pc
    case Early(_) => if s.poolMu.Some? then None else Some((o, if Current(s, j) then Cas(j) else Exit(j)))
    case Cas(_) =>
      if o.restarting then Some((o, LoserLock(j))) else Some((o.(restarting := true, owner := Some(t)), PubLock(j)))
    case LoserLock(_) => if o.mu.Some? then None else Some((o.(mu := Some(t)), LoserCheck(j)))
    case LoserCheck(_) => Some((o.(mu := None), if o.restarting then Parked(j) else Exit(j)))
    case PubLock(_) => if o.mu.Some? then None else Some((o.(mu := Some(t)), Pub(j)))
    case Pub(_) => if name in s.chans then None else Some((o.(done := Some(name), mu := None), Recheck(j)))
    case Recheck(_) =>
      if s.poolMu.Some? then None else Some((o, if Current(s, j) && !s.gate.closed then StartWorker(j) else FinLock(j)))
    case FinLock(_) => if o.mu.Some? then None else Some((o.(mu := Some(t)), FinStore(j)))
    case FinStore(_) => Some((o.(restarting := false, owner := None), FinClose(j)))
    case FinClose(_) => Some((o.(done := None), FinWake(j)))
    case FinUnlock(_) => Some((o.(mu := None), Exit(j)))
  }

  /** The channel table after such a step: Pub makes a channel, FinClose closes the published one. */
  function ChansAfter(s: State, t: Tid, o: Handle, name: nat): map<Cid, Chan> {
    var pc := PcOf(s, t);
    if pc.Pub? then s.chans[name := Chan(pc.j.failed, t, 0)]
    else if pc.FinClose? && o.done.Some? && o.done.value in s.chans then
      s.chans[o.done.value := s.chans[o.done.value].(closes := s.chans[o.done.value].closes + 1)]
    else s.chans
  }

  function HandleStep(s: State, t: Tid, name: nat): Option<State> {
    var pc := PcOf(s, t);
    if !OnHandle(pc) || pc.j.failed !in s.handles then None else
    var o := s.handles[pc.j.failed];
    var m := HandleMove(s, t, o, name);
    if m.None? then None
    else Some(Goto(s.(handles := s.handles[pc.j.failed := m.value.0], chans := ChansAfter(s, t, o, name)), t,
                   m.value.1))
  }

  // ---------------------------------------------------------------- starting a worker

  /** startWorkerWithStop: hand the start to a task, then take its result, the timeout or the stop. */
  function StartMove(s: State, t: Tid, ch: Choice): Option<(map<Sid, Start>, map<Hid, Place>, Pc)> {
    match PcOf(s, t)
    case StartWorker(j) =>
      if s.gate.stopped then Some((s.starts, s.place, FinLock(j)))
      else if !ch.Go? || ch.name in s.starts then None
      else Some((s.starts[ch.name := Booting(j.slot, Some(t))], s.place, Starting(j, ch.name)))
    case Starting(j, sid) =>
      if sid !in s.starts then None
      else if ch.GiveUp? then
        if s.gate.stopped then Some((s.starts[sid := Abandoned(s.starts[sid])], s.place, FinLock(j))) else None
      else if ch.TimeOut? then Some((s.starts[sid := Abandoned(s.starts[sid])], s.place, StartErr(j)))
      else (match s.starts[sid]
            case Produced(h, _) => Some((s.starts[sid := Consumed], s.place[h := New(t)], SwapLock(j, h)))
            case Failed(_) => Some((s.starts[sid := Consumed], s.place, StartErr(j)))
            case _ => None)
    case _ => None
  }

  /** The caller gives up on a start; reapWorkerStartResult takes over. */
  function Abandoned(st: Start): Start {
    match st
    case Booting(slot, _) => Booting(slot, None)
    case Produced(h, _) => Produced(h, None)
    case Failed(_) => Consumed
    case Consumed => Consumed
  }

  function StartStep(s: State, t: Tid, ch: Choice): Option<State> {
    var m := StartMove(s, t, ch);
    if m.None? then None else Some(Goto(s.(starts := m.value.0, place := m.value.1), t, m.value.2))
  }

  // ---------------------------------------------------------------- swapping and killing

  /** The steps between a start's outcome and finishRestart that leave the slots alone. */
  function KillMove(s: State, t: Tid): Option<(Option<Tid>, set<Hid>, map<Hid, Place>, Pc)> {
    match PcOf(s, t)
    case StartErr(j) => Some((s.poolMu, s.killed, s.place, if s.gate.closed then FinLock(j) else KillOld(j)))
    case SwapLock(j, h) => if s.poolMu.Some? then None else Some((Some(t), s.killed, s.place, SwapClosed(j, h)))
    case SwapClosed(j, h) =>
      if s.gate.closed then Some((None, s.killed, s.place, KillNew(j, h)))
      else Some((s.poolMu, s.killed, s.place, Swap(j, h)))
    case Swap(j, h) => if Current(s, j) then None else Some((None, s.killed, s.place, KillNew(j, h)))
    case KillNew(j, h) => Some((s.poolMu, s.killed + {h}, s.place[h := Dead], FinLock(j)))
    case KillOld(j) =>
      var mine := j.failed in s.place && s.place[j.failed] == Old(t);
      Some((s.poolMu, s.killed + {j.failed}, if mine then s.place[j.failed := Dead] else s.place, FinLock(j)))
    case _ => None
  }

  function KillStep(s: State, t: Tid): Option<State> {
    var m := KillMove(s, t);
    if m.None? then None
    else Some(Goto(s.(poolMu := m.value.0, killed := m.value.1, place := m.value.2), t, m.value.3))
  }

  /** The hot swap: the new worker takes the slot, the old one is left to be killed. */
  function SwapStep(s: State, t: Tid): Option<State> {
    var pc := PcOf(s, t);
    if !pc.Swap? || !Current(s, pc.j) then None
    else Some(Goto(s.(poolMu := None, slots := s.slots[pc.j.slot := pc.h],
                   replacedBy := s.replacedBy[pc.j.failed := pc.h],
                   place := s.place[pc.h := InSlot][pc.j.failed := Old(t)]), t, KillOld(pc.j)))
  }

  // ---------------------------------------------------------------- Broadcast and the goroutine's end

  /** Every thread parked on h wakes and queues for the mutex. */
  function Woken(threads: map<Tid, Pc>, h: Hid): map<Tid, Pc> {
    map u | u in threads ::
      if threads[u].Parked? && threads[u].j.failed == h then LoserLock(threads[u].j) else threads[u]
  }

  function WakeStep(s: State, t: Tid): Option<State> {
    var pc := PcOf(s, t);
    if !pc.FinWake? then None
    else Some(Goto(s.(threads := Woken(s.threads, pc.j.failed)), t, FinUnlock(pc.j)))
  }

  function ExitStep(s: State, t: Tid): Option<State> {
    var pc := PcOf(s, t);
    if !pc.Exit? || (pc.j.tracked && s.wg == 0) then None
    else Some(Goto(s.(wg := if pc.j.tracked then s.wg - 1 else s.wg,
                   tracked := if pc.j.tracked then s.tracked - {t} else s.tracked), t, Idle))
  }

  // ---------------------------------------------------------------- dispatchRestart, awaitRestart, Close

  /** dispatchRestart starts its goroutine. */
  function SpawnStep(s: State, t: Tid, u: Tid): Option<State> {
    var pc := PcOf(s, t);
    if !pc.DispAdd? || u == t || !PcOf(s, u).Idle? || pc.h !in s.handles then None
    else Some(Goto(Goto(s.(gate := s.gate.(dispatchMu := None), wg := s.wg + 1, tracked := s.tracked + {u}), t, Idle),
                   u, Early(Job(s.handles[pc.h].slot, pc.h, true))))
  }

  function GateMove(s: State, t: Tid, ch: Choice): Option<(Gate, set<Hid>, Pc)> {
    var g := s.gate;
    match PcOf(s, t)
    case DispLock(h) => if g.dispatchMu.Some? then None else Some((g.(dispatchMu := Some(t)), s.killed, DispRead(h)))
    case DispRead(h) =>
      if g.closed then Some((g.(dispatchMu := None), s.killed, Idle)) else Some((g, s.killed, DispAdd(h)))
    case AwaitSnap(h) =>
      if h !in s.handles || s.handles[h].mu.Some? then None
      else Some((g, s.killed, if s.handles[h].done.Some? then AwaitChan(h, s.handles[h].done.value) else Idle))
    case AwaitChan(h, c) =>
      if ch.GiveUp? || (c in s.chans && s.chans[c].closes > 0) then Some((g, s.killed, Idle)) else None
    case CloseSwap => Some((g.(closed := true), s.killed, if g.closed then Idle else CloseStop))
    case CloseStop => Some((g.(stopped := true), s.killed, CloseBarrier))
    case CloseBarrier =>
      if g.dispatchMu.Some? then None else Some((g.(dispatchMu := Some(t)), s.killed, CloseBarrierEnd))
    case CloseBarrierEnd => Some((g.(dispatchMu := None, barrier := true), s.killed, CloseSnapshot))
    case CloseSnapshot =>
      if s.poolMu.Some? then None
      else Some((g.(snapped := true), s.killed, CloseKill(set id | id in s.slots :: s.slots[id])))
    case CloseKill(left) =>
      if left == {} then Some((g, s.killed, CloseWait))
      else if !ch.Go? || ch.name !in left then None
      else Some((g, s.killed + {ch.name}, CloseKill(left - {ch.name})))
    case CloseWait => if s.wg == 0 then Some((g.(returned := true), s.killed, Idle)) else None
    case _ => None
  }

  function GateStep(s: State, t: Tid, ch: Choice): Option<State> {
    var m := GateMove(s, t, ch);
    if m.None? then None else Some(Goto(s.(gate := m.value.0, killed := m.value.1), t, m.value.2))
  }

  /** Steps that belong to no restart thread: a start task moves on, or someone kills a worker. */
  datatype Env = BootOk(sid: Sid, h: Hid) | BootFail(sid: Sid) | Reap(sid: Sid) | KillHung(h: Hid)

  function EnvStep(s: State, e: Env): Option<State> {
    match e
    case BootOk(sid, h) =>
      if sid in s.starts && s.starts[sid].Booting? && h !in s.handles then
        Some(s.(handles := s.handles[h := Handle(s.starts[sid].slot, false, None, None, None)],
             starts := s.starts[sid := Produced(h, s.starts[sid].waiter)],
             place := s.place[h := InStart(sid)]))
      else None
    case BootFail(sid) =>
      if sid in s.starts && s.starts[sid].Booting? then
        var waiter := s.starts[sid].waiter;
        Some(s.(starts := s.starts[sid := if waiter.None? then Consumed else Failed(waiter)]))
      else None
    case Reap(sid) =>
      if sid in s.starts && s.starts[sid].Produced? && s.starts[sid].waiter.None? then
        Some(s.(killed := s.killed + {s.starts[sid].h}, starts := s.starts[sid := Consumed],
             place := s.place[s.starts[sid].h := Dead]))
      else None
    case KillHung(h) => if h in s.handles then Some(s.(killed := s.killed + {h})) else None
  }

  /** One step of the system; each constructor names the family of steps it takes. */
  datatype Action =
    | Begin(t: Tid, ch: Choice)
    | HandleOp(t: Tid, name: nat)
    | Starts(t: Tid, ch: Choice)
    | Kills(t: Tid)
    | Swaps(t: Tid)
    | Wakes(t: Tid)
    | Exits(t: Tid)
    | Spawns(t: Tid, u: Tid)
    | Gates(t: Tid, ch: Choice)
    | Environment(e: Env)

  function Step(s: State, a: Action): Option<State> {
    match a
    case Begin(t, ch) => BeginStep(s, t, ch)
    case HandleOp(t, name) => HandleStep(s, t, name)
    case Starts(t, ch) => StartStep(s, t, ch)
    case Kills(t) => KillStep(s, t)
    case Swaps(t) => SwapStep(s, t)
    case Wakes(t) => WakeStep(s, t)
    case Exits(t) => ExitStep(s, t)
    case Spawns(t, u) => SpawnStep(s, t, u)
    case Gates(t, ch) => GateStep(s, t, ch)
    case Environment(e) => EnvStep(s, e)
  }

  /** After New: every filled slot has its own idle handle; starts that timed out may still be booting. */
  ghost predicate Init(s: State) {
    && s.handles.Keys == (set id | id in s.slots :: s.slots[id])
    && (forall id | id in s.slots :: s.handles[s.slots[id]] == Handle(id, false, None, None, None))
    && s.killed == {} && s.gate == Gate(false, false, None, false, false, false) && s.poolMu == None && s.wg == 0
    && (forall sid | sid in s.starts :: s.starts[sid].Booting? && s.starts[sid].waiter.None?)
    && s.threads == map[] && s.chans == map[]
    && s.place == (map h | h in s.handles :: InSlot)
    && s.replacedBy == map[] && s.tracked == {}
  }

  ghost predicate IsRun(r: seq<State>, acts: seq<Action>) {
    && |r| == |acts| + 1
    && Init(r[0])
    && forall i {:trigger acts[i]} | 0 <= i < |acts| :: Step(r[i], acts[i]) == Some(r[i + 1])
  }

  lemma StepOf(r: seq<State>, acts: seq<Action>, i: nat)
    requires IsRun(r, acts) && i < |acts|
    ensures Step(r[i], acts[i]) == Some(r[i + 1])
  {
  }
}
