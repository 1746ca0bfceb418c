/**
  * Consequences of places and signals together: a restart's failed handle
  * stays in its slot until its own restart swaps it out, and every living
  * worker has exactly one custodian.
  */
module RestartCustody {
  import opened Restart
  import Places = RestartPlaces
  import Signals = RestartSignals

  /** Past the recheck and before the swap. */
  predicate Replacing(pc: Pc) {
    pc.StartWorker? || pc.Starting? || pc.StartErr? || pc.SwapLock? || pc.SwapClosed? || pc.Swap?
  }

  ghost predicate StillCurrent(s: State, t: Tid, pc: Pc) {
    && (Replacing(pc) ==> Current(s, pc.j))
    && (pc.KillOld? ==> Current(s, pc.j) || (pc.j.failed in s.place && s.place[pc.j.failed] == Old(t)))
  }

  ghost predicate CustodyInv(s: State) {
    && Places.PlacesInv(s) && Signals.SignalsInv(s)
    && forall t {:trigger StillCurrent(s, t, s.threads[t])} | t in s.threads :: StillCurrent(s, t, s.threads[t])
  }

  /** Slots unchanged, and no old worker of another thread re-placed. */
  ghost predicate Kept(s: State, s2: State, t: Tid) {
    && s2.slots == s.slots
    && (forall h | h in s.place && s.place[h].Old? && s.place[h] != Old(t) ::
          h in s2.place && s2.place[h] == s.place[h])
  }

  lemma StepRule(s: State, s2: State, t: Tid, pc: Pc)
    requires forall u {:trigger StillCurrent(s, u, s.threads[u])} | u in s.threads :: StillCurrent(s, u, s.threads[u])
    requires Kept(s, s2, t) && s2.threads == s.threads[t := pc] && StillCurrent(s2, t, pc)
    ensures forall u {:trigger StillCurrent(s2, u, s2.threads[u])} | u in s2.threads ::
              StillCurrent(s2, u, s2.threads[u])
  {
    forall u | u in s2.threads ensures StillCurrent(s2, u, s2.threads[u]) {
      if u != t { assert StillCurrent(s, u, s.threads[u]); }
    }
  }

  ghost predicate AllCurrent(s: State) {
    forall u {:trigger StillCurrent(s, u, s.threads[u])} | u in s.threads :: StillCurrent(s, u, s.threads[u])
  }

  lemma HandleStaysCurrent(s: State, t: Tid, o: Handle, name: nat)
    requires OnHandle(PcOf(s, t)) && HandleMove(s, t, o, name).Some? && StillCurrent(s, t, PcOf(s, t))
    ensures StillCurrent(s, t, HandleMove(s, t, o, name).value.1)
  {
    var j := PcOf(s, t).j;
    match PcOf(s, t)
    case Early(_) => if Current(s, j) {} else {}
    case Cas(_) => if o.restarting {} else {}
    case LoserLock(_) =>
    case LoserCheck(_) => if o.restarting {} else {}
    case PubLock(_) =>
    case Pub(_) =>
    case Recheck(_) => if Current(s, j) && !s.gate.closed {} else {}
    case FinLock(_) =>
    case FinStore(_) =>
    case FinClose(_) =>
    case FinUnlock(_) =>
  }

  lemma HandleKeeps(s: State, t: Tid, name: nat)
    requires CustodyInv(s) && HandleStep(s, t, name).Some?
    ensures AllCurrent(HandleStep(s, t, name).value)
  {
    var o := s.handles[PcOf(s, t).j.failed];
    assert StillCurrent(s, t, PcOf(s, t));
    HandleStaysCurrent(s, t, o, name);
    StepRule(s, HandleStep(s, t, name).value, t, HandleMove(s, t, o, name).value.1);
  }

  lemma StartKeeps(s: State, t: Tid, ch: Choice)
    requires CustodyInv(s) && StartStep(s, t, ch).Some?
    ensures AllCurrent(StartStep(s, t, ch).value)
  {
    var s2 := StartStep(s, t, ch).value;
    var pc := StartMove(s, t, ch).value.2;
    assert StillCurrent(s, t, PcOf(s, t)) && Places.ThreadOk(s, t, PcOf(s, t));
    match PcOf(s, t) {
      case StartWorker(j) => if s.gate.stopped {} else {}
      case Starting(j, sid) =>
        assert Places.StartOk(s, sid);
        if ch.GiveUp? {} else if ch.TimeOut? {} else if s.starts[sid].Produced? {} else {}
    }
    StepRule(s, s2, t, pc);
  }

  lemma KillKeeps(s: State, t: Tid)
    requires CustodyInv(s) && KillStep(s, t).Some?
    ensures AllCurrent(KillStep(s, t).value)
  {
    var s2 := KillStep(s, t).value;
    var pc := KillMove(s, t).value.3;
    assert StillCurrent(s, t, PcOf(s, t)) && Places.ThreadOk(s, t, PcOf(s, t));
    match PcOf(s, t) {
      case StartErr(j) => if s.gate.closed {} else {}
      case SwapLock(j, h) =>
      case SwapClosed(j, h) => if s.gate.closed {} else {}
      case Swap(j, h) =>
      case KillNew(j, h) =>
      case KillOld(j) =>
    }
    StepRule(s, s2, t, pc);
  }

  /** The swap takes the slot from no restart but its own: another one would own the same handle. */
  lemma SwapKeeps(s: State, t: Tid)
    requires CustodyInv(s) && SwapStep(s, t).Some?
    ensures AllCurrent(SwapStep(s, t).value)
  {
    var s2 := SwapStep(s, t).value;
    var Swap(j, h) := PcOf(s, t);
    assert Places.ThreadOk(s, t, PcOf(s, t)) && Signals.ThreadOk(s, t, PcOf(s, t)) && Places.SlotOk(s, j.slot);
    forall u | u in s2.threads ensures StillCurrent(s2, u, s2.threads[u]) {
      if u != t {
        assert StillCurrent(s, u, s.threads[u]);
        assert Signals.ThreadOk(s, u, s.threads[u]) && Places.ThreadOk(s, u, s.threads[u]);
      }
    }
  }

  lemma RestKeeps(s: State, a: Action)
    requires CustodyInv(s) && Step(s, a).Some?
    requires a.Begin? || a.Wakes? || a.Exits? || a.Spawns? || a.Gates? || a.Environment?
    ensures AllCurrent(Step(s, a).value)
  {
    var s2 := Step(s, a).value;
    forall u | u in s2.threads ensures StillCurrent(s2, u, s2.threads[u]) {
      if u in s.threads { assert StillCurrent(s, u, s.threads[u]); }
      match a
      case Begin(t, ch) =>
        match ch {
          case StartRestart(_, _) =>
          case StartDispatch(_) =>
          case StartAwait(_) =>
          case StartClose =>
        }
      case Wakes(t) =>
      case Exits(t) =>
      case Spawns(t, v) =>
      case Gates(t, ch) => GateStaysOut(s, t, ch);
      case Environment(e) => EnvLeaves(s, e);
    }
  }

  lemma GateStaysOut(s: State, t: Tid, ch: Choice)
    requires GateMove(s, t, ch).Some?
    ensures !Replacing(GateMove(s, t, ch).value.2) && !GateMove(s, t, ch).value.2.KillOld?
  {
    match PcOf(s, t)
    case DispLock(h) =>
    case DispRead(h) => if s.gate.closed {} else {}
    case AwaitSnap(h) => if s.handles[h].done.Some? {} else {}
    case AwaitChan(h, c) =>
    case CloseSwap => if s.gate.closed {} else {}
    case CloseStop =>
    case CloseBarrier =>
    case CloseBarrierEnd =>
    case CloseSnapshot =>
    case CloseKill(left) => if left == {} {} else {}
    case CloseWait =>
  }

  lemma EnvLeaves(s: State, e: Env)
    requires Places.PlacesInv(s) && EnvStep(s, e).Some?
    ensures EnvStep(s, e).value.slots == s.slots && EnvStep(s, e).value.threads == s.threads
    ensures forall h | h in s.place && s.place[h].Old? ::
              h in EnvStep(s, e).value.place && EnvStep(s, e).value.place[h] == s.place[h]
  {
    match e
    case BootOk(_, _) =>
    case BootFail(_) =>
    case Reap(sid) => assert Places.StartOk(s, sid);
    case KillHung(_) =>
  }

  lemma StepKeeps(s: State, a: Action)
    requires CustodyInv(s) && Step(s, a).Some?
    ensures CustodyInv(Step(s, a).value)
  {
    Places.StepKeeps(s, a);
    Signals.StepKeeps(s, a);
    match a
    case HandleOp(t, name) => HandleKeeps(s, t, name);
    case Starts(t, ch) => StartKeeps(s, t, ch);
    case Kills(t) => KillKeeps(s, t);
    case Swaps(t) => SwapKeeps(s, t);
    case _ => RestKeeps(s, a);
  }

  lemma {:induction false} RunKeeps(r: seq<State>, acts: seq<Action>, n: nat)
    requires IsRun(r, acts) && n < |r|
    ensures CustodyInv(r[n])
  {
    if n == 0 {
      Places.InitHolds(r[0]);
      Signals.InitHolds(r[0]);
    } else {
      RunKeeps(r, acts, n - 1);
      StepOf(r, acts, n - 1);
      StepKeeps(r[n - 1], acts[n - 1]);
    }
  }

  // ---------------------------------------------------------------- whole runs

  /** The second stale check before the swap (pool.go:760) never finds the slot taken. */
  lemma SwapFindsItsOwnSlot(r: seq<State>, acts: seq<Action>, n: nat, t: Tid)
    requires IsRun(r, acts) && n < |r| && PcOf(r[n], t).Swap?
    ensures Current(r[n], PcOf(r[n], t).j)
  {
    RunKeeps(r, acts, n);
    assert StillCurrent(r[n], t, PcOf(r[n], t));
  }

  datatype Custodian = Thread(t: Tid) | Task(sid: Sid)

  /** A thread holding a new worker or about to kill the one it replaced, or a start task with its result. */
  ghost predicate Holds(s: State, c: Custodian, h: Hid) {
    match c
    case Thread(t) =>
      var pc := PcOf(s, t);
      (Places.HasNew(pc) && pc.h == h) || (pc.KillOld? && pc.j.failed == h && h in s.replacedBy)
    case Task(sid) => sid in s.starts && s.starts[sid].Produced? && s.starts[sid].h == h
  }

  ghost predicate InASlot(s: State, h: Hid) {
    exists id :: id in s.slots && s.slots[id] == h
  }

  /** The custodian recorded in place, for a worker that is in no slot. */
  lemma HolderIsPlaced(s: State, c: Custodian, h: Hid)
    requires CustodyInv(s) && h in s.handles && Holds(s, c, h)
    ensures h in s.place
    ensures match c
            case Thread(t) => s.place[h] == New(t) || s.place[h] == Old(t)
            case Task(sid) => s.place[h] == InStart(sid)
  {
    match c
    case Thread(t) =>
      assert Places.ThreadOk(s, t, PcOf(s, t)) && StillCurrent(s, t, PcOf(s, t)) && Places.PlaceOk(s, h);
      if PcOf(s, t).KillOld? && Current(s, PcOf(s, t).j) { assert Places.SlotOk(s, PcOf(s, t).j.slot); }
    case Task(sid) => assert Places.StartOk(s, sid);
  }

  /**
    * Every worker ever started is in its slot, or with a custodian, or killed;
    * two custodians never share a worker, and none holds one that is in a slot.
    */
  lemma EveryWorkerAccounted(r: seq<State>, acts: seq<Action>, n: nat, h: Hid)
    requires IsRun(r, acts) && n < |r| && h in r[n].handles
    ensures h in r[n].killed || InASlot(r[n], h) || exists c :: Holds(r[n], c, h)
    ensures forall c, d | Holds(r[n], c, h) && Holds(r[n], d, h) :: c == d
    ensures InASlot(r[n], h) ==> forall c :: !Holds(r[n], c, h)
  {
    RunKeeps(r, acts, n);
    var s := r[n];
    assert Places.PlaceOk(s, h);
    match s.place[h] {
      case InSlot => assert s.handles[h].slot in s.slots;
      case New(t) => assert Holds(s, Thread(t), h);
      case Old(t) => assert Holds(s, Thread(t), h);
      case InStart(sid) => assert Holds(s, Task(sid), h);
      case Dead =>
    }
    forall c, d | Holds(s, c, h) && Holds(s, d, h) ensures c == d { HolderIsPlaced(s, c, h); HolderIsPlaced(s, d, h); }
    if InASlot(s, h) {
      var id :| id in s.slots && s.slots[id] == h;
      assert Places.SlotOk(s, id);
      forall c ensures !Holds(s, c, h) { if Holds(s, c, h) { HolderIsPlaced(s, c, h); } }
    }
  }
}
