/**
  * Close waits for every dispatched restart: the barrier on restartMu makes
  * restartWG.Add and restartWG.Wait safe against each other (pool.go:566, 2063).
  */
module RestartWaitGroup {
  import opened Common
  import opened Restart
  import Places = RestartPlaces

  predicate Tracked(pc: Pc) {
    Places.HasJob(pc) && pc.j.tracked
  }

  ghost predicate ThreadOk(s: State, t: Tid, pc: Pc) {
    && (Tracked(pc) <==> t in s.tracked)
    && (pc.DispRead? || pc.DispAdd? || pc.CloseBarrierEnd? ==> s.gate.dispatchMu == Some(t))
    && (pc.DispAdd? ==> !s.gate.barrier)
    && (Places.InClose(pc) ==> s.gate.closed)
    && (pc.CloseSnapshot? || pc.CloseKill? || pc.CloseWait? ==> s.gate.barrier)
  }

  ghost predicate GlobalOk(s: State) {
    && s.wg == |s.tracked| && s.tracked <= s.threads.Keys
    && (s.gate.barrier ==> s.gate.closed)
    && (s.gate.returned ==> s.gate.barrier && s.tracked == {})
  }

  ghost predicate WaitGroupInv(s: State) {
    GlobalOk(s) && forall t {:trigger ThreadOk(s, t, s.threads[t])} | t in s.threads :: ThreadOk(s, t, s.threads[t])
  }

  /** A step that leaves gate and wait group alone and keeps its thread tracked or untracked. */
  lemma QuietRule(s: State, s2: State, t: Tid, pc: Pc)
    requires WaitGroupInv(s) && s2.gate == s.gate && s2.wg == s.wg && s2.tracked == s.tracked
    requires s2.threads == s.threads[t := pc]
    requires Tracked(pc) <==> Tracked(PcOf(s, t))
    requires !pc.DispRead? && !pc.DispAdd? && !Places.InClose(pc)
    ensures WaitGroupInv(s2)
  {
    if t in s.threads { assert ThreadOk(s, t, s.threads[t]); }
    forall u | u in s2.threads ensures ThreadOk(s2, u, s2.threads[u]) {
      if u != t { assert ThreadOk(s, u, s.threads[u]); }
    }
  }

  lemma StartStaysOnJob(s: State, t: Tid, ch: Choice)
    requires StartMove(s, t, ch).Some?
    ensures var pc := StartMove(s, t, ch).value.2;
            Places.HasJob(PcOf(s, t)) && Places.HasJob(pc) && pc.j == PcOf(s, t).j
  {
    match PcOf(s, t)
    case StartWorker(j) => if s.gate.stopped {} else {}
    case Starting(j, sid) => if ch.GiveUp? {} else if ch.TimeOut? {} else if s.starts[sid].Produced? {} else {}
  }

  lemma KillStaysOnJob(s: State, t: Tid)
    requires KillMove(s, t).Some?
    ensures var pc := KillMove(s, t).value.3; Places.HasJob(PcOf(s, t)) && Places.HasJob(pc) && pc.j == PcOf(s, t).j
  {
    match PcOf(s, t)
    case StartErr(j) => if s.gate.closed {} else {}
    case SwapLock(j, h) =>
    case SwapClosed(j, h) => if s.gate.closed {} else {}
    case Swap(j, h) =>
    case KillNew(j, h) =>
    case KillOld(j) =>
  }

  lemma BeginKeeps(s: State, t: Tid, ch: Choice)
    requires WaitGroupInv(s) && BeginStep(s, t, ch).Some?
    ensures WaitGroupInv(BeginStep(s, t, ch).value)
  {
    match ch { case StartRestart(_, _) => case StartDispatch(_) => case StartAwait(_) => case StartClose => }
    QuietRule(s, BeginStep(s, t, ch).value, t, FirstPc(s, ch).value);
  }

  lemma HandleKeeps(s: State, t: Tid, name: nat)
    requires WaitGroupInv(s) && HandleStep(s, t, name).Some?
    ensures WaitGroupInv(HandleStep(s, t, name).value)
  {
    var o := s.handles[PcOf(s, t).j.failed];
    Places.HandleMovesOn(s, t, o, name);
    QuietRule(s, HandleStep(s, t, name).value, t, HandleMove(s, t, o, name).value.1);
  }

  lemma JobKeeps(s: State, a: Action)
    requires WaitGroupInv(s) && Step(s, a).Some? && (a.Starts? || a.Kills? || a.Swaps?)
    ensures WaitGroupInv(Step(s, a).value)
  {
    var s2 := Step(s, a).value;
    match a
    case Starts(t, ch) => StartStaysOnJob(s, t, ch); QuietRule(s, s2, t, StartMove(s, t, ch).value.2);
    case Kills(t) => KillStaysOnJob(s, t); QuietRule(s, s2, t, KillMove(s, t).value.3);
    case Swaps(t) => QuietRule(s, s2, t, KillOld(PcOf(s, t).j));
  }

  lemma WakeKeeps(s: State, t: Tid)
    requires WaitGroupInv(s) && WakeStep(s, t).Some?
    ensures WaitGroupInv(WakeStep(s, t).value)
  {
    var s2 := WakeStep(s, t).value;
    assert ThreadOk(s, t, PcOf(s, t));
    forall u | u in s2.threads ensures ThreadOk(s2, u, s2.threads[u]) {
      assert ThreadOk(s, u, s.threads[u]);
      if u != t { if s.threads[u].Parked? {} else {} }
    }
  }

  lemma ExitKeeps(s: State, t: Tid)
    requires WaitGroupInv(s) && ExitStep(s, t).Some?
    ensures WaitGroupInv(ExitStep(s, t).value)
  {
    var s2 := ExitStep(s, t).value;
    assert ThreadOk(s, t, PcOf(s, t));
    if PcOf(s, t).j.tracked {} else {}
    forall u | u in s2.threads ensures ThreadOk(s2, u, s2.threads[u]) {
      assert ThreadOk(s, u, s.threads[u]);
      if u != t { assert s2.threads[u] == s.threads[u]; }
    }
  }

  lemma SpawnKeeps(s: State, t: Tid, u: Tid)
    requires WaitGroupInv(s) && SpawnStep(s, t, u).Some?
    ensures WaitGroupInv(SpawnStep(s, t, u).value)
  {
    var s2 := SpawnStep(s, t, u).value;
    assert ThreadOk(s, t, PcOf(s, t));
    if u in s.threads { assert ThreadOk(s, u, s.threads[u]); }
    forall v | v in s2.threads ensures ThreadOk(s2, v, s2.threads[v]) {
      if v != t && v != u { assert ThreadOk(s, v, s.threads[v]); }
    }
  }

  lemma EnvKeeps(s: State, e: Env)
    requires WaitGroupInv(s) && EnvStep(s, e).Some?
    ensures WaitGroupInv(EnvStep(s, e).value)
  {
    var s2 := EnvStep(s, e).value;
    assert s2.gate == s.gate && s2.wg == s.wg && s2.tracked == s.tracked && s2.threads == s.threads by {
      match e { case BootOk(_, _) => case BootFail(_) => case Reap(_) => case KillHung(_) => }
    }
    forall u | u in s2.threads ensures ThreadOk(s2, u, s2.threads[u]) { assert ThreadOk(s, u, s.threads[u]); }
  }

  /** A step of the gate on an explicit new gate, for a thread outside every restart. */
  lemma GateRule(s: State, s2: State, t: Tid, pc: Pc)
    requires WaitGroupInv(s) && s2.wg == s.wg && s2.tracked == s.tracked && s2.threads == s.threads[t := pc]
    requires !Places.HasJob(PcOf(s, t)) && !Places.HasJob(pc) && GlobalOk(s2) && ThreadOk(s2, t, pc)
    requires s2.gate.dispatchMu == s.gate.dispatchMu || s.gate.dispatchMu in {None, Some(t)}
    requires (s.gate.closed ==> s2.gate.closed) && (s.gate.barrier ==> s2.gate.barrier)
    requires s2.gate.barrier && !s.gate.barrier ==> s.gate.dispatchMu == Some(t)
    ensures WaitGroupInv(s2)
  {
    forall u | u in s2.threads ensures ThreadOk(s2, u, s2.threads[u]) {
      if u != t { assert ThreadOk(s, u, s.threads[u]); }
    }
  }

  lemma DispatchKeeps(s: State, t: Tid, ch: Choice)
    requires WaitGroupInv(s) && GateStep(s, t, ch).Some? && !Places.InClose(PcOf(s, t))
    ensures WaitGroupInv(GateStep(s, t, ch).value)
  {
    assert ThreadOk(s, t, PcOf(s, t));
    match PcOf(s, t) {
      case DispLock(h) =>
      case DispRead(h) => if s.gate.closed {} else {}
      case AwaitSnap(h) => if s.handles[h].done.Some? {} else {}
      case AwaitChan(h, c) =>
      case CloseSwap => if s.gate.closed {} else {}
    }
    GateRule(s, GateStep(s, t, ch).value, t, GateMove(s, t, ch).value.2);
  }

  lemma CloseKeeps(s: State, t: Tid, ch: Choice)
    requires WaitGroupInv(s) && GateStep(s, t, ch).Some? && Places.InClose(PcOf(s, t))
    ensures WaitGroupInv(GateStep(s, t, ch).value)
  {
    assert ThreadOk(s, t, PcOf(s, t));
    match PcOf(s, t) {
      case CloseStop =>
      case CloseBarrier =>
      case CloseBarrierEnd =>
      case CloseSnapshot =>
      case CloseKill(left) => if left == {} {} else {}
      case CloseWait =>
    }
    GateRule(s, GateStep(s, t, ch).value, t, GateMove(s, t, ch).value.2);
  }

  lemma StepKeeps(s: State, a: Action)
    requires WaitGroupInv(s) && Step(s, a).Some?
    ensures WaitGroupInv(Step(s, a).value)
  {
    match a
    case Begin(t, ch) => BeginKeeps(s, t, ch);
    case HandleOp(t, name) => HandleKeeps(s, t, name);
    case Gates(t, ch) => if Places.InClose(PcOf(s, t)) { CloseKeeps(s, t, ch); } else { DispatchKeeps(s, t, ch); }
    case Wakes(t) => WakeKeeps(s, t);
    case Exits(t) => ExitKeeps(s, t);
    case Spawns(t, u) => SpawnKeeps(s, t, u);
    case Environment(e) => EnvKeeps(s, e);
    case _ => JobKeeps(s, a);
  }

  lemma {:induction false} RunKeeps(r: seq<State>, acts: seq<Action>, n: nat)
    requires IsRun(r, acts) && n < |r|
    ensures WaitGroupInv(r[n])
  {
    if n > 0 {
      RunKeeps(r, acts, n - 1);
      StepOf(r, acts, n - 1);
      StepKeeps(r[n - 1], acts[n - 1]);
    }
  }

  lemma StepStaysReturned(s: State, a: Action)
    requires Step(s, a).Some? && s.gate.returned
    ensures Step(s, a).value.gate.returned
  {
    match a {
      case Gates(t, ch) =>
        match PcOf(s, t) {
          case DispRead(h) => if s.gate.closed {} else {}
          case CloseSwap => if s.gate.closed {} else {}
          case CloseKill(left) => if left == {} {} else {}
          case _ =>
        }
      case Environment(e) => match e { case BootOk(_, _) => case BootFail(_) => case Reap(_) => case KillHung(_) => }
      case _ =>
    }
  }

  lemma {:induction false} ReturnedForGood(r: seq<State>, acts: seq<Action>, m: nat, n: nat)
    requires IsRun(r, acts) && m <= n < |r| && r[m].gate.returned
    ensures r[n].gate.returned
    decreases n
  {
    if m < n {
      ReturnedForGood(r, acts, m, n - 1);
      StepOf(r, acts, n - 1);
      StepStaysReturned(r[n - 1], acts[n - 1]);
    }
  }

  /** After Close has returned no dispatched restart runs, and none is ever started again. */
  lemma CloseDrainsRestarts(r: seq<State>, acts: seq<Action>, m: nat, n: nat, t: Tid)
    requires IsRun(r, acts) && m <= n < |r| && r[m].gate.returned
    ensures !Tracked(PcOf(r[n], t)) && r[n].wg == 0
  {
    ReturnedForGood(r, acts, m, n);
    RunKeeps(r, acts, n);
    if t in r[n].threads { assert ThreadOk(r[n], t, r[n].threads[t]); }
  }
}
