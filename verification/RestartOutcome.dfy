/**
  * What a restart achieves: when restartWorker returns, the worker it was called
  * for has been replaced or killed, or the pool is closed; and a worker whose
  * start succeeded has taken the slot.
  */
module RestartOutcome {
  import opened Common
  import opened Restart
  import Places = RestartPlaces
  import Custody = RestartCustody

  /** The failed worker is out of use: replaced, killed, or of a pool that is closed. */
  predicate Settled(s: State, h: Hid) {
    s.gate.closed || h in s.killed || h in s.replacedBy
  }

  /** Inside restartWorker, past the check that the slot still holds the failed worker. */
  predicate Entered(pc: Pc) {
    Places.HasJob(pc) && !pc.Early? && !pc.Exit?
  }

  predicate Ending(pc: Pc) {
    pc.KillNew? || pc.FinLock? || pc.FinStore? || pc.FinClose? || pc.FinWake? || pc.FinUnlock?
  }

  predicate Losing(pc: Pc) {
    pc.LoserLock? || pc.LoserCheck? || pc.Parked?
  }

  ghost predicate ThreadOk(s: State, pc: Pc) {
    && (Entered(pc) ==> Current(s, pc.j) || pc.j.failed in s.replacedBy)
    && (Ending(pc) ==> Settled(s, pc.j.failed))
    && (Losing(pc) ==>
          pc.j.failed in s.handles && (s.handles[pc.j.failed].restarting || Settled(s, pc.j.failed)))
  }

  ghost predicate OutcomeInv(s: State) {
    && (s.gate.stopped ==> s.gate.closed)
    && forall t {:trigger ThreadOk(s, s.threads[t])} | t in s.threads :: ThreadOk(s, s.threads[t])
  }

  /** What no step undoes. */
  ghost predicate Goes(s: State, s2: State) {
    && (s.gate.closed ==> s2.gate.closed) && s.killed <= s2.killed && s.replacedBy.Keys <= s2.replacedBy.Keys
    && (forall h | h in s.handles ::
          h in s2.handles && (s.handles[h].restarting ==> s2.handles[h].restarting || Settled(s2, h)))
    && (forall id | id in s.slots :: id in s2.slots && (s2.slots[id] == s.slots[id] || s.slots[id] in s2.replacedBy))
  }

  lemma OthersKeep(s: State, s2: State, pc: Pc)
    requires ThreadOk(s, pc) && Goes(s, s2)
    ensures ThreadOk(s2, pc)
  {
  }

  lemma StepRule(s: State, s2: State, t: Tid, pc: Pc)
    requires OutcomeInv(s) && Goes(s, s2) && s2.threads == s.threads[t := pc] && ThreadOk(s2, pc)
    requires s2.gate.stopped ==> s2.gate.closed
    ensures OutcomeInv(s2)
  {
    forall u | u in s2.threads ensures ThreadOk(s2, s2.threads[u]) {
      if u != t {
        assert ThreadOk(s, s.threads[u]);
        OthersKeep(s, s2, s.threads[u]);
      }
    }
  }

  predicate Finishing(pc: Pc) {
    pc.Recheck? || pc.FinLock? || pc.FinStore? || pc.FinClose? || pc.FinUnlock?
  }

  lemma AskKeeps(s: State, t: Tid, name: nat)
    requires OutcomeInv(s) && HandleStep(s, t, name).Some? && !Finishing(PcOf(s, t))
    ensures OutcomeInv(HandleStep(s, t, name).value)
  {
    var o, s2 := s.handles[PcOf(s, t).j.failed], HandleStep(s, t, name).value;
    assert ThreadOk(s, PcOf(s, t));
    match PcOf(s, t) {
      case Early(j) => if Current(s, j) {} else {}
      case Cas(_) => if o.restarting {} else {}
      case LoserLock(_) =>
      case LoserCheck(_) => if o.restarting {} else {}
      case PubLock(_) =>
      case Pub(_) =>
    }
    StepRule(s, s2, t, HandleMove(s, t, o, name).value.1);
  }

  lemma FinishKeeps(s: State, t: Tid, name: nat)
    requires OutcomeInv(s) && HandleStep(s, t, name).Some? && Finishing(PcOf(s, t))
    ensures OutcomeInv(HandleStep(s, t, name).value)
  {
    var o, s2 := s.handles[PcOf(s, t).j.failed], HandleStep(s, t, name).value;
    assert ThreadOk(s, PcOf(s, t));
    match PcOf(s, t) {
      case Recheck(j) => if Current(s, j) && !s.gate.closed {} else {}
      case FinLock(_) =>
      case FinStore(_) =>
      case FinClose(_) =>
      case FinUnlock(_) =>
    }
    StepRule(s, s2, t, HandleMove(s, t, o, name).value.1);
  }

  lemma StartKeeps(s: State, t: Tid, ch: Choice)
    requires OutcomeInv(s) && StartStep(s, t, ch).Some?
    ensures OutcomeInv(StartStep(s, t, ch).value)
  {
    assert ThreadOk(s, PcOf(s, t));
    match PcOf(s, t) {
      case StartWorker(j) => if s.gate.stopped {} else {}
      case Starting(j, sid) => if ch.GiveUp? {} else if ch.TimeOut? {} else if s.starts[sid].Produced? {} else {}
    }
    StepRule(s, StartStep(s, t, ch).value, t, StartMove(s, t, ch).value.2);
  }

  lemma KillKeeps(s: State, t: Tid)
    requires OutcomeInv(s) && KillStep(s, t).Some?
    ensures OutcomeInv(KillStep(s, t).value)
  {
    assert ThreadOk(s, PcOf(s, t));
    match PcOf(s, t) {
      case StartErr(j) => if s.gate.closed {} else {}
      case SwapLock(j, h) =>
      case SwapClosed(j, h) => if s.gate.closed {} else {}
      case Swap(j, h) =>
      case KillNew(j, h) =>
      case KillOld(j) =>
    }
    StepRule(s, KillStep(s, t).value, t, KillMove(s, t).value.3);
  }

  lemma SwapKeeps(s: State, t: Tid)
    requires OutcomeInv(s) && SwapStep(s, t).Some?
    ensures OutcomeInv(SwapStep(s, t).value)
  {
    StepRule(s, SwapStep(s, t).value, t, KillOld(PcOf(s, t).j));
  }

  lemma GateIsApart(s: State, t: Tid, ch: Choice)
    requires GateMove(s, t, ch).Some? && (Places.InClose(PcOf(s, t)) ==> s.gate.closed)
    requires s.gate.stopped ==> s.gate.closed
    ensures var (g, killed, pc) := GateMove(s, t, ch).value;
            && !Places.HasJob(pc) && s.killed <= killed
            && (s.gate.closed ==> g.closed) && (g.stopped ==> g.closed)
  {
    match PcOf(s, t)
    case DispRead(h) => if s.gate.closed {} else {}
    case AwaitSnap(h) => if s.handles[h].done.Some? {} else {}
    case CloseSwap => if s.gate.closed {} else {}
    case CloseKill(left) => if left == {} {} else {}
    case _ =>
  }

  lemma GateKeeps(s: State, t: Tid, ch: Choice)
    requires OutcomeInv(s) && Places.PlacesInv(s) && GateStep(s, t, ch).Some?
    ensures OutcomeInv(GateStep(s, t, ch).value)
  {
    assert Places.ThreadOk(s, t, PcOf(s, t));
    GateIsApart(s, t, ch);
    var (g, killed, pc) := GateMove(s, t, ch).value;
    StepRule(s, Goto(s.(gate := g, killed := killed), t, pc), t, pc);
  }

  lemma WakeKeeps(s: State, t: Tid)
    requires OutcomeInv(s) && WakeStep(s, t).Some?
    ensures OutcomeInv(WakeStep(s, t).value)
  {
    var s2 := WakeStep(s, t).value;
    assert ThreadOk(s, PcOf(s, t));
    forall u | u in s2.threads ensures ThreadOk(s2, s2.threads[u]) {
      if u in s.threads { assert ThreadOk(s, s.threads[u]); }
    }
  }

  lemma SpawnKeeps(s: State, t: Tid, u: Tid)
    requires OutcomeInv(s) && SpawnStep(s, t, u).Some?
    ensures OutcomeInv(SpawnStep(s, t, u).value)
  {
    var s2 := SpawnStep(s, t, u).value;
    forall v | v in s2.threads ensures ThreadOk(s2, s2.threads[v]) {
      if v != t && v != u { assert ThreadOk(s, s.threads[v]); }
    }
  }

  lemma EnvKeeps(s: State, e: Env)
    requires OutcomeInv(s) && EnvStep(s, e).Some?
    ensures OutcomeInv(EnvStep(s, e).value)
  {
    var s2 := EnvStep(s, e).value;
    assert Goes(s, s2) && s2.threads == s.threads && s2.gate == s.gate by {
      match e { case BootOk(_, _) => case BootFail(_) => case Reap(_) => case KillHung(_) => }
    }
    forall v | v in s2.threads ensures ThreadOk(s2, s2.threads[v]) {
      assert ThreadOk(s, s.threads[v]);
      OthersKeep(s, s2, s.threads[v]);
    }
  }

  lemma StepKeeps(s: State, a: Action)
    requires OutcomeInv(s) && Places.PlacesInv(s) && Step(s, a).Some?
    ensures OutcomeInv(Step(s, a).value)
  {
    match a
    case Begin(t, ch) => StepRule(s, Step(s, a).value, t, FirstPc(s, ch).value);
    case HandleOp(t, name) =>
      if Finishing(PcOf(s, t)) { FinishKeeps(s, t, name); } else { AskKeeps(s, t, name); }
    case Starts(t, ch) => StartKeeps(s, t, ch);
    case Kills(t) => KillKeeps(s, t);
    case Swaps(t) => SwapKeeps(s, t);
    case Wakes(t) => WakeKeeps(s, t);
    case Gates(t, ch) => GateKeeps(s, t, ch);
    case Exits(t) => StepRule(s, Step(s, a).value, t, Idle);
    case Spawns(t, u) => SpawnKeeps(s, t, u);
    case Environment(e) => EnvKeeps(s, e);
  }

  lemma {:induction false} RunKeeps(r: seq<State>, acts: seq<Action>, n: nat)
    requires IsRun(r, acts) && n < |r|
    ensures OutcomeInv(r[n])
  {
    if n > 0 {
      RunKeeps(r, acts, n - 1);
      Places.RunKeeps(r, acts, n - 1);
      StepOf(r, acts, n - 1);
      StepKeeps(r[n - 1], acts[n - 1]);
    }
  }

  // ---------------------------------------------------------------- what a caller may rely on

  lemma Lasts(r: seq<State>, acts: seq<Action>, i: nat, h: Hid)
    requires IsRun(r, acts) && i < |acts| && Settled(r[i], h)
    ensures Settled(r[i + 1], h)
  {
    StepOf(r, acts, i);
    StepGoes(r[i], acts[i]);
  }

  lemma StepGoes(s: State, a: Action)
    requires Step(s, a).Some?
    ensures (s.gate.closed ==> Step(s, a).value.gate.closed) && s.killed <= Step(s, a).value.killed
    ensures s.replacedBy.Keys <= Step(s, a).value.replacedBy.Keys
  {
    match a
    case Gates(t, ch) => GateGoes(s, t, ch);
    case Environment(e) => match e { case BootOk(_, _) => case BootFail(_) => case Reap(_) => case KillHung(_) => }
    case _ =>
  }

  lemma GateGoes(s: State, t: Tid, ch: Choice)
    requires GateMove(s, t, ch).Some?
    ensures var (g, killed, pc) := GateMove(s, t, ch).value; s.killed <= killed && (s.gate.closed ==> g.closed)
  {
    match PcOf(s, t)
    case CloseKill(left) => if left == {} {} else {}
    case _ =>
  }

  /** t is in the call of restartWorker that made job j, past its first check. */
  ghost predicate InCall(s: State, t: Tid, j: Job) {
    var pc := PcOf(s, t);
    (Entered(pc) || pc.Exit?) && pc.j == j && (pc.Exit? ==> Settled(s, j.failed))
  }

  lemma StaysInCall(r: seq<State>, acts: seq<Action>, i: nat, t: Tid, j: Job)
    requires IsRun(r, acts) && i < |acts| && InCall(r[i], t, j) && OutcomeInv(r[i]) && OutcomeInv(r[i + 1])
    ensures InCall(r[i + 1], t, j) || PcOf(r[i + 1], t).Idle?
  {
    StepOf(r, acts, i);
    var pc := PcOf(r[i], t);
    assert ThreadOk(r[i], pc);
    if Settled(r[i], j.failed) { Lasts(r, acts, i, j.failed); }
    CallStep(r[i], acts[i], t, j);
  }

  /** The thread whose step an action is. */
  function Actor(a: Action): Option<Tid> {
    if a.Environment? then None else Some(a.t)
  }

  /** A thread inside a call that is not parked moves only by its own steps. */
  lemma OthersStay(s: State, a: Action, t: Tid)
    requires Step(s, a).Some? && Actor(a) != Some(t) && !PcOf(s, t).Idle? && !PcOf(s, t).Parked?
    ensures PcOf(Step(s, a).value, t) == PcOf(s, t)
  {
    match a
    case Environment(e) => match e { case BootOk(_, _) => case BootFail(_) => case Reap(_) => case KillHung(_) => }
    case _ =>
  }

  /** Where a call that is past its first check may be after one step. */
  ghost predicate NextInCall(s: State, pc: Pc, j: Job, next: Pc) {
    || next.Idle?
    || ((Entered(next) || next.Exit?) && next.j == j
        && (next.Exit? ==>
              pc.Exit? || pc.FinUnlock?
              || (pc.LoserCheck? && j.failed in s.handles && !s.handles[j.failed].restarting)))
  }

  lemma HandleCallStep(s: State, u: Tid, name: nat, t: Tid, j: Job)
    requires HandleStep(s, u, name).Some? && (Entered(PcOf(s, t)) || PcOf(s, t).Exit?) && PcOf(s, t).j == j
    ensures NextInCall(s, PcOf(s, t), j, PcOf(HandleStep(s, u, name).value, t))
  {
    match PcOf(s, u)
    case LoserCheck(_) => if s.handles[PcOf(s, u).j.failed].restarting {} else {}
    case _ =>
  }

  lemma CallStep(s: State, a: Action, t: Tid, j: Job)
    requires Step(s, a).Some? && (Entered(PcOf(s, t)) || PcOf(s, t).Exit?) && PcOf(s, t).j == j
    ensures NextInCall(s, PcOf(s, t), j, PcOf(Step(s, a).value, t))
  {
    if Actor(a) != Some(t) && !PcOf(s, t).Parked? {
      OthersStay(s, a, t);
    } else {
      match a
      case HandleOp(u, name) => HandleCallStep(s, u, name, t, j);
      case Environment(e) => match e { case BootOk(_, _) => case BootFail(_) => case Reap(_) => case KillHung(_) => }
      case _ =>
    }
  }

  /**
    * A restartWorker call that found its worker in the slot has, when it is about to return, settled it: the
    * worker has been replaced or killed, or the pool is closed; the same for calls that waited for another's.
    */
  lemma {:induction false} ReturnsSettled(r: seq<State>, acts: seq<Action>, m: nat, n: nat, t: Tid, j: Job)
    requires IsRun(r, acts) && m <= n < |r| && PcOf(r[m], t) == Cas(j)
    requires forall i | m <= i <= n :: !PcOf(r[i], t).Idle?
    ensures InCall(r[n], t, j)
    ensures PcOf(r[n], t).Exit? ==> Settled(r[n], j.failed)
    decreases n
  {
    if m < n {
      ReturnsSettled(r, acts, m, n - 1, t, j);
      RunKeeps(r, acts, n - 1);
      RunKeeps(r, acts, n);
      StaysInCall(r, acts, n - 1, t, j);
    }
  }

  /** The restart of j put h into the slot in place of the failed worker. */
  predicate Took(s: State, j: Job, h: Hid) {
    j.failed in s.replacedBy && s.replacedBy[j.failed] == h
  }

  /** On the way from a successful start of h to the end of the call. */
  ghost predicate Swapping(s: State, t: Tid, j: Job, h: Hid) {
    var pc := PcOf(s, t);
    || pc == SwapLock(j, h) || pc == SwapClosed(j, h) || pc == Swap(j, h)
    || (pc == KillNew(j, h) && s.gate.closed)
    || (pc == KillOld(j) && Took(s, j, h))
    || (((Ending(pc) && !pc.KillNew?) || pc.Exit?) && pc.j == j
        && (s.gate.closed || (Took(s, j, h) && j.failed in s.killed)))
  }

  lemma SwapKillStep(s: State, t: Tid, j: Job, h: Hid)
    requires KillStep(s, t).Some? && Swapping(s, t, j, h) && (PcOf(s, t).Swap? ==> Current(s, j))
    ensures Swapping(KillStep(s, t).value, t, j, h)
  {
    match PcOf(s, t)
    case SwapClosed(_, _) => if s.gate.closed {} else {}
    case _ =>
  }

  lemma SwapFinStep(s: State, t: Tid, name: nat, j: Job, h: Hid)
    requires HandleStep(s, t, name).Some? && Swapping(s, t, j, h)
    ensures Swapping(HandleStep(s, t, name).value, t, j, h)
  {
  }

  lemma SwapOwnStep(s: State, a: Action, t: Tid, j: Job, h: Hid)
    requires Step(s, a).Some? && Actor(a) == Some(t) && Swapping(s, t, j, h) && (PcOf(s, t).Swap? ==> Current(s, j))
    ensures var s2 := Step(s, a).value; Swapping(s2, t, j, h) || PcOf(s2, t).Idle?
  {
    if Places.HasNew(PcOf(s, t)) || PcOf(s, t).KillOld? {
      SwapActs(s, a, t);
      if a.Kills? { SwapKillStep(s, t, j, h); }
    } else {
      FinActs(s, a, t);
      if a.HandleOp? { SwapFinStep(s, t, a.name, j, h); }
    }
  }

  lemma SwapActs(s: State, a: Action, t: Tid)
    requires Step(s, a).Some? && Actor(a) == Some(t) && (Places.HasNew(PcOf(s, t)) || PcOf(s, t).KillOld?)
    ensures a.Kills? || a.Swaps?
  {
  }

  lemma FinActs(s: State, a: Action, t: Tid)
    requires Step(s, a).Some? && Actor(a) == Some(t)
    requires (Ending(PcOf(s, t)) && !PcOf(s, t).KillNew?) || PcOf(s, t).Exit?
    ensures a.HandleOp? || a.Wakes? || a.Exits?
  {
  }

  lemma {:induction false} SwapsIn(r: seq<State>, acts: seq<Action>, m: nat, n: nat, t: Tid, j: Job, h: Hid)
    requires IsRun(r, acts) && m <= n < |r| && PcOf(r[m], t) == SwapLock(j, h)
    requires forall i | m <= i <= n :: !PcOf(r[i], t).Idle?
    ensures Swapping(r[n], t, j, h)
    decreases n
  {
    if m < n {
      SwapsIn(r, acts, m, n - 1, t, j, h);
      SwapsOnce(r, acts, n - 1, t, j, h);
    }
  }

  lemma SwapsOnce(r: seq<State>, acts: seq<Action>, i: nat, t: Tid, j: Job, h: Hid)
    requires IsRun(r, acts) && i < |acts| && Swapping(r[i], t, j, h)
    ensures Swapping(r[i + 1], t, j, h) || PcOf(r[i + 1], t).Idle?
  {
    StepOf(r, acts, i);
    StepGoes(r[i], acts[i]);
    Places.RunKeeps(r, acts, i);
    if Took(r[i], j, h) { Places.StepReplaces(r[i], acts[i], j.failed); }
    if Actor(acts[i]) != Some(t) {
      OthersStay(r[i], acts[i], t);
    } else {
      if PcOf(r[i], t).Swap? { Custody.SwapFindsItsOwnSlot(r, acts, i, t); }
      SwapOwnStep(r[i], acts[i], t, j, h);
    }
  }

  /**
    * A restart whose start succeeded, and that takes the result, has before it returns put the new worker into
    * the slot and killed the old one, unless the pool was closed.
    */
  lemma StartedWorkerIsSwappedIn(r: seq<State>, acts: seq<Action>, m: nat, n: nat, t: Tid, j: Job, sid: Sid)
    requires IsRun(r, acts) && m < n < |r| && PcOf(r[m], t) == Starting(j, sid) && acts[m].Starts? && acts[m].t == t
    requires acts[m].ch.Go? && sid in r[m].starts && r[m].starts[sid].Produced?
    requires forall i | m <= i <= n :: !PcOf(r[i], t).Idle?
    requires PcOf(r[n], t).Exit?
    ensures r[n].gate.closed || (Took(r[n], j, r[m].starts[sid].h) && j.failed in r[n].killed)
  {
    StepOf(r, acts, m);
    SwapsIn(r, acts, m + 1, n, t, j, r[m].starts[sid].h);
  }

  /** A restart is tried if and only if the slot still holds the worker it was called for. */
  lemma TriedIfCurrent(r: seq<State>, acts: seq<Action>, i: nat, t: Tid, j: Job)
    requires IsRun(r, acts) && i < |acts| && PcOf(r[i], t) == Early(j) && PcOf(r[i + 1], t) != Early(j)
    ensures PcOf(r[i + 1], t) == if Current(r[i], j) then Cas(j) else Exit(j)
  {
    StepOf(r, acts, i);
    EarlyStep(r[i], acts[i], t, j);
  }

  lemma EarlyStep(s: State, a: Action, t: Tid, j: Job)
    requires Step(s, a).Some? && PcOf(s, t) == Early(j)
    ensures var pc := PcOf(Step(s, a).value, t); pc == Early(j) || pc == if Current(s, j) then Cas(j) else Exit(j)
  {
    if Actor(a) != Some(t) { OthersStay(s, a, t); } else if Current(s, j) {} else {}
  }

  /** awaitRestart returns when no restart is published, its channel is closed, or its own context is done. */
  lemma AwaitReturns(r: seq<State>, acts: seq<Action>, i: nat, t: Tid)
    requires IsRun(r, acts) && i < |acts| && (PcOf(r[i], t).AwaitSnap? || PcOf(r[i], t).AwaitChan?)
    requires PcOf(r[i + 1], t).Idle?
    ensures PcOf(r[i], t).AwaitSnap? ==> PcOf(r[i], t).h in r[i].handles && r[i].handles[PcOf(r[i], t).h].done.None?
    ensures PcOf(r[i], t).AwaitChan? ==>
              || (PcOf(r[i], t).c in r[i].chans && r[i].chans[PcOf(r[i], t).c].closes > 0)
              || (acts[i].Gates? && acts[i].ch.GiveUp?)
  {
    StepOf(r, acts, i);
    if Actor(acts[i]) != Some(t) { OthersStay(r[i], acts[i], t); }
  }

  /** dispatchRestart starts its goroutine unless it reads the pool as closed. */
  lemma DispatchRefusesIff(r: seq<State>, acts: seq<Action>, i: nat, t: Tid)
    requires IsRun(r, acts) && i < |acts| && PcOf(r[i], t).DispRead? && PcOf(r[i + 1], t) != PcOf(r[i], t)
    ensures PcOf(r[i + 1], t) == if r[i].gate.closed then Idle else DispAdd(PcOf(r[i], t).h)
  {
    StepOf(r, acts, i);
    if Actor(acts[i]) != Some(t) { OthersStay(r[i], acts[i], t); }
  }

  /** And the goroutine restarts the worker dispatchRestart was called for. */
  lemma DispatchSpawns(r: seq<State>, acts: seq<Action>, i: nat, t: Tid)
    requires IsRun(r, acts) && i < |acts| && PcOf(r[i], t).DispAdd? && PcOf(r[i + 1], t) != PcOf(r[i], t)
    ensures acts[i].Spawns? && PcOf(r[i], t).h in r[i].handles
    ensures var h := PcOf(r[i], t).h; PcOf(r[i + 1], acts[i].u) == Early(Job(r[i].handles[h].slot, h, true))
  {
    StepOf(r, acts, i);
    if Actor(acts[i]) != Some(t) { OthersStay(r[i], acts[i], t); }
  }
}
