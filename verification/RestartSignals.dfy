/**
  * Restart signalling loses no wakeup: at most one thread owns a handle's
  * restart, each published channel is closed exactly once and by its creator,
  * it is never overwritten while open, and whoever is parked on the Cond or on
  * a channel has a thread on its way to signal it.
  */
module RestartSignals {
  import opened Common
  import opened Restart
  import Places = RestartPlaces

  /** From the won CompareAndSwap to the Store(false) of finishRestart. */
  predicate Owning(pc: Pc) {
    pc.PubLock? || pc.Pub? || Working(pc) || pc.FinLock? || pc.FinStore?
  }

  /** Between publishing the channel and finishRestart. */
  predicate Working(pc: Pc) {
    pc.Recheck? || pc.StartWorker? || pc.Starting? || pc.StartErr? || pc.SwapLock? || pc.SwapClosed? || pc.Swap?
    || pc.KillNew? || pc.KillOld?
  }

  /** From publishing the channel to closing it. */
  predicate Publishing(pc: Pc) {
    Working(pc) || pc.FinLock? || pc.FinStore? || pc.FinClose?
  }

  /** Points that hold the handle's restartMu. */
  predicate Locking(pc: Pc) {
    pc.LoserCheck? || pc.Pub? || pc.FinStore? || pc.FinClose? || pc.FinWake? || pc.FinUnlock?
  }

  /** Some thread will still Broadcast on h: it owns the restart, or is between Store(false) and Broadcast. */
  ghost predicate WillSignal(s: State, h: Hid)
    requires h in s.handles
  {
    s.handles[h].owner.Some?
    || (s.handles[h].mu.Some? && (PcOf(s, s.handles[h].mu.value).FinClose? || PcOf(s, s.handles[h].mu.value).FinWake?))
  }

  /** c is the open channel published on h by t. */
  ghost predicate OpenOn(s: State, h: Hid, c: Cid, t: Tid) {
    h in s.handles && s.handles[h].done == Some(c) && c in s.chans && s.chans[c] == Chan(h, t, 0)
  }

  ghost predicate JobOk(s: State, t: Tid, pc: Pc)
    requires Places.HasJob(pc)
  {
    && pc.j.failed in s.handles
    && (Owning(pc) ==> s.handles[pc.j.failed].owner == Some(t))
    && (Locking(pc) ==> s.handles[pc.j.failed].mu == Some(t))
    && (Publishing(pc) ==>
          s.handles[pc.j.failed].done.Some? && OpenOn(s, pc.j.failed, s.handles[pc.j.failed].done.value, t))
    && (pc.Parked? ==> WillSignal(s, pc.j.failed))
  }

  ghost predicate ThreadOk(s: State, t: Tid, pc: Pc) {
    && (Places.HasJob(pc) ==> JobOk(s, t, pc))
    && (pc.AwaitChan? ==> pc.c in s.chans && s.chans[pc.c].of == pc.h)
    && (pc.DispLock? || pc.DispRead? || pc.DispAdd? || pc.AwaitSnap? ==> pc.h in s.handles)
  }

  /** t is at a point of restartWorker for h. */
  predicate At(s: State, t: Tid, h: Hid) {
    Places.HasJob(PcOf(s, t)) && PcOf(s, t).j.failed == h
  }

  /** c is an open channel of h, and its creator is on its way to close it. */
  ghost predicate Pending(s: State, h: Hid, c: Cid) {
    && c in s.chans && s.chans[c].of == h && s.chans[c].closes == 0
    && At(s, s.chans[c].creator, h) && Publishing(PcOf(s, s.chans[c].creator))
  }

  ghost predicate HandleOk(s: State, h: Hid) {
    h in s.handles ==>
      var o := s.handles[h];
      && (o.restarting <==> o.owner.Some?)
      && (o.owner.Some? ==> At(s, o.owner.value, h) && Owning(PcOf(s, o.owner.value)))
      && (o.mu.Some? ==> At(s, o.mu.value, h) && Locking(PcOf(s, o.mu.value)))
      && (o.done.Some? ==> Pending(s, h, o.done.value))
  }

  ghost predicate ChanOk(s: State, c: Cid) {
    c in s.chans ==>
      && s.chans[c].of in s.handles
      && s.chans[c].closes <= 1
      && (s.chans[c].closes == 0 ==> s.handles[s.chans[c].of].done == Some(c))
  }

  ghost predicate SignalsInv(s: State) {
    && (forall t {:trigger ThreadOk(s, t, s.threads[t])} | t in s.threads :: ThreadOk(s, t, s.threads[t]))
    && (forall h {:trigger HandleOk(s, h)} :: HandleOk(s, h))
    && (forall c {:trigger ChanOk(s, c)} :: ChanOk(s, c))
  }

  // ---------------------------------------------------------------- one step

  /** What a step of t that works on the handle x leaves to the others. */
  ghost predicate Kept(s: State, s2: State, t: Tid, x: Hid) {
    && x in s.handles && x in s2.handles
    && s2.handles == s.handles[x := s2.handles[x]]
    && (forall c | c in s.chans && s.chans[c].creator != t :: c in s2.chans && s2.chans[c] == s.chans[c])
    && (forall c | c in s.chans :: c in s2.chans && s2.chans[c].of == s.chans[c].of)
    && var o, o2 := s.handles[x], s2.handles[x];
    && (o2.owner == o.owner || o.owner == None || o.owner == Some(t))
    && (o2.mu == o.mu || o.mu == None || o.mu == Some(t))
    && (o2.done == o.done || o.done == None || (o.done.value in s.chans && s.chans[o.done.value].creator == t))
    && (WillSignal(s, x) ==> WillSignal(s2, x))
  }

  lemma OthersKeep(s: State, s2: State, t: Tid, pc: Pc, x: Hid, u: Tid)
    requires Kept(s, s2, t, x) && s2.threads == s.threads[t := pc] && At(s, t, x)
    requires forall h {:trigger HandleOk(s, h)} :: HandleOk(s, h)
    requires u in s.threads && u != t && ThreadOk(s, u, s.threads[u])
    ensures ThreadOk(s2, u, s.threads[u])
  {
    if Places.HasJob(s.threads[u]) { assert HandleOk(s, s.threads[u].j.failed); }
  }

  lemma HandlesKeep(s: State, s2: State, t: Tid, pc: Pc, x: Hid, h: Hid)
    requires Kept(s, s2, t, x) && s2.threads == s.threads[t := pc] && At(s, t, x)
    requires h != x && HandleOk(s, h)
    ensures HandleOk(s2, h)
  {
  }

  /** c is new, changed, or a channel of x. */
  ghost predicate Touched(s: State, s2: State, c: Cid, x: Hid) {
    c in s2.chans && (c !in s.chans || s2.chans[c] != s.chans[c] || s.chans[c].of == x)
  }

  lemma StepRule(s: State, s2: State, t: Tid, pc: Pc, x: Hid)
    requires SignalsInv(s) && Kept(s, s2, t, x) && s2.threads == s.threads[t := pc] && At(s, t, x)
    requires ThreadOk(s2, t, pc) && HandleOk(s2, x)
    requires forall c | Touched(s, s2, c, x) :: ChanOk(s2, c)
    ensures SignalsInv(s2)
  {
    forall u | u in s2.threads ensures ThreadOk(s2, u, s2.threads[u]) {
      if u != t { assert ThreadOk(s, u, s.threads[u]); OthersKeep(s, s2, t, pc, x, u); }
    }
    forall h ensures HandleOk(s2, h) {
      if h != x { assert HandleOk(s, h); HandlesKeep(s, s2, t, pc, x, h); }
    }
    forall c ensures ChanOk(s2, c) {
      assert ChanOk(s, c);
    }
  }

  lemma RoleOfOthers(s: State, s2: State, t: Tid, pc: Pc, u: Tid)
    requires SignalsInv(s) && s2.handles == s.handles && s2.chans == s.chans && s2.threads == s.threads[t := pc]
    requires PcOf(s, t).FinClose? || PcOf(s, t).FinWake? ==> pc.FinClose? || pc.FinWake?
    requires u in s.threads && u != t
    ensures ThreadOk(s2, u, s.threads[u])
  {
    assert ThreadOk(s, u, s.threads[u]);
  }

  /** Two points with the same part in the protocol. */
  ghost predicate SameRole(from: Pc, pc: Pc) {
    && (Owning(from) <==> Owning(pc)) && (Locking(from) <==> Locking(pc)) && (Publishing(from) <==> Publishing(pc))
    && (Owning(from) || Locking(from) || Publishing(from) ==> pc.j == from.j)
    && (from.FinClose? || from.FinWake? ==> pc.FinClose? || pc.FinWake?)
  }

  lemma RoleStays(s: State, s2: State, t: Tid, pc: Pc, u: Tid, h: Hid)
    requires s2.threads == s.threads[t := pc] && SameRole(PcOf(s, t), pc)
    ensures At(s, u, h) && Owning(PcOf(s, u)) ==> At(s2, u, h) && Owning(PcOf(s2, u))
    ensures At(s, u, h) && Locking(PcOf(s, u)) ==> At(s2, u, h) && Locking(PcOf(s2, u))
    ensures At(s, u, h) && Publishing(PcOf(s, u)) ==> At(s2, u, h) && Publishing(PcOf(s2, u))
  {
  }

  lemma RoleOfHandle(s: State, s2: State, t: Tid, pc: Pc, h: Hid)
    requires HandleOk(s, h) && s2.handles == s.handles && s2.chans == s.chans && s2.threads == s.threads[t := pc]
    requires SameRole(PcOf(s, t), pc)
    ensures HandleOk(s2, h)
  {
    if h in s.handles {
      var o := s.handles[h];
      if o.owner.Some? { RoleStays(s, s2, t, pc, o.owner.value, h); }
      if o.mu.Some? { RoleStays(s, s2, t, pc, o.mu.value, h); }
      if o.done.Some? { RoleStays(s, s2, t, pc, s.chans[o.done.value].creator, h); }
    }
  }

  /** A step that changes neither handles nor channels, between points with the same part in the protocol. */
  lemma RoleRule(s: State, s2: State, t: Tid, pc: Pc)
    requires SignalsInv(s) && s2.handles == s.handles && s2.chans == s.chans && s2.threads == s.threads[t := pc]
    requires SameRole(PcOf(s, t), pc) && ThreadOk(s2, t, pc)
    ensures SignalsInv(s2)
  {
    forall u | u in s2.threads ensures ThreadOk(s2, u, s2.threads[u]) { if u != t { RoleOfOthers(s, s2, t, pc, u); } }
    forall h ensures HandleOk(s2, h) {
      assert HandleOk(s, h);
      RoleOfHandle(s, s2, t, pc, h);
    }
    forall c ensures ChanOk(s2, c) { assert ChanOk(s, c); }
  }

  lemma BeginKeeps(s: State, t: Tid, ch: Choice)
    requires SignalsInv(s) && BeginStep(s, t, ch).Some?
    ensures SignalsInv(BeginStep(s, t, ch).value)
  {
    var pc := FirstPc(s, ch).value;
    var s2 := BeginStep(s, t, ch).value;
    assert ThreadOk(s2, t, pc) && !Owning(pc) && !Locking(pc) && !Publishing(pc) by {
      match ch
      case StartRestart(slot, h) =>
      case StartDispatch(h) =>
      case StartAwait(h) =>
      case StartClose =>
    }
    RoleRule(s, s2, t, pc);
  }

  lemma StartKeeps(s: State, t: Tid, ch: Choice)
    requires SignalsInv(s) && StartStep(s, t, ch).Some?
    ensures SignalsInv(StartStep(s, t, ch).value)
  {
    var s2 := StartStep(s, t, ch).value;
    var pc := StartMove(s, t, ch).value.2;
    assert ThreadOk(s, t, PcOf(s, t));
    assert (Working(pc) || pc.FinLock?) && pc.j == PcOf(s, t).j by {
      match PcOf(s, t)
      case StartWorker(j) => if s.gate.stopped {} else {}
      case Starting(j, sid) =>
        if ch.GiveUp? {} else if ch.TimeOut? {} else if s.starts[sid].Produced? {} else {}
    }
    RoleRule(s, s2, t, pc);
  }

  lemma KillKeeps(s: State, t: Tid)
    requires SignalsInv(s) && KillStep(s, t).Some?
    ensures SignalsInv(KillStep(s, t).value)
  {
    var s2 := KillStep(s, t).value;
    var pc := KillMove(s, t).value.3;
    assert ThreadOk(s, t, PcOf(s, t));
    assert Working(PcOf(s, t)) && (Working(pc) || pc.FinLock?) && pc.j == PcOf(s, t).j by {
      match PcOf(s, t)
      case StartErr(j) => if s.gate.closed {} else {}
      case SwapLock(j, h) =>
      case SwapClosed(j, h) => if s.gate.closed {} else {}
      case Swap(j, h) =>
      case KillNew(j, h) =>
      case KillOld(j) =>
    }
    RoleRule(s, s2, t, pc);
  }

  lemma SwapKeeps(s: State, t: Tid)
    requires SignalsInv(s) && SwapStep(s, t).Some?
    ensures SignalsInv(SwapStep(s, t).value)
  {
    assert ThreadOk(s, t, PcOf(s, t));
    RoleRule(s, SwapStep(s, t).value, t, KillOld(PcOf(s, t).j));
  }

  lemma ExitKeeps(s: State, t: Tid)
    requires SignalsInv(s) && ExitStep(s, t).Some?
    ensures SignalsInv(ExitStep(s, t).value)
  {
    RoleRule(s, ExitStep(s, t).value, t, Idle);
  }

  lemma GateKeeps(s: State, t: Tid, ch: Choice)
    requires SignalsInv(s) && GateStep(s, t, ch).Some?
    ensures SignalsInv(GateStep(s, t, ch).value)
  {
    var s2 := GateStep(s, t, ch).value;
    var pc := GateMove(s, t, ch).value.2;
    assert ThreadOk(s, t, PcOf(s, t));
    assert !Places.HasJob(PcOf(s, t)) && !Places.HasJob(pc) && ThreadOk(s2, t, pc) by {
      match PcOf(s, t)
      case DispLock(h) =>
      case DispRead(h) => if s.gate.closed {} else {}
      case AwaitSnap(h) => if s.handles[h].done.Some? { assert HandleOk(s, h); } else {}
      case AwaitChan(h, c) =>
      case CloseSwap => if s.gate.closed {} else {}
      case CloseStop =>
      case CloseBarrier =>
      case CloseBarrierEnd =>
      case CloseSnapshot =>
      case CloseKill(left) => if left == {} {} else {}
      case CloseWait =>
    }
    RoleRule(s, s2, t, pc);
  }

  lemma SpawnKeeps(s: State, t: Tid, u: Tid)
    requires SignalsInv(s) && SpawnStep(s, t, u).Some?
    ensures SignalsInv(SpawnStep(s, t, u).value)
  {
    var s1 := Goto(s.(gate := s.gate.(dispatchMu := None), wg := s.wg + 1, tracked := s.tracked + {u}), t, Idle);
    RoleRule(s, s1, t, Idle);
    var pc := Early(Job(s.handles[PcOf(s, t).h].slot, PcOf(s, t).h, true));
    var s2 := SpawnStep(s, t, u).value;
    assert s2 == Goto(s1, u, pc) && PcOf(s1, u).Idle?;
    RoleRule(s1, s2, u, pc);
  }

  lemma WakeOne(s: State, t: Tid, u: Tid)
    requires SignalsInv(s) && WakeStep(s, t).Some? && u in s.threads
    ensures ThreadOk(WakeStep(s, t).value, u, WakeStep(s, t).value.threads[u])
  {
    assert ThreadOk(s, t, PcOf(s, t)) && ThreadOk(s, u, s.threads[u]);
    if Places.HasJob(s.threads[u]) { assert HandleOk(s, s.threads[u].j.failed); }
  }

  /** Broadcast empties the wait queue, so nobody is left who needs a signal. */
  lemma WakeKeeps(s: State, t: Tid)
    requires SignalsInv(s) && WakeStep(s, t).Some?
    ensures SignalsInv(WakeStep(s, t).value)
  {
    var s2 := WakeStep(s, t).value;
    var h := PcOf(s, t).j.failed;
    assert ThreadOk(s, t, PcOf(s, t)) && HandleOk(s, h);
    forall u | u in s2.threads ensures ThreadOk(s2, u, s2.threads[u]) { WakeOne(s, t, u); }
    forall x ensures HandleOk(s2, x) { assert HandleOk(s, x); }
    forall c ensures ChanOk(s2, c) { assert ChanOk(s, c); }
  }

  lemma EnvKeeps(s: State, e: Env)
    requires SignalsInv(s) && EnvStep(s, e).Some?
    ensures SignalsInv(EnvStep(s, e).value)
  {
    var s2 := EnvStep(s, e).value;
    match e { case BootOk(_, _) => case BootFail(_) => case Reap(_) => case KillHung(_) => }
    forall u | u in s2.threads ensures ThreadOk(s2, u, s2.threads[u]) { assert ThreadOk(s, u, s.threads[u]); }
    forall x ensures HandleOk(s2, x) { assert HandleOk(s, x); }
    forall c ensures ChanOk(s2, c) { assert ChanOk(s, c); }
  }

  /** An open channel of h belongs to the owner, or its closer still holds the mutex. */
  lemma CloserHoldsHandle(s: State, h: Hid, c: Cid)
    requires SignalsInv(s) && h in s.handles && s.handles[h].done == Some(c)
    ensures c in s.chans && Publishing(PcOf(s, s.chans[c].creator))
    ensures s.handles[h].owner == Some(s.chans[c].creator) || s.handles[h].mu == Some(s.chans[c].creator)
  {
    assert HandleOk(s, h);
    assert ThreadOk(s, s.chans[c].creator, PcOf(s, s.chans[c].creator));
  }

  /** The owner is about to publish: no other channel is open on the handle. */
  lemma NothingOverwritten(s: State, t: Tid)
    requires SignalsInv(s) && PcOf(s, t).Pub?
    ensures PcOf(s, t).j.failed in s.handles && s.handles[PcOf(s, t).j.failed].done == None
  {
    var h := PcOf(s, t).j.failed;
    assert ThreadOk(s, t, PcOf(s, t)) && HandleOk(s, h);
    if s.handles[h].done.Some? { CloserHoldsHandle(s, h, s.handles[h].done.value); }
  }

  lemma PubKeeps(s: State, t: Tid, name: nat)
    requires SignalsInv(s) && HandleStep(s, t, name).Some? && PcOf(s, t).Pub?
    ensures SignalsInv(HandleStep(s, t, name).value)
  {
    var s2 := HandleStep(s, t, name).value;
    var h := PcOf(s, t).j.failed;
    assert ThreadOk(s, t, PcOf(s, t)) && HandleOk(s, h);
    NothingOverwritten(s, t);
    forall c ensures Touched(s, s2, c, h) ==> ChanOk(s2, c) { assert ChanOk(s, c); }
    StepRule(s, s2, t, Recheck(PcOf(s, t).j), h);
  }

  lemma CloseKeeps(s: State, t: Tid, name: nat)
    requires SignalsInv(s) && HandleStep(s, t, name).Some? && PcOf(s, t).FinClose?
    ensures SignalsInv(HandleStep(s, t, name).value)
  {
    var s2 := HandleStep(s, t, name).value;
    var h := PcOf(s, t).j.failed;
    assert ThreadOk(s, t, PcOf(s, t)) && HandleOk(s, h);
    forall c ensures Touched(s, s2, c, h) ==> ChanOk(s2, c) { assert ChanOk(s, c); }
    StepRule(s, s2, t, FinWake(PcOf(s, t).j), h);
  }

  /** A step that leaves channels alone and changes only flags, owner or mutex of t's handle. */
  lemma FlagRule(s: State, s2: State, t: Tid, pc: Pc, h: Hid, o2: Handle)
    requires SignalsInv(s) && At(s, t, h) && h in s.handles
    requires s2.threads == s.threads[t := pc] && s2.handles == s.handles[h := o2] && s2.chans == s.chans
    requires var o := s.handles[h];
             && o2.done == o.done
             && (o2.owner == o.owner || o.owner == None || o.owner == Some(t))
             && (o2.mu == o.mu || o.mu == None || o.mu == Some(t))
    requires WillSignal(s, h) ==> WillSignal(s2, h)
    requires ThreadOk(s2, t, pc) && HandleOk(s2, h)
    ensures SignalsInv(s2)
  {
    forall c ensures Touched(s, s2, c, h) ==> ChanOk(s2, c) { assert ChanOk(s, c); }
    StepRule(s, s2, t, pc, h);
  }

  lemma CasLostKeeps(s: State, t: Tid, j: Job)
    requires SignalsInv(s) && PcOf(s, t) == Cas(j) && j.failed in s.handles && s.handles[j.failed].restarting
    ensures SignalsInv(Goto(s.(handles := s.handles[j.failed := s.handles[j.failed]], chans := s.chans), t,
                            LoserLock(j)))
  {
    assert ThreadOk(s, t, PcOf(s, t));
    assert s.handles[j.failed := s.handles[j.failed]] == s.handles;
    RoleRule(s, Goto(s, t, LoserLock(j)), t, LoserLock(j));
  }

  lemma CasWonKeeps(s: State, t: Tid, j: Job)
    requires SignalsInv(s) && PcOf(s, t) == Cas(j) && j.failed in s.handles && !s.handles[j.failed].restarting
    ensures SignalsInv(Goto(s.(handles := s.handles[j.failed := s.handles[j.failed].(restarting := true,
                            owner := Some(t))], chans := s.chans), t, PubLock(j)))
  {
    var o2 := s.handles[j.failed].(restarting := true, owner := Some(t));
    assert ThreadOk(s, t, PcOf(s, t)) && HandleOk(s, j.failed);
    FlagRule(s, Goto(s.(handles := s.handles[j.failed := o2]), t, PubLock(j)), t, PubLock(j), j.failed, o2);
  }

  lemma StoreKeeps(s: State, t: Tid, j: Job)
    requires SignalsInv(s) && PcOf(s, t) == FinStore(j) && j.failed in s.handles
    ensures SignalsInv(Goto(s.(handles := s.handles[j.failed := s.handles[j.failed].(restarting := false,
                            owner := None)], chans := s.chans), t, FinClose(j)))
  {
    var o2 := s.handles[j.failed].(restarting := false, owner := None);
    assert ThreadOk(s, t, PcOf(s, t)) && HandleOk(s, j.failed);
    FlagRule(s, Goto(s.(handles := s.handles[j.failed := o2]), t, FinClose(j)), t, FinClose(j), j.failed, o2);
  }

  lemma ParkKeeps(s: State, t: Tid, j: Job)
    requires SignalsInv(s) && PcOf(s, t) == LoserCheck(j) && j.failed in s.handles && s.handles[j.failed].restarting
    ensures SignalsInv(Goto(s.(handles := s.handles[j.failed := s.handles[j.failed].(mu := None)], chans := s.chans),
                            t, Parked(j)))
  {
    var o2 := s.handles[j.failed].(mu := None);
    assert ThreadOk(s, t, PcOf(s, t)) && HandleOk(s, j.failed);
    FlagRule(s, Goto(s.(handles := s.handles[j.failed := o2]), t, Parked(j)), t, Parked(j), j.failed, o2);
  }

  lemma UnlockKeeps(s: State, t: Tid, j: Job)
    requires SignalsInv(s) && PcOf(s, t) in {FinUnlock(j), LoserCheck(j)} && j.failed in s.handles
    ensures SignalsInv(Goto(s.(handles := s.handles[j.failed := s.handles[j.failed].(mu := None)], chans := s.chans),
                            t, Exit(j)))
  {
    var o2 := s.handles[j.failed].(mu := None);
    assert ThreadOk(s, t, PcOf(s, t)) && HandleOk(s, j.failed);
    FlagRule(s, Goto(s.(handles := s.handles[j.failed := o2]), t, Exit(j)), t, Exit(j), j.failed, o2);
  }

  /** The point a thread that wants the mutex goes on to. */
  function Inside(pc: Pc): Pc {
    match pc
    case LoserLock(j) => LoserCheck(j)
    case PubLock(j) => Pub(j)
    case FinLock(j) => FinStore(j)
    case _ => pc
  }

  lemma LockKeeps(s: State, t: Tid)
    requires SignalsInv(s) && (PcOf(s, t).LoserLock? || PcOf(s, t).PubLock? || PcOf(s, t).FinLock?)
    requires PcOf(s, t).j.failed in s.handles && s.handles[PcOf(s, t).j.failed].mu == None
    ensures var h := PcOf(s, t).j.failed;
            SignalsInv(Goto(s.(handles := s.handles[h := s.handles[h].(mu := Some(t))], chans := s.chans), t,
                            Inside(PcOf(s, t))))
  {
    var h, pc := PcOf(s, t).j.failed, Inside(PcOf(s, t));
    var o2 := s.handles[h].(mu := Some(t));
    assert ThreadOk(s, t, PcOf(s, t)) && HandleOk(s, h);
    FlagRule(s, Goto(s.(handles := s.handles[h := o2]), t, pc), t, pc, h, o2);
  }

  lemma CheckKeeps(s: State, t: Tid, name: nat)
    requires SignalsInv(s) && HandleStep(s, t, name).Some? && (PcOf(s, t).Early? || PcOf(s, t).Recheck?)
    ensures SignalsInv(HandleStep(s, t, name).value)
  {
    var s2 := HandleStep(s, t, name).value;
    assert ThreadOk(s, t, PcOf(s, t));
    assert s2.handles == s.handles;
    match PcOf(s, t)
    case Early(j) => if Current(s, j) { RoleRule(s, s2, t, Cas(j)); } else { RoleRule(s, s2, t, Exit(j)); }
    case Recheck(j) =>
      if Current(s, j) && !s.gate.closed {
        RoleRule(s, s2, t, StartWorker(j));
      } else {
        RoleRule(s, s2, t, FinLock(j));
      }
  }

  lemma HandleKeeps(s: State, t: Tid, name: nat)
    requires SignalsInv(s) && HandleStep(s, t, name).Some?
    ensures SignalsInv(HandleStep(s, t, name).value)
  {
    var pc := PcOf(s, t);
    if pc.Early? || pc.Recheck? { CheckKeeps(s, t, name); }
    else if pc.Cas? {
      if s.handles[pc.j.failed].restarting { CasLostKeeps(s, t, pc.j); } else { CasWonKeeps(s, t, pc.j); }
    }
    else if pc.FinStore? { StoreKeeps(s, t, pc.j); }
    else if pc.LoserCheck? {
      if s.handles[pc.j.failed].restarting { ParkKeeps(s, t, pc.j); } else { UnlockKeeps(s, t, pc.j); }
    }
    else if pc.FinUnlock? { UnlockKeeps(s, t, pc.j); }
    else if pc.LoserLock? || pc.PubLock? || pc.FinLock? { LockKeeps(s, t); }
    else if pc.Pub? { PubKeeps(s, t, name); }
    else { CloseKeeps(s, t, name); }
  }

  lemma StepKeeps(s: State, a: Action)
    requires SignalsInv(s) && Step(s, a).Some?
    ensures SignalsInv(Step(s, a).value)
  {
    match a
    case Begin(t, ch) => BeginKeeps(s, t, ch);
    case HandleOp(t, name) => HandleKeeps(s, t, name);
    case Starts(t, ch) => StartKeeps(s, t, ch);
    case Kills(t) => KillKeeps(s, t);
    case Swaps(t) => SwapKeeps(s, t);
    case Wakes(t) => WakeKeeps(s, t);
    case Exits(t) => ExitKeeps(s, t);
    case Spawns(t, u) => SpawnKeeps(s, t, u);
    case Gates(t, ch) => GateKeeps(s, t, ch);
    case Environment(e) => EnvKeeps(s, e);
  }

  lemma {:induction false} RunKeeps(r: seq<State>, acts: seq<Action>, n: nat)
    requires IsRun(r, acts) && n < |r|
    ensures SignalsInv(r[n])
  {
    if n == 0 {
      InitHolds(r[0]);
    } else {
      RunKeeps(r, acts, n - 1);
      StepOf(r, acts, n - 1);
      StepKeeps(r[n - 1], acts[n - 1]);
    }
  }

  lemma InitHolds(s: State)
    requires Init(s)
    ensures SignalsInv(s)
  {
    forall h | h in s.handles ensures HandleOk(s, h) {
      var id :| id in s.slots && s.slots[id] == h;
    }
  }

  // ---------------------------------------------------------------- whole runs

  /** At most one thread at a time is between the won CompareAndSwap and Store(false) on a handle. */
  lemma OneOwner(r: seq<State>, acts: seq<Action>, n: nat, t: Tid, u: Tid, h: Hid)
    requires IsRun(r, acts) && n < |r|
    requires At(r[n], t, h) && Owning(PcOf(r[n], t)) && At(r[n], u, h) && Owning(PcOf(r[n], u))
    ensures t == u && h in r[n].handles && r[n].handles[h].restarting
  {
    RunKeeps(r, acts, n);
    assert ThreadOk(r[n], t, PcOf(r[n], t)) && ThreadOk(r[n], u, PcOf(r[n], u)) && HandleOk(r[n], h);
  }

  /** Publishing never overwrites an open channel, although a new CompareAndSwap may already have won. */
  lemma NeverOverwritten(r: seq<State>, acts: seq<Action>, n: nat, t: Tid)
    requires IsRun(r, acts) && n < |r| && PcOf(r[n], t).Pub?
    ensures PcOf(r[n], t).j.failed in r[n].handles && r[n].handles[PcOf(r[n], t).j.failed].done == None
  {
    RunKeeps(r, acts, n);
    NothingOverwritten(r[n], t);
  }

  /** A channel is closed at most once, and while it is open its creator is on the way to close it. */
  lemma ClosedOnceByCreator(r: seq<State>, acts: seq<Action>, n: nat, c: Cid)
    requires IsRun(r, acts) && n < |r| && c in r[n].chans
    ensures r[n].chans[c].closes <= 1
    ensures r[n].chans[c].closes == 0 ==>
              At(r[n], r[n].chans[c].creator, r[n].chans[c].of) && Publishing(PcOf(r[n], r[n].chans[c].creator))
  {
    RunKeeps(r, acts, n);
    assert ChanOk(r[n], c) && HandleOk(r[n], r[n].chans[c].of);
  }

  /** The step that closes a channel is a step of its creator. */
  lemma OnlyCreatorCloses(r: seq<State>, acts: seq<Action>, n: nat, c: Cid)
    requires IsRun(r, acts) && n < |acts| && c in r[n].chans && c in r[n + 1].chans
    requires r[n + 1].chans[c].closes > r[n].chans[c].closes
    ensures acts[n].HandleOp? && acts[n].t == r[n].chans[c].creator && PcOf(r[n], acts[n].t).FinClose?
  {
    RunKeeps(r, acts, n);
    StepOf(r, acts, n);
    match acts[n]
    case Begin(t, ch) =>
    case HandleOp(t, name) => assert ThreadOk(r[n], t, PcOf(r[n], t));
    case Starts(t, ch) =>
    case Kills(t) =>
    case Swaps(t) =>
    case Wakes(t) =>
    case Exits(t) =>
    case Spawns(t, u) =>
    case Gates(t, ch) =>
    case Environment(e) => match e { case BootOk(_, _) => case BootFail(_) => case Reap(_) => case KillHung(_) => }
  }

  /** No lost wakeup: whoever is parked on the Cond has a thread still to Broadcast to it. */
  lemma ParkedWillBeWoken(r: seq<State>, acts: seq<Action>, n: nat, t: Tid)
    requires IsRun(r, acts) && n < |r| && PcOf(r[n], t).Parked?
    ensures exists u :: At(r[n], u, PcOf(r[n], t).j.failed)
                        && (Owning(PcOf(r[n], u)) || PcOf(r[n], u).FinClose? || PcOf(r[n], u).FinWake?)
  {
    RunKeeps(r, acts, n);
    var h := PcOf(r[n], t).j.failed;
    assert ThreadOk(r[n], t, PcOf(r[n], t)) && HandleOk(r[n], h);
    var o := r[n].handles[h];
    var u := if o.owner.Some? then o.owner.value else o.mu.value;
    assert At(r[n], u, h);
  }

  /** ... and whoever waits on a channel can go on, or the channel's creator is still to close it. */
  lemma AwaitingWillBeWoken(r: seq<State>, acts: seq<Action>, n: nat, t: Tid)
    requires IsRun(r, acts) && n < |r| && PcOf(r[n], t).AwaitChan?
    ensures var AwaitChan(h, c) := PcOf(r[n], t);
            c in r[n].chans && r[n].chans[c].of == h
            && (r[n].chans[c].closes == 1
                || (At(r[n], r[n].chans[c].creator, h) && Publishing(PcOf(r[n], r[n].chans[c].creator))))
  {
    RunKeeps(r, acts, n);
    assert ThreadOk(r[n], t, PcOf(r[n], t));
    ClosedOnceByCreator(r, acts, n, PcOf(r[n], t).c);
  }
}
