/**
  * No worker leaks: in every interleaving of restarts, starts and Close each
  * handle ever started is in its slot, in exactly one thread or start task that
  * will dispose of it, or killed; and after Close nothing is left alive.
  */
module RestartPlaces {
  import opened Common
  import opened Restart

  predicate HasJob(pc: Pc) {
    pc.Early? || pc.Cas? || pc.LoserLock? || pc.LoserCheck? || pc.Parked? || pc.PubLock? || pc.Pub? || pc.Recheck?
    || pc.StartWorker? || pc.Starting? || pc.StartErr? || pc.SwapLock? || pc.SwapClosed? || pc.Swap? || pc.KillNew?
    || pc.KillOld? || pc.FinLock? || pc.FinStore? || pc.FinClose? || pc.FinWake? || pc.FinUnlock? || pc.Exit?
  }

  /** Points at which a thread holds a worker it has started and not yet placed. */
  predicate HasNew(pc: Pc) {
    pc.SwapLock? || pc.SwapClosed? || pc.Swap? || pc.KillNew?
  }

  predicate InClose(pc: Pc) {
    pc.CloseStop? || pc.CloseBarrier? || pc.CloseBarrierEnd? || pc.CloseSnapshot? || pc.CloseKill? || pc.CloseWait?
  }

  /** The start task sid runs for slot and thread t waits for it. */
  ghost predicate StartFor(s: State, t: Tid, slot: nat, sid: Sid) {
    sid in s.starts &&
    match s.starts[sid]
    case Booting(sl, w) => sl == slot && w == Some(t)
    case Produced(h, w) => h in s.handles && s.handles[h].slot == slot && w == Some(t)
    case Failed(w) => w == Some(t)
    case Consumed => false
  }

  /** Every worker in a slot is killed or about to be. */
  ghost predicate SlotsDead(s: State, left: set<Hid>) {
    forall id | id in s.slots :: s.slots[id] in s.killed || s.slots[id] in left
  }

  ghost predicate ThreadOk(s: State, t: Tid, pc: Pc) {
    && (HasJob(pc) ==> pc.j.failed in s.handles && s.handles[pc.j.failed].slot == pc.j.slot)
    && (HasNew(pc) ==>
          pc.h in s.handles && s.handles[pc.h].slot == pc.j.slot && pc.h in s.place && s.place[pc.h] == New(t))
    && (pc.Starting? ==> StartFor(s, t, pc.j.slot, pc.sid))
    && (pc.SwapClosed? || pc.Swap? ==> s.poolMu == Some(t))
    && (pc.Swap? ==> !s.gate.snapped)
    && (pc.DispLock? || pc.DispRead? || pc.DispAdd? ==> pc.h in s.handles)
    && (InClose(pc) ==> s.gate.closed)
    && (pc.CloseKill? ==> s.gate.snapped && SlotsDead(s, pc.left))
    && (pc.CloseWait? ==> s.gate.snapped && SlotsDead(s, {}))
  }

  ghost predicate PlaceOk(s: State, h: Hid) {
    h in s.place ==>
      h in s.handles &&
      match s.place[h]
      case InSlot => s.handles[h].slot in s.slots && s.slots[s.handles[h].slot] == h && h !in s.replacedBy
      case New(t) => HasNew(PcOf(s, t)) && PcOf(s, t).h == h && h !in s.replacedBy
      case Old(t) => PcOf(s, t).KillOld? && PcOf(s, t).j.failed == h && h in s.replacedBy
      case InStart(sid) => sid in s.starts && s.starts[sid].Produced? && s.starts[sid].h == h && h !in s.replacedBy
      case Dead => h in s.killed
  }

  ghost predicate SlotOk(s: State, id: nat) {
    id in s.slots ==>
      var h := s.slots[id];
      h in s.handles && s.handles[h].slot == id && h in s.place && s.place[h] == InSlot
  }

  ghost predicate StartOk(s: State, sid: Sid) {
    sid in s.starts && s.starts[sid].Produced? ==>
      s.starts[sid].h in s.place && s.place[s.starts[sid].h] == InStart(sid)
  }

  ghost predicate GlobalOk(s: State) {
    && s.place.Keys == s.handles.Keys
    && s.replacedBy.Keys <= s.handles.Keys
    && (s.gate.snapped ==> s.gate.closed)
    && (s.gate.returned ==> s.gate.snapped && SlotsDead(s, {}))
  }

  ghost predicate PlacesInv(s: State) {
    && GlobalOk(s)
    && (forall t {:trigger ThreadOk(s, t, s.threads[t])} | t in s.threads :: ThreadOk(s, t, s.threads[t]))
    && (forall h {:trigger PlaceOk(s, h)} :: PlaceOk(s, h))
    && (forall id {:trigger SlotOk(s, id)} :: SlotOk(s, id))
    && (forall sid {:trigger StartOk(s, sid)} :: StartOk(s, sid))
  }

  // ---------------------------------------------------------------- one step

  /** What a step of t leaves to the other threads. */
  ghost predicate Kept(s: State, s2: State, t: Tid) {
    && (forall h | h in s.handles :: h in s2.handles && s2.handles[h].slot == s.handles[h].slot)
    && (forall h | h in s.place && s.place[h] != New(t) && s.place[h].New? ::
          h in s2.place && s2.place[h] == s.place[h])
    && (forall sid | sid in s.starts && !s.starts[sid].Consumed? && s.starts[sid].waiter != Some(t) ::
          sid in s2.starts && s2.starts[sid] == s.starts[sid])
    && (s.poolMu.Some? && s.poolMu != Some(t) ==> s2.poolMu == s.poolMu)
    && (s.gate.closed ==> s2.gate.closed)
    && (s2.gate.snapped == s.gate.snapped || (s2.gate.snapped && s.poolMu == None))
    && (s.gate.snapped ==> s2.slots == s.slots)
    && s.killed <= s2.killed
  }

  lemma OthersKeep(s: State, s2: State, t: Tid, u: Tid, pc: Pc)
    requires Kept(s, s2, t) && u != t && ThreadOk(s, u, pc)
    ensures ThreadOk(s2, u, pc)
  {
  }

  predicate SamePlace(s: State, s2: State, h: Hid) {
    h in s.place && h in s2.place && s2.place[h] == s.place[h]
  }

  predicate SameStart(s: State, s2: State, sid: Sid) {
    sid in s.starts && sid in s2.starts && s2.starts[sid] == s.starts[sid]
  }

  /** h stands where it stood, and neither t nor a changed start task is responsible for it. */
  predicate Undisturbed(s: State, s2: State, t: Tid, h: Hid) {
    SamePlace(s, s2, h) && s.place[h] != New(t) && s.place[h] != Old(t)
    && (s.place[h].InStart? ==> SameStart(s, s2, s.place[h].sid))
  }

  lemma PlacesKeep(s: State, s2: State, t: Tid, pc: Pc, h: Hid)
    requires Kept(s, s2, t) && s2.threads == s.threads[t := pc]
    requires Undisturbed(s, s2, t, h) && PlaceOk(s, h)
    requires s2.slots == s.slots && s2.replacedBy == s.replacedBy
    ensures PlaceOk(s2, h)
  {
  }

  /** What remains to be shown of a step that leaves the slots alone. */
  lemma StepRule(s: State, s2: State, t: Tid, pc: Pc)
    requires PlacesInv(s) && Kept(s, s2, t) && s2.threads == s.threads[t := pc]
    requires GlobalOk(s2) && s2.slots == s.slots && s2.replacedBy == s.replacedBy
    requires ThreadOk(s2, t, pc)
    requires forall id | id in s.slots :: SamePlace(s, s2, s.slots[id])
    requires forall h | !Undisturbed(s, s2, t, h) :: PlaceOk(s2, h)
    requires forall sid | sid in s2.starts && !SameStart(s, s2, sid) :: StartOk(s2, sid)
    requires forall sid | SameStart(s, s2, sid) && s.starts[sid].Produced? :: SamePlace(s, s2, s.starts[sid].h)
    ensures PlacesInv(s2)
  {
    forall u | u in s2.threads ensures ThreadOk(s2, u, s2.threads[u]) {
      if u != t { assert ThreadOk(s, u, s.threads[u]); OthersKeep(s, s2, t, u, s.threads[u]); }
    }
    forall h ensures PlaceOk(s2, h) {
      if Undisturbed(s, s2, t, h) { assert PlaceOk(s, h); PlacesKeep(s, s2, t, pc, h); }
    }
    forall id ensures SlotOk(s2, id) { assert SlotOk(s, id); }
    forall sid ensures StartOk(s2, sid) {
      if SameStart(s, s2, sid) { assert StartOk(s, sid); }
    }
  }

  /** A step that moves t and touches neither places, starts, slots nor kills. */
  ghost predicate Silent(s: State, s2: State, t: Tid) {
    && s2.slots == s.slots && s2.place == s.place && s2.starts == s.starts && s2.replacedBy == s.replacedBy
    && s2.handles.Keys == s.handles.Keys && (forall h | h in s.handles :: s2.handles[h].slot == s.handles[h].slot)
    && s.killed <= s2.killed && (s.gate.closed ==> s2.gate.closed) && s2.gate.snapped == s.gate.snapped
    && s2.gate.returned == s.gate.returned
    && (s.poolMu.Some? && s.poolMu != Some(t) ==> s2.poolMu == s.poolMu)
  }

  lemma SilentRule(s: State, s2: State, t: Tid, pc: Pc)
    requires PlacesInv(s) && Silent(s, s2, t) && s2.threads == s.threads[t := pc]
    requires ThreadOk(s2, t, pc)
    requires !HasNew(PcOf(s, t)) || (HasNew(pc) && pc.h == PcOf(s, t).h)
    requires !PcOf(s, t).KillOld?
    ensures PlacesInv(s2)
  {
    forall h ensures !Undisturbed(s, s2, t, h) ==> PlaceOk(s2, h) { assert PlaceOk(s, h); }
    forall id | id in s.slots ensures SamePlace(s, s2, s.slots[id]) { assert SlotOk(s, id); }
    forall sid | SameStart(s, s2, sid) && s.starts[sid].Produced? ensures SamePlace(s, s2, s.starts[sid].h) {
      assert StartOk(s, sid);
    }
    StepRule(s, s2, t, pc);
  }

  /** A point that asks nothing but its job's handle. */
  predicate Modest(pc: Pc) {
    !HasNew(pc) && !pc.Starting? && !pc.KillOld? && !InClose(pc) && !pc.DispLock? && !pc.DispRead? && !pc.DispAdd?
  }

  lemma BeginKeeps(s: State, t: Tid, ch: Choice)
    requires PlacesInv(s) && BeginStep(s, t, ch).Some?
    ensures PlacesInv(BeginStep(s, t, ch).value)
  {
    var pc := FirstPc(s, ch).value;
    assert ThreadOk(s, t, pc) && !HasNew(pc) by {
      match ch
      case StartRestart(slot, h) =>
      case StartDispatch(h) =>
      case StartAwait(h) =>
      case StartClose =>
    }
    var s2 := BeginStep(s, t, ch).value;
    SilentRule(s, s2, t, pc);
  }

  lemma HandleMovesOn(s: State, t: Tid, o: Handle, name: nat)
    requires OnHandle(PcOf(s, t)) && HandleMove(s, t, o, name).Some?
    ensures var (o2, pc2) := HandleMove(s, t, o, name).value;
            o2.slot == o.slot && HasJob(pc2) && pc2.j == PcOf(s, t).j && Modest(pc2)
  {
    var j := PcOf(s, t).j;
    match PcOf(s, t)
    case Early(_) => if Current(s, j) {} else {}
    case Cas(_) => if o.restarting {} else {}
    case LoserLock(_) =>
    case LoserCheck(_) => if o.restarting {} else {}
    case PubLock(_) =>
    case Pub(_) =>
    case Recheck(_) => if Current(s, j) && !s.gate.closed {} else {}
    case FinLock(_) =>
    case FinStore(_) =>
    case FinClose(_) =>
    case FinUnlock(_) =>
  }

  lemma HandleKeeps(s: State, t: Tid, name: nat)
    requires PlacesInv(s) && HandleStep(s, t, name).Some?
    ensures PlacesInv(HandleStep(s, t, name).value)
  {
    assert ThreadOk(s, t, PcOf(s, t));
    HandleMovesOn(s, t, s.handles[PcOf(s, t).j.failed], name);
    var s2 := HandleStep(s, t, name).value;
    SilentRule(s, s2, t, s2.threads[t]);
  }

  lemma ExitKeeps(s: State, t: Tid)
    requires PlacesInv(s) && ExitStep(s, t).Some?
    ensures PlacesInv(ExitStep(s, t).value)
  {
    SilentRule(s, ExitStep(s, t).value, t, Idle);
  }

  lemma SpawnKeeps(s: State, t: Tid, u: Tid)
    requires PlacesInv(s) && SpawnStep(s, t, u).Some?
    ensures PlacesInv(SpawnStep(s, t, u).value)
  {
    var h := PcOf(s, t).h;
    var s1 := LeaveDispatch(s, t, u);
    SpawnedKeeps(s1, u, Job(s.handles[h].slot, h, true));
  }

  lemma LeaveDispatch(s: State, t: Tid, u: Tid) returns (s1: State)
    requires PlacesInv(s) && PcOf(s, t).DispAdd? && PcOf(s, t).h in s.handles
    ensures PlacesInv(s1)
            && s1 == Goto(s.(gate := s.gate.(dispatchMu := None), wg := s.wg + 1, tracked := s.tracked + {u}), t, Idle)
  {
    s1 := Goto(s.(gate := s.gate.(dispatchMu := None), wg := s.wg + 1, tracked := s.tracked + {u}), t, Idle);
    SilentRule(s, s1, t, Idle);
  }

  lemma SpawnedKeeps(s: State, u: Tid, j: Job)
    requires PlacesInv(s) && PcOf(s, u).Idle? && j.failed in s.handles && s.handles[j.failed].slot == j.slot
    ensures PlacesInv(Goto(s, u, Early(j)))
  {
    SilentRule(s, Goto(s, u, Early(j)), u, Early(j));
  }

  /** Waking moves threads between two points that claim the same. */
  lemma WakeKeeps(s: State, t: Tid)
    requires PlacesInv(s) && WakeStep(s, t).Some?
    ensures PlacesInv(WakeStep(s, t).value)
  {
    var s1 := s.(threads := Woken(s.threads, PcOf(s, t).j.failed));
    forall u | u in s1.threads ensures ThreadOk(s1, u, s1.threads[u]) { assert ThreadOk(s, u, s.threads[u]); }
    forall h ensures PlaceOk(s1, h) { assert PlaceOk(s, h); }
    forall id ensures SlotOk(s1, id) { assert SlotOk(s, id); }
    forall sid ensures StartOk(s1, sid) { assert StartOk(s, sid); }
    assert ThreadOk(s, t, PcOf(s, t)) && s1.threads[t] == PcOf(s, t);
    var s2 := WakeStep(s, t).value;
    assert s2 == Goto(s1, t, FinUnlock(PcOf(s, t).j));
    SilentRule(s1, s2, t, FinUnlock(PcOf(s, t).j));
  }

  /** What a quiet step of the gate does: it opens nothing, kills nobody, and takes up no job. */
  ghost predicate QuietGate(s: State, from: Pc, g: Gate, killed: set<Hid>, pc: Pc) {
    && killed == s.killed && g.snapped == s.gate.snapped && g.returned == s.gate.returned
    && (s.gate.closed ==> g.closed)
    && !HasJob(pc) && !HasNew(from) && !from.KillOld? && !pc.CloseKill? && !pc.CloseWait?
    && (InClose(pc) ==> g.closed) && (pc.DispLock? || pc.DispRead? || pc.DispAdd? ==> pc.h in s.handles)
  }

  lemma DispatchMoves(s: State, t: Tid, ch: Choice)
    requires GateMove(s, t, ch).Some? && ThreadOk(s, t, PcOf(s, t))
    requires PcOf(s, t).DispLock? || PcOf(s, t).DispRead? || PcOf(s, t).AwaitSnap? || PcOf(s, t).AwaitChan?
    ensures var (g, killed, pc) := GateMove(s, t, ch).value; QuietGate(s, PcOf(s, t), g, killed, pc)
  {
    match PcOf(s, t)
    case DispLock(h) =>
    case DispRead(h) => if s.gate.closed {} else {}
    case AwaitSnap(h) => if s.handles[h].done.Some? {} else {}
    case AwaitChan(h, c) =>
  }

  lemma CloseMoves(s: State, t: Tid, ch: Choice)
    requires GateMove(s, t, ch).Some? && ThreadOk(s, t, PcOf(s, t))
    requires PcOf(s, t).CloseSwap? || PcOf(s, t).CloseStop? || PcOf(s, t).CloseBarrier? || PcOf(s, t).CloseBarrierEnd?
    ensures var (g, killed, pc) := GateMove(s, t, ch).value; QuietGate(s, PcOf(s, t), g, killed, pc)
  {
    match PcOf(s, t)
    case CloseSwap => if s.gate.closed {} else {}
    case CloseStop =>
    case CloseBarrier =>
    case CloseBarrierEnd =>
  }

  lemma GateKeeps(s: State, t: Tid, ch: Choice)
    requires PlacesInv(s) && GateStep(s, t, ch).Some?
    ensures PlacesInv(GateStep(s, t, ch).value)
  {
    assert ThreadOk(s, t, PcOf(s, t));
    var pc := PcOf(s, t);
    if pc.CloseSnapshot? {
      SnapshotKeeps(s, t);
    } else if pc.CloseWait? {
      ReturnKeeps(s, t);
    } else if pc.CloseKill? {
      if pc.left == {} { LastKillKeeps(s, t); } else { NextKillKeeps(s, t, ch.name); }
    } else {
      if InClose(pc) || pc.CloseSwap? { CloseMoves(s, t, ch); } else { DispatchMoves(s, t, ch); }
      SilentRule(s, GateStep(s, t, ch).value, t, GateMove(s, t, ch).value.2);
    }
  }

  lemma LastKillKeeps(s: State, t: Tid)
    requires PlacesInv(s) && PcOf(s, t) == CloseKill({})
    ensures PlacesInv(Goto(s.(gate := s.gate, killed := s.killed), t, CloseWait))
  {
    assert ThreadOk(s, t, PcOf(s, t));
    SilentRule(s, Goto(s, t, CloseWait), t, CloseWait);
  }

  lemma NextKillKeeps(s: State, t: Tid, h: Hid)
    requires PlacesInv(s) && PcOf(s, t).CloseKill? && h in PcOf(s, t).left
    ensures PlacesInv(Goto(s.(gate := s.gate, killed := s.killed + {h}), t, CloseKill(PcOf(s, t).left - {h})))
  {
    assert ThreadOk(s, t, PcOf(s, t));
    SilentRule(s, Goto(s.(killed := s.killed + {h}), t, CloseKill(PcOf(s, t).left - {h})), t,
               CloseKill(PcOf(s, t).left - {h}));
  }

  /** A step that changes only the gate and t's point, which is no restart's. */
  lemma FlagRule(s: State, s2: State, t: Tid, pc: Pc)
    requires PlacesInv(s) && s2 == Goto(s.(gate := s2.gate), t, pc) && Kept(s, s2, t) && GlobalOk(s2)
             && ThreadOk(s2, t, pc)
    requires !HasNew(PcOf(s, t)) && !PcOf(s, t).KillOld?
    ensures PlacesInv(s2)
  {
    forall id | id in s.slots ensures SamePlace(s, s2, s.slots[id]) { assert SlotOk(s, id); }
    forall h ensures !Undisturbed(s, s2, t, h) ==> PlaceOk(s2, h) { assert PlaceOk(s, h); }
    forall sid | SameStart(s, s2, sid) && s.starts[sid].Produced? ensures SamePlace(s, s2, s.starts[sid].h) {
      assert StartOk(s, sid);
    }
    StepRule(s, s2, t, pc);
  }

  lemma SnapshotKeeps(s: State, t: Tid)
    requires PlacesInv(s) && PcOf(s, t).CloseSnapshot? && s.poolMu == None
    ensures PlacesInv(Goto(s.(gate := s.gate.(snapped := true), killed := s.killed), t,
                           CloseKill(set id | id in s.slots :: s.slots[id])))
  {
    var pc := CloseKill(set id | id in s.slots :: s.slots[id]);
    assert ThreadOk(s, t, PcOf(s, t));
    FlagRule(s, Goto(s.(gate := s.gate.(snapped := true)), t, pc), t, pc);
  }

  lemma ReturnKeeps(s: State, t: Tid)
    requires PlacesInv(s) && PcOf(s, t).CloseWait?
    ensures PlacesInv(Goto(s.(gate := s.gate.(returned := true), killed := s.killed), t, Idle))
  {
    assert ThreadOk(s, t, PcOf(s, t));
    FlagRule(s, Goto(s.(gate := s.gate.(returned := true)), t, Idle), t, Idle);
  }

  /** The facts StepRule asks for about slots, for a step that changes no place in a slot. */
  lemma SlotsUntouched(s: State, s2: State, x: Hid, p: Place)
    requires PlacesInv(s) && x in s.place && s.place[x] != InSlot && s2.place == s.place[x := p]
    ensures forall id | id in s.slots :: SamePlace(s, s2, s.slots[id])
  {
    forall id | id in s.slots ensures SamePlace(s, s2, s.slots[id]) { assert SlotOk(s, id); }
  }

  lemma TakeKeeps(s: State, t: Tid, j: Job, sid: Sid)
    requires PlacesInv(s) && PcOf(s, t) == Starting(j, sid) && sid in s.starts && s.starts[sid].Produced?
    ensures PlacesInv(Goto(s.(starts := s.starts[sid := Consumed], place := s.place[s.starts[sid].h := New(t)]), t,
                           SwapLock(j, s.starts[sid].h)))
  {
    var h := s.starts[sid].h;
    var s2 := Goto(s.(starts := s.starts[sid := Consumed], place := s.place[h := New(t)]), t, SwapLock(j, h));
    assert ThreadOk(s, t, PcOf(s, t)) && StartOk(s, sid) && PlaceOk(s, h);
    SlotsUntouched(s, s2, h, New(t));
    forall x ensures !Undisturbed(s, s2, t, x) ==> PlaceOk(s2, x) { assert PlaceOk(s, x); }
    forall k | SameStart(s, s2, k) && s.starts[k].Produced? ensures SamePlace(s, s2, s.starts[k].h) {
      assert StartOk(s, k);
    }
    StepRule(s, s2, t, SwapLock(j, h));
  }

  /** A step that changes one start task and no place. */
  lemma StartsRule(s: State, s2: State, t: Tid, pc: Pc, sid: Sid, st: Start)
    requires PlacesInv(s) && s2 == Goto(s.(starts := s.starts[sid := st]), t, pc)
    requires !HasNew(PcOf(s, t)) && !PcOf(s, t).KillOld?
    requires sid in s.starts ==> !s.starts[sid].Consumed? ==> s.starts[sid].waiter == Some(t)
    requires sid in s.starts && s.starts[sid].Produced? ==> st.Produced? && st.h == s.starts[sid].h
    requires st.Produced? ==> sid in s.starts && s.starts[sid].Produced?
    requires ThreadOk(s2, t, pc)
    ensures PlacesInv(s2)
  {
    assert StartOk(s, sid);
    forall id | id in s.slots ensures SamePlace(s, s2, s.slots[id]) { assert SlotOk(s, id); }
    forall x ensures !Undisturbed(s, s2, t, x) ==> PlaceOk(s2, x) { assert PlaceOk(s, x); }
    forall k | SameStart(s, s2, k) && s.starts[k].Produced? ensures SamePlace(s, s2, s.starts[k].h) {
      assert StartOk(s, k);
    }
    StepRule(s, s2, t, pc);
  }

  lemma LaunchKeeps(s: State, t: Tid, j: Job, sid: Sid)
    requires PlacesInv(s) && PcOf(s, t) == StartWorker(j) && sid !in s.starts
    ensures PlacesInv(Goto(s.(starts := s.starts[sid := Booting(j.slot, Some(t))], place := s.place), t,
                           Starting(j, sid)))
  {
    assert ThreadOk(s, t, PcOf(s, t));
    StartsRule(s, Goto(s.(starts := s.starts[sid := Booting(j.slot, Some(t))]), t, Starting(j, sid)), t,
               Starting(j, sid), sid, Booting(j.slot, Some(t)));
  }

  /** The caller leaves a start task, with or without its failure. */
  lemma LeaveKeeps(s: State, t: Tid, j: Job, sid: Sid, st: Start, pc: Pc)
    requires PlacesInv(s) && PcOf(s, t) == Starting(j, sid) && sid in s.starts
             && (pc == FinLock(j) || pc == StartErr(j))
    requires st == Abandoned(s.starts[sid]) || (st == Consumed && !s.starts[sid].Produced?)
    ensures PlacesInv(Goto(s.(starts := s.starts[sid := st], place := s.place), t, pc))
  {
    assert ThreadOk(s, t, PcOf(s, t));
    StartsRule(s, Goto(s.(starts := s.starts[sid := st]), t, pc), t, pc, sid, st);
  }

  lemma StoppedKeeps(s: State, t: Tid, j: Job)
    requires PlacesInv(s) && PcOf(s, t) == StartWorker(j)
    ensures PlacesInv(Goto(s.(starts := s.starts, place := s.place), t, FinLock(j)))
  {
    assert ThreadOk(s, t, PcOf(s, t));
    SilentRule(s, Goto(s, t, FinLock(j)), t, FinLock(j));
  }

  lemma StartKeeps(s: State, t: Tid, ch: Choice)
    requires PlacesInv(s) && StartStep(s, t, ch).Some?
    ensures PlacesInv(StartStep(s, t, ch).value)
  {
    match PcOf(s, t)
    case StartWorker(j) => if s.gate.stopped { StoppedKeeps(s, t, j); } else { LaunchKeeps(s, t, j, ch.name); }
    case Starting(j, sid) =>
      if ch.GiveUp? { LeaveKeeps(s, t, j, sid, Abandoned(s.starts[sid]), FinLock(j)); }
      else if ch.TimeOut? { LeaveKeeps(s, t, j, sid, Abandoned(s.starts[sid]), StartErr(j)); }
      else if s.starts[sid].Produced? { TakeKeeps(s, t, j, sid); }
      else { LeaveKeeps(s, t, j, sid, Consumed, StartErr(j)); }
  }

  lemma SwapPathKeeps(s: State, t: Tid)
    requires PlacesInv(s) && KillStep(s, t).Some? && !PcOf(s, t).KillNew? && !PcOf(s, t).KillOld?
    ensures PlacesInv(KillStep(s, t).value)
  {
    var s2, pc := KillStep(s, t).value, KillMove(s, t).value.3;
    assert ThreadOk(s, t, PcOf(s, t));
    assert Silent(s, s2, t) && ThreadOk(s2, t, pc) && (HasNew(PcOf(s, t)) ==> HasNew(pc) && pc.h == PcOf(s, t).h) by {
      match PcOf(s, t)
      case StartErr(j) => if s.gate.closed {} else {}
      case SwapLock(j, h) =>
      case SwapClosed(j, h) => if s.gate.closed {} else {}
      case Swap(j, h) =>
    }
    SilentRule(s, s2, t, pc);
  }

  lemma KillKeeps(s: State, t: Tid)
    requires PlacesInv(s) && KillStep(s, t).Some?
    ensures PlacesInv(KillStep(s, t).value)
  {
    match PcOf(s, t)
    case KillNew(j, h) => BuryKeeps(s, t, h, s.place[h := Dead]);
    case KillOld(j) => BuryKeeps(s, t, j.failed, KillStep(s, t).value.place);
    case _ => SwapPathKeeps(s, t);
  }

  /** Killing the worker a thread was responsible for; a failed worker that stays in its slot keeps its place. */
  lemma BuryKeeps(s: State, t: Tid, h: Hid, place: map<Hid, Place>)
    requires PlacesInv(s)
    requires (PcOf(s, t).KillNew? && PcOf(s, t).h == h) || (PcOf(s, t).KillOld? && PcOf(s, t).j.failed == h)
    requires place ==
             if PcOf(s, t).KillOld? && !(h in s.place && s.place[h] == Old(t)) then s.place else s.place[h := Dead]
    ensures PlacesInv(Goto(s.(poolMu := s.poolMu, killed := s.killed + {h}, place := place), t, FinLock(PcOf(s, t).j)))
  {
    var s2 := Goto(s.(killed := s.killed + {h}, place := place), t, FinLock(PcOf(s, t).j));
    assert ThreadOk(s, t, PcOf(s, t)) && PlaceOk(s, h);
    forall id | id in s.slots ensures SamePlace(s, s2, s.slots[id]) { assert SlotOk(s, id); }
    forall x ensures !Undisturbed(s, s2, t, x) ==> PlaceOk(s2, x) { assert PlaceOk(s, x); }
    forall k | SameStart(s, s2, k) && s.starts[k].Produced? ensures SamePlace(s, s2, s.starts[k].h) {
      assert StartOk(s, k);
    }
    StepRule(s, s2, t, FinLock(PcOf(s, t).j));
  }

  lemma SwapKeeps(s: State, t: Tid)
    requires PlacesInv(s) && SwapStep(s, t).Some?
    ensures PlacesInv(SwapStep(s, t).value)
  {
    var s2 := SwapStep(s, t).value;
    var Swap(j, h) := PcOf(s, t);
    assert ThreadOk(s, t, PcOf(s, t)) && SlotOk(s, j.slot) && PlaceOk(s, h) && PlaceOk(s, j.failed);
    assert h != j.failed;
    forall u | u in s2.threads ensures ThreadOk(s2, u, s2.threads[u]) {
      if u != t { assert ThreadOk(s, u, s.threads[u]); OthersKeep(s, s2, t, u, s.threads[u]); }
    }
    forall x ensures PlaceOk(s2, x) { assert PlaceOk(s, x); }
    forall id ensures SlotOk(s2, id) { if id != j.slot { assert SlotOk(s, id); } }
    forall sid ensures StartOk(s2, sid) { assert StartOk(s, sid); }
  }

  /** A start task moves on: what it does to its worker, and to nothing else. */
  lemma TaskRule(s: State, s2: State, sid: Sid, h: Hid)
    requires PlacesInv(s) && s2.slots == s.slots && s2.threads == s.threads && s2.gate == s.gate
             && s2.poolMu == s.poolMu
    requires s2.replacedBy == s.replacedBy && s.killed <= s2.killed && GlobalOk(s2)
    requires forall x | x != h ::
               (x in s2.handles <==> x in s.handles) && (x in s.handles ==> s2.handles[x] == s.handles[x])
    requires forall x | x != h :: (x in s2.place <==> x in s.place) && (x in s.place ==> s2.place[x] == s.place[x])
    requires forall k | k != sid ::
               (k in s2.starts <==> k in s.starts) && (k in s.starts ==> s2.starts[k] == s.starts[k])
    requires h in s.handles ==> h in s2.handles && s2.handles[h].slot == s.handles[h].slot
    requires h !in s.place || s.place[h] == InStart(sid)
    requires PlaceOk(s2, h) && StartOk(s2, sid)
    requires sid in s.starts && s.starts[sid].Produced? ==> s.starts[sid].h == h
    requires forall u | u in s.threads :: ThreadOk(s2, u, s.threads[u])
    ensures PlacesInv(s2)
  {
    forall x ensures PlaceOk(s2, x) { assert PlaceOk(s, x); }
    forall id ensures SlotOk(s2, id) { assert SlotOk(s, id); }
    forall k ensures StartOk(s2, k) { assert StartOk(s, k); }
  }

  lemma BootKeeps(s: State, sid: Sid, h: Hid)
    requires PlacesInv(s) && EnvStep(s, BootOk(sid, h)).Some?
    ensures PlacesInv(EnvStep(s, BootOk(sid, h)).value)
  {
    var s2 := EnvStep(s, BootOk(sid, h)).value;
    forall u | u in s.threads ensures ThreadOk(s2, u, s.threads[u]) { assert ThreadOk(s, u, s.threads[u]); }
    TaskRule(s, s2, sid, h);
  }

  lemma ReapKeeps(s: State, sid: Sid)
    requires PlacesInv(s) && EnvStep(s, Reap(sid)).Some?
    ensures PlacesInv(EnvStep(s, Reap(sid)).value)
  {
    var s2 := EnvStep(s, Reap(sid)).value;
    assert StartOk(s, sid) && PlaceOk(s, s.starts[sid].h);
    forall u | u in s.threads ensures ThreadOk(s2, u, s.threads[u]) { assert ThreadOk(s, u, s.threads[u]); }
    TaskRule(s, s2, sid, s.starts[sid].h);
  }

  lemma EnvKeeps(s: State, e: Env)
    requires PlacesInv(s) && EnvStep(s, e).Some?
    ensures PlacesInv(EnvStep(s, e).value)
  {
    match e {
      case BootOk(sid, h) => BootKeeps(s, sid, h);
      case Reap(sid) => ReapKeeps(s, sid);
      case _ =>
        var s2 := EnvStep(s, e).value;
        if e.BootFail? {} else {}
        forall u | u in s2.threads ensures ThreadOk(s2, u, s2.threads[u]) { assert ThreadOk(s, u, s.threads[u]); }
        forall x ensures PlaceOk(s2, x) { assert PlaceOk(s, x); }
        forall id ensures SlotOk(s2, id) { assert SlotOk(s, id); }
        forall k ensures StartOk(s2, k) { assert StartOk(s, k); }
    }
  }

  lemma StepKeeps(s: State, a: Action)
    requires PlacesInv(s) && Step(s, a).Some?
    ensures PlacesInv(Step(s, a).value)
  {
    match a
    case Begin(t, ch) => BeginKeeps(s, t, ch);
    case HandleOp(t, name) => HandleKeeps(s, t, name);
    case Starts(t, ch) => StartKeeps(s, t, ch);
    case Kills(t) => KillKeeps(s, t);
    case Swaps(t) => SwapKeeps(s, t);
    case Wakes(t) => WakeKeeps(s, t);
    case Exits(t) => ExitKeeps(s, t);
    case Spawns(t, u) => SpawnKeeps(s, t, u);
    case Gates(t, ch) => GateKeeps(s, t, ch);
    case Environment(e) => EnvKeeps(s, e);
  }

  lemma InitHolds(s: State)
    requires Init(s)
    ensures PlacesInv(s)
  {
    forall h | h in s.place ensures PlaceOk(s, h) {
      var id :| id in s.slots && s.slots[id] == h;
    }
  }

  lemma {:induction false} RunKeeps(r: seq<State>, acts: seq<Action>, n: nat)
    requires IsRun(r, acts) && n < |r|
    ensures PlacesInv(r[n])
  {
    if n == 0 {
      InitHolds(r[0]);
    } else {
      RunKeeps(r, acts, n - 1);
      StepOf(r, acts, n - 1);
      StepKeeps(r[n - 1], acts[n - 1]);
    }
  }

  // ---------------------------------------------------------------- whole runs

  /** All threads are done and no start task has a worker or may still produce one. */
  ghost predicate AllEnded(s: State) {
    && (forall t | t in s.threads :: s.threads[t].Idle?)
    && (forall sid | sid in s.starts :: !s.starts[sid].Booting? && !s.starts[sid].Produced?)
  }

  /** Once Close has returned and everything else has ended, every worker ever started is killed. */
  lemma NoWorkerOutlivesClose(r: seq<State>, acts: seq<Action>, n: nat, h: Hid)
    requires IsRun(r, acts) && n < |r| && r[n].gate.returned && AllEnded(r[n]) && h in r[n].handles
    ensures h in r[n].killed
  {
    RunKeeps(r, acts, n);
    assert PlaceOk(r[n], h);
  }

  lemma StepReplaces(s: State, a: Action, h: Hid)
    requires PlacesInv(s) && Step(s, a).Some? && h in s.replacedBy
    ensures h in Step(s, a).value.replacedBy && Step(s, a).value.replacedBy[h] == s.replacedBy[h]
  {
    match a
    case Swaps(t) =>
      assert ThreadOk(s, t, PcOf(s, t)) && SlotOk(s, PcOf(s, t).j.slot) && PlaceOk(s, PcOf(s, t).j.failed);
    case Environment(e) => match e { case BootOk(_, _) => case BootFail(_) => case Reap(_) => case KillHung(_) => }
    case _ =>
  }

  /** A replaced worker is replaced once and for all, and never stands in a slot again. */
  lemma {:induction false} ReplacedForGood(r: seq<State>, acts: seq<Action>, m: nat, n: nat, h: Hid)
    requires IsRun(r, acts) && m <= n < |r| && h in r[m].replacedBy
    ensures h in r[n].replacedBy && r[n].replacedBy[h] == r[m].replacedBy[h]
    ensures forall id | id in r[n].slots :: r[n].slots[id] != h
    decreases n
  {
    if m < n {
      ReplacedForGood(r, acts, m, n - 1, h);
      RunKeeps(r, acts, n - 1);
      StepOf(r, acts, n - 1);
      StepReplaces(r[n - 1], acts[n - 1], h);
    }
    RunKeeps(r, acts, n);
    forall id | id in r[n].slots ensures r[n].slots[id] != h {
      assert SlotOk(r[n], id);
      assert PlaceOk(r[n], r[n].slots[id]);
    }
  }
}
