/**
  * Admission and graceful drain of the pool (beginLogicalRequest, Shutdown,
  * and the flags Close sets), as steps of any number of threads.
  */
module Drain {
  import opened Common

  type Tid = nat

  /** Where a thread stands; one constructor per atomic operation it is about to do. */
  datatype Pc =
    | Idle
      // beginLogicalRequest
    | ReqLock | ReqClosed | ReqDraining | ReqAdd | ReqUnlock(admitted: bool)
      // an admitted request; fired says whether its done has run
    | Serving(fired: bool)
      // Shutdown
    | ShutLock | ShutStore | ShutUnlock | ShutPoll | ShutSelect
      // Close, called directly or at the end of Shutdown
    | CloseSwap | CloseStore

  /** live and shut are history: requests admitted and not done, and whether Shutdown has stored draining. */
  datatype State = State(lock: Option<Tid>, closed: bool, draining: bool, inFlight: int,
                         threads: map<Tid, Pc>, live: set<Tid>, shut: bool)

  /** What the environment decides: which call a thread makes, whether Shutdown's context is done. */
  datatype Choice = Request | Shutdown | Close | TimeOut | Tick | Finish

  datatype Action = Action(t: Tid, ch: Choice)

  function PcOf(s: State, t: Tid): Pc {
    if t in s.threads then s.threads[t] else Idle
  }

  function Goto(s: State, t: Tid, pc: Pc): State {
    s.(threads := s.threads[t := pc])
  }

  function RequestStep(s: State, t: Tid, ch: Choice): Option<State> {
    match PcOf(s, t)
    case ReqLock => if s.lock.Some? then None else Some(Goto(s.(lock := Some(t)), t, ReqClosed))
    case ReqClosed => Some(Goto(s, t, if s.closed then ReqUnlock(false) else ReqDraining))
    case ReqDraining => Some(Goto(s, t, if s.draining then ReqUnlock(false) else ReqAdd))
    case ReqAdd => Some(Goto(s.(inFlight := s.inFlight + 1, live := s.live + {t}), t, ReqUnlock(true)))
    case ReqUnlock(admitted) => Some(Goto(s.(lock := None), t, if admitted then Serving(false) else Idle))
    case Serving(fired) =>
      // done may be called again after it has fired; only the first call counts
      if ch.Finish? then Some(Goto(s, t, if fired then Idle else Serving(false)))
      else if fired then Some(s)
      else Some(Goto(s.(inFlight := s.inFlight - 1, live := s.live - {t}), t, Serving(true)))
    case _ => None
  }

  function ShutdownStep(s: State, t: Tid, ch: Choice): Option<State> {
    match PcOf(s, t)
    case ShutLock => if s.lock.Some? then None else Some(Goto(s.(lock := Some(t)), t, ShutStore))
    case ShutStore => Some(Goto(s.(draining := true, shut := true), t, ShutUnlock))
    case ShutUnlock => Some(Goto(s.(lock := None), t, ShutPoll))
    case ShutPoll => Some(Goto(s, t, if s.inFlight == 0 then CloseSwap else ShutSelect))
    case ShutSelect => Some(Goto(s, t, if ch.TimeOut? then CloseSwap else ShutPoll))
    case CloseSwap => Some(Goto(s.(closed := true), t, if s.closed then Idle else CloseStore))
    case CloseStore => Some(Goto(s.(draining := true), t, Idle))
    case _ => None
  }

  function BeginStep(s: State, t: Tid, ch: Choice): Option<State> {
    if !PcOf(s, t).Idle? then None
    else match ch
         case Request => Some(Goto(s, t, ReqLock))
         case Shutdown => Some(Goto(s, t, ShutLock))
         case Close => Some(Goto(s, t, CloseSwap))
         case _ => None
  }

  predicate InRequest(pc: Pc) {
    pc.ReqLock? || pc.ReqClosed? || pc.ReqDraining? || pc.ReqAdd? || pc.ReqUnlock? || pc.Serving?
  }

  function Step(s: State, a: Action): Option<State> {
    if PcOf(s, a.t).Idle? then BeginStep(s, a.t, a.ch)
    else if InRequest(PcOf(s, a.t)) then RequestStep(s, a.t, a.ch)
    else ShutdownStep(s, a.t, a.ch)
  }

  ghost predicate Init(s: State) {
    s == State(None, false, false, 0, map[], {}, false)
  }

  ghost predicate IsRun(r: seq<State>, acts: seq<Action>) {
    && |r| == |acts| + 1 && Init(r[0])
    && forall i {:trigger acts[i]} | 0 <= i < |acts| :: Step(r[i], acts[i]) == Some(r[i + 1])
  }

  lemma StepOf(r: seq<State>, acts: seq<Action>, i: nat)
    requires IsRun(r, acts) && i < |acts|
    ensures Step(r[i], acts[i]) == Some(r[i + 1])
  {
    assert acts[i] == acts[i];
  }

  // ---------------------------------------------------------------- invariant

  /** A request that has been counted and whose done has not fired. */
  predicate Counted(pc: Pc) {
    (pc.ReqUnlock? && pc.admitted) || (pc.Serving? && !pc.fired)
  }

  predicate NeedsLock(pc: Pc) {
    pc.ReqClosed? || pc.ReqDraining? || pc.ReqAdd? || pc.ReqUnlock? || pc.ShutStore? || pc.ShutUnlock?
  }

  ghost predicate ThreadOk(s: State, t: Tid, pc: Pc) {
    && (Counted(pc) <==> t in s.live)
    && (NeedsLock(pc) ==> s.lock == Some(t))
    && (pc.ReqAdd? ==> !s.shut)
    && (pc.ShutUnlock? || pc.ShutPoll? || pc.ShutSelect? ==> s.shut)
    && (pc.ReqUnlock? && !pc.admitted ==> s.closed || s.draining)
  }

  ghost predicate DrainInv(s: State) {
    && s.inFlight == |s.live| && s.live <= s.threads.Keys && (s.shut ==> s.draining)
    && forall t {:trigger ThreadOk(s, t, s.threads[t])} | t in s.threads :: ThreadOk(s, t, s.threads[t])
  }

  /** A step of t that leaves the flags alone: what remains to be shown is about t, the lock and the count. */
  lemma LocalRule(s: State, t: Tid, lock: Option<Tid>, inFlight: int, live: set<Tid>, pc: Pc)
    requires DrainInv(s) && inFlight == |live|
    requires forall u | u != t :: u in live <==> u in s.live
    requires lock == s.lock || s.lock == None || s.lock == Some(t)
    requires ThreadOk(s.(lock := lock, live := live), t, pc)
    ensures DrainInv(Goto(s.(lock := lock, inFlight := inFlight, live := live), t, pc))
  {
    var s2 := Goto(s.(lock := lock, inFlight := inFlight, live := live), t, pc);
    forall u | u in s2.threads ensures ThreadOk(s2, u, s2.threads[u]) {
      if u != t { assert ThreadOk(s, u, s.threads[u]); }
    }
  }

  lemma AskKeeps(s: State, t: Tid, ch: Choice)
    requires DrainInv(s) && RequestStep(s, t, ch).Some?
    requires PcOf(s, t).ReqLock? || PcOf(s, t).ReqClosed? || PcOf(s, t).ReqDraining?
    ensures DrainInv(RequestStep(s, t, ch).value)
  {
    assert ThreadOk(s, t, PcOf(s, t));
    match PcOf(s, t)
    case ReqLock => LocalRule(s, t, Some(t), s.inFlight, s.live, ReqClosed);
    case ReqClosed => LocalRule(s, t, s.lock, s.inFlight, s.live, if s.closed then ReqUnlock(false) else ReqDraining);
    case ReqDraining => LocalRule(s, t, s.lock, s.inFlight, s.live, if s.draining then ReqUnlock(false) else ReqAdd);
  }

  lemma ServeKeeps(s: State, t: Tid, ch: Choice)
    requires DrainInv(s) && RequestStep(s, t, ch).Some?
    requires PcOf(s, t).ReqAdd? || PcOf(s, t).ReqUnlock? || PcOf(s, t).Serving?
    ensures DrainInv(RequestStep(s, t, ch).value)
  {
    assert ThreadOk(s, t, PcOf(s, t));
    match PcOf(s, t)
    case ReqAdd => LocalRule(s, t, s.lock, s.inFlight + 1, s.live + {t}, ReqUnlock(true));
    case ReqUnlock(admitted) =>
      LocalRule(s, t, None, s.inFlight, s.live, if admitted then Serving(false) else Idle);
    case Serving(fired) =>
      if ch.Finish? {
        LocalRule(s, t, s.lock, s.inFlight, s.live, if fired then Idle else Serving(false));
      } else if !fired {
        LocalRule(s, t, s.lock, s.inFlight - 1, s.live - {t}, Serving(true));
      }
  }

  lemma RequestKeeps(s: State, t: Tid, ch: Choice)
    requires DrainInv(s) && RequestStep(s, t, ch).Some?
    ensures DrainInv(RequestStep(s, t, ch).value)
  {
    if PcOf(s, t).ReqLock? || PcOf(s, t).ReqClosed? || PcOf(s, t).ReqDraining? {
      AskKeeps(s, t, ch);
    } else {
      ServeKeeps(s, t, ch);
    }
  }

  lemma ShutdownKeeps(s: State, t: Tid, ch: Choice)
    requires DrainInv(s) && ShutdownStep(s, t, ch).Some?
    ensures DrainInv(ShutdownStep(s, t, ch).value)
  {
    var s2 := ShutdownStep(s, t, ch).value;
    assert ThreadOk(s, t, PcOf(s, t));
    match PcOf(s, t) {
      case ShutLock =>
      case ShutStore =>
      case ShutUnlock =>
      case ShutPoll => if s.inFlight == 0 {} else {}
      case ShutSelect => if ch.TimeOut? {} else {}
      case CloseSwap => if s.closed {} else {}
      case CloseStore =>
    }
    forall u | u in s2.threads ensures ThreadOk(s2, u, s2.threads[u]) {
      if u != t { assert ThreadOk(s, u, s.threads[u]); }
    }
  }

  lemma StepKeeps(s: State, a: Action)
    requires DrainInv(s) && Step(s, a).Some?
    ensures DrainInv(Step(s, a).value)
  {
    if PcOf(s, a.t).Idle? {
      var s2 := Step(s, a).value;
      if a.t in s.threads { assert ThreadOk(s, a.t, s.threads[a.t]); }
      forall u | u in s2.threads ensures ThreadOk(s2, u, s2.threads[u]) {
        if u != a.t { assert ThreadOk(s, u, s.threads[u]); }
      }
    } else if InRequest(PcOf(s, a.t)) {
      RequestKeeps(s, a.t, a.ch);
    } else {
      ShutdownKeeps(s, a.t, a.ch);
    }
  }

  lemma {:induction false} RunKeeps(r: seq<State>, acts: seq<Action>, n: nat)
    requires IsRun(r, acts) && n < |r|
    ensures DrainInv(r[n])
  {
    if n > 0 {
      RunKeeps(r, acts, n - 1);
      StepOf(r, acts, n - 1);
      StepKeeps(r[n - 1], acts[n - 1]);
    }
  }

  // ---------------------------------------------------------------- whole runs

  /** Requests that are admitted and whose done has not fired, read off the threads. */
  function LiveThreads(s: State): set<Tid> {
    set t | t in s.threads && Counted(s.threads[t])
  }

  /** logicalInFlight is the number of admitted requests whose done has not fired. */
  lemma CountIsExact(r: seq<State>, acts: seq<Action>, n: nat)
    requires IsRun(r, acts) && n < |r|
    ensures r[n].inFlight == |LiveThreads(r[n])|
  {
    RunKeeps(r, acts, n);
    forall t ensures t in r[n].live <==> t in LiveThreads(r[n]) {
      if t in r[n].threads { assert ThreadOk(r[n], t, r[n].threads[t]); }
    }
    assert r[n].live == LiveThreads(r[n]);
  }

  lemma ShutStepAdmitsNone(s: State, a: Action)
    requires DrainInv(s) && s.shut && Step(s, a).Some?
    ensures Step(s, a).value.shut && Step(s, a).value.live <= s.live
  {
    if a.t in s.threads { assert ThreadOk(s, a.t, s.threads[a.t]); }
    match PcOf(s, a.t) {
      case ReqUnlock(admitted) => if admitted {} else {}
      case Serving(fired) => if a.ch.Finish? {} else if fired {} else {}
      case _ =>
    }
  }

  lemma {:induction false} LiveOnlyShrinks(r: seq<State>, acts: seq<Action>, m: nat, n: nat)
    requires IsRun(r, acts) && m <= n < |r| && r[m].shut
    ensures r[n].shut && r[n].live <= r[m].live
    decreases n
  {
    if m < n {
      LiveOnlyShrinks(r, acts, m, n - 1);
      StepOf(r, acts, n - 1);
      RunKeeps(r, acts, n - 1);
      ShutStepAdmitsNone(r[n - 1], acts[n - 1]);
    }
  }

  lemma LiveIsCounted(r: seq<State>, acts: seq<Action>, n: nat, t: Tid)
    requires IsRun(r, acts) && n < |r|
    ensures Counted(PcOf(r[n], t)) <==> t in r[n].live
  {
    RunKeeps(r, acts, n);
    if t in r[n].threads { assert ThreadOk(r[n], t, r[n].threads[t]); }
  }

  /**
    * From Shutdown's store of draining on no step admits a request: a thread
    * that is live after a step was live before it, and has been since the store.
    */
  lemma NothingAdmittedAfterDraining(r: seq<State>, acts: seq<Action>, m: nat, i: nat, t: Tid)
    requires IsRun(r, acts) && m <= i < |acts|
    requires PcOf(r[m], acts[m].t).ShutStore?
    requires Counted(PcOf(r[i + 1], t))
    ensures Counted(PcOf(r[i], t)) && Counted(PcOf(r[m], t))
  {
    StepOf(r, acts, m);
    LiveOnlyShrinks(r, acts, m + 1, i + 1);
    LiveIsCounted(r, acts, m, t);
    LiveIsCounted(r, acts, i, t);
    LiveIsCounted(r, acts, i + 1, t);
    if m < i {
      LiveOnlyShrinks(r, acts, m + 1, i);
      LiveOnlyShrinks(r, acts, i, i + 1);
    }
  }

  /** Shutdown leaves its wait loop for Close at the poll if and only if no admitted request is live. */
  lemma PollLeavesIff(r: seq<State>, acts: seq<Action>, i: nat)
    requires IsRun(r, acts) && i < |acts| && PcOf(r[i], acts[i].t).ShutPoll?
    ensures PcOf(r[i + 1], acts[i].t).CloseSwap? <==> LiveThreads(r[i]) == {}
    ensures !PcOf(r[i + 1], acts[i].t).CloseSwap? ==> PcOf(r[i + 1], acts[i].t).ShutSelect?
  {
    StepOf(r, acts, i);
    CountIsExact(r, acts, i);
  }

  /** It leaves for Close from the select only because its context is done; otherwise it polls again. */
  lemma SelectLeavesOnTimeOut(r: seq<State>, acts: seq<Action>, i: nat)
    requires IsRun(r, acts) && i < |acts| && PcOf(r[i], acts[i].t).ShutSelect?
    ensures PcOf(r[i + 1], acts[i].t).CloseSwap? <==> acts[i].ch.TimeOut?
    ensures !PcOf(r[i + 1], acts[i].t).CloseSwap? ==> PcOf(r[i + 1], acts[i].t).ShutPoll?
  {
    StepOf(r, acts, i);
  }

  /** A step changes no other thread, and does not reopen the pool. */
  lemma RequestMovesOne(s: State, t: Tid, ch: Choice)
    requires RequestStep(s, t, ch).Some?
    ensures var s2 := RequestStep(s, t, ch).value; s2.threads == s.threads[t := PcOf(s2, t)] && s2.closed == s.closed
  {
    match PcOf(s, t)
    case Serving(fired) => if ch.Finish? {} else if fired {} else {}
    case _ =>
  }

  lemma ShutdownMovesOne(s: State, t: Tid, ch: Choice)
    requires ShutdownStep(s, t, ch).Some?
    ensures var s2 := ShutdownStep(s, t, ch).value;
            s2.threads == s.threads[t := PcOf(s2, t)] && (s.closed ==> s2.closed)
  {
    match PcOf(s, t)
    case CloseSwap => if s.closed {} else {}
    case _ =>
  }

  lemma MovesOne(r: seq<State>, acts: seq<Action>, i: nat)
    requires IsRun(r, acts) && i < |acts|
    ensures r[i + 1].threads == r[i].threads[acts[i].t := PcOf(r[i + 1], acts[i].t)]
    ensures r[i].closed ==> r[i + 1].closed
  {
    StepOf(r, acts, i);
    if InRequest(PcOf(r[i], acts[i].t)) {
      RequestMovesOne(r[i], acts[i].t, acts[i].ch);
    } else if !PcOf(r[i], acts[i].t).Idle? {
      ShutdownMovesOne(r[i], acts[i].t, acts[i].ch);
    }
  }

  /** Once Shutdown has left its poll for Close no admitted request is live, at the poll or at any later state. */
  lemma DrainedForGood(r: seq<State>, acts: seq<Action>, m: nat, n: nat, t: Tid, u: Tid)
    requires IsRun(r, acts) && m <= n < |r| && m < |acts|
    requires PcOf(r[m], t).ShutPoll? && PcOf(r[m + 1], t).CloseSwap?
    ensures !Counted(PcOf(r[n], u))
  {
    MovesOne(r, acts, m);
    PollLeavesIff(r, acts, m);
    RunKeeps(r, acts, m);
    assert ThreadOk(r[m], t, r[m].threads[t]);
    LiveOnlyShrinks(r, acts, m, n);
    LiveIsCounted(r, acts, n, u);
    LiveIsCounted(r, acts, m, u);
    assert Counted(PcOf(r[m], u)) ==> u in LiveThreads(r[m]);
  }

  // ---------------------------------------------------------------- who is admitted

  /** A request that is not admitted found the pool closed or draining. */
  lemma RefusedOnlyIf(r: seq<State>, acts: seq<Action>, n: nat, t: Tid)
    requires IsRun(r, acts) && n < |r| && PcOf(r[n], t) == ReqUnlock(false)
    ensures r[n].closed || r[n].draining
  {
    RunKeeps(r, acts, n);
    assert ThreadOk(r[n], t, r[n].threads[t]);
  }

  /** A request that has read closed as false, or has been admitted. */
  predicate PastClosed(pc: Pc) {
    pc.ReqDraining? || pc.ReqAdd? || Counted(pc)
  }

  lemma StaysOut(r: seq<State>, acts: seq<Action>, i: nat)
    requires IsRun(r, acts) && i < |acts| && r[i].closed && !PastClosed(PcOf(r[i], acts[i].t))
    ensures !PastClosed(PcOf(r[i + 1], acts[i].t))
  {
    StepOf(r, acts, i);
    match PcOf(r[i], acts[i].t)
    case ReqUnlock(admitted) =>
    case Serving(fired) => if acts[i].ch.Finish? {} else {}
    case _ =>
  }

  lemma NextStaysOut(r: seq<State>, acts: seq<Action>, i: nat, t: Tid)
    requires IsRun(r, acts) && i < |acts| && r[i].closed && !PastClosed(PcOf(r[i], t))
    ensures r[i + 1].closed && !PastClosed(PcOf(r[i + 1], t))
  {
    MovesOne(r, acts, i);
    if acts[i].t == t { StaysOut(r, acts, i); } else { assert PcOf(r[i + 1], t) == PcOf(r[i], t); }
  }

  /** Once the pool is closed no request is admitted that has not read the flag before. */
  lemma {:induction false} NothingAdmittedAfterClose(r: seq<State>, acts: seq<Action>, m: nat, n: nat, t: Tid)
    requires IsRun(r, acts) && m <= n < |r| && r[m].closed && !PastClosed(PcOf(r[m], t))
    ensures r[n].closed && !PastClosed(PcOf(r[n], t))
    decreases n
  {
    if m < n {
      NothingAdmittedAfterClose(r, acts, m, n - 1, t);
      NextStaysOut(r, acts, n - 1, t);
    }
  }
}
