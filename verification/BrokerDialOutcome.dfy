/**
  * What dialing achieves: a caller gives up on an id only after all its attempts
  * or a cancellation, and a returned worker has every connection that was posted.
  */
module BrokerDialOutcome {
  import opened Common
  import opened BrokerDial
  import Places = BrokerDialPlaces

  /** Attempts 0 to k of id have been made. */
  ghost predicate Tried(s: State, id: nat, k: nat) {
    forall i | 0 <= i <= k :: Conn(id, i) in s.attempts
  }

  ghost predicate CallerOk(s: State, id: nat) {
    id in s.callers ==>
      match s.callers[id]
      case Check(k) => k == 0 || Tried(s, id, k - 1)
      case Waiting(k) => Tried(s, id, k)
      case Failed(k) => Tried(s, id, k)
      case Backoff(k) => Tried(s, id, k)
      case Post(res) => res.None? ==> s.cancelled || Tried(s, id, s.retries)
      case Finished => true
  }

  ghost predicate TriesInv(s: State) {
    forall id {:trigger CallerOk(s, id)} :: CallerOk(s, id)
  }

  /** Attempts are never forgotten, and the configuration does not change. */
  ghost predicate Goes(s: State, s2: State) {
    s.attempts.Keys <= s2.attempts.Keys && (s.cancelled ==> s2.cancelled) && s2.retries == s.retries
  }

  lemma OthersKeep(s: State, s2: State, id: nat)
    requires CallerOk(s, id) && Goes(s, s2) && (id in s2.callers ==> id in s.callers && s2.callers[id] == s.callers[id])
    ensures CallerOk(s2, id)
  {
  }

  lemma DialKeeps(s: State, a: Action)
    requires TriesInv(s) && (a.Expires? || a.Dialed? || a.Sends? || a.Takes? || a.Leaves?) && DialStep(s, a).Some?
    ensures TriesInv(DialStep(s, a).value)
  {
    var s2 := DialStep(s, a).value;
    forall id ensures CallerOk(s2, id) {
      assert CallerOk(s, id);
      match a
      case Expires(_) => OthersKeep(s, s2, id);
      case Dialed(_, _) => OthersKeep(s, s2, id);
      case Leaves(_) => OthersKeep(s, s2, id);
      case Sends(c) => if id != c.id { OthersKeep(s, s2, id); }
      case Takes(c) => if id != c.id { OthersKeep(s, s2, id); }
    }
  }

  lemma CallerKeeps(s: State, id: nat, timer: bool)
    requires TriesInv(s) && CallerStep(s, id, timer).Some? && Places.CallerOk(s, id)
    ensures TriesInv(CallerStep(s, id, timer).value)
  {
    var s2 := CallerStep(s, id, timer).value;
    forall j ensures CallerOk(s2, j) {
      assert CallerOk(s, j);
      if j != id {
        OthersKeep(s, s2, j);
      } else {
        match s.callers[id]
        case Check(k) => if s.cancelled {} else {}
        case Failed(k) => if s.cancelled || k >= s.retries {} else {}
        case Backoff(k) => if s.cancelled && !timer {} else {}
        case _ =>
      }
    }
  }

  lemma StepKeeps(s: State, a: Action)
    requires TriesInv(s) && Places.DialInv(s) && Step(s, a).Some?
    ensures TriesInv(Step(s, a).value)
  {
    var s2 := Step(s, a).value;
    match a
    case Calls(id, timer) => assert Places.CallerOk(s, id); CallerKeeps(s, id, timer);
    case Cancel => forall id ensures CallerOk(s2, id) { assert CallerOk(s, id); OthersKeep(s, s2, id); }
    case Collects(_) =>
      match s.main { case Receive => case Have(_, res) => if s.cancelled {} else {} case Drain => }
      forall id ensures CallerOk(s2, id) { assert CallerOk(s, id); OthersKeep(s, s2, id); }
    case Closes(_) => forall id ensures CallerOk(s2, id) { assert CallerOk(s, id); OthersKeep(s, s2, id); }
    case _ => DialKeeps(s, a);
  }

  lemma {:induction false} RunKeeps(r: seq<State>, acts: seq<Action>, n: nat)
    requires IsRun(r, acts) && n < |r| && !r[0].buffered
    ensures TriesInv(r[n])
  {
    if n > 0 {
      RunKeeps(r, acts, n - 1);
      Places.RunKeeps(r, acts, n - 1);
      StepOf(r, acts, n - 1);
      StepKeeps(r[n - 1], acts[n - 1]);
    }
  }

  /** A caller that reports no connection was cancelled, or has made every attempt the retry count allows. */
  lemma GivesUpOnlyAfterAll(r: seq<State>, acts: seq<Action>, n: nat, id: nat, k: nat)
    requires IsRun(r, acts) && n < |r| && !r[0].buffered && id in r[n].callers && r[n].callers[id] == Post(None)
    requires k <= r[n].retries
    ensures r[n].cancelled || Conn(id, k) in r[n].attempts
  {
    RunKeeps(r, acts, n);
    assert CallerOk(r[n], id);
  }

  // ---------------------------------------------------------------- a posted connection is used

  /** The connection is on its way to the worker, or the worker is being given up. */
  ghost predicate OnItsWay(s: State, c: Conn) {
    || (c.id in s.callers && s.callers[c.id] == Post(Some(c.attempt)))
    || (c.id in s.results && s.results[c.id] == Some(c.attempt))
    || s.main == Have(c.id, Some(c.attempt))
    || c in s.conns
    || s.main.Drain? || s.main.Closing? || s.main.Aborted?
  }

  lemma StaysOnItsWay(s: State, a: Action, c: Conn)
    requires Step(s, a).Some? && OnItsWay(s, c) && Places.DialInv(s)
    ensures OnItsWay(Step(s, a).value, c)
  {
    assert Places.CallerOk(s, c.id) && Places.ResultOk(s, c.id);
    match a
    case Calls(id, timer) => if id in s.callers && s.callers[id].Post? {} else {}
    case Collects(id) => CollectStays(s, id, c);
    case Sends(d) => if d in s.attempts && s.attempts[d].dial.Ready? {} else {}
    case _ =>
  }

  lemma CollectStays(s: State, id: nat, c: Conn)
    requires CollectStep(s, id).Some? && OnItsWay(s, c) && Places.DialInv(s)
    ensures OnItsWay(CollectStep(s, id).value, c)
  {
    assert Places.CallerOk(s, c.id) && Places.ResultOk(s, c.id);
    match s.main
    case Receive => if s.received == s.ids {} else {}
    case Have(j, res) => if s.cancelled {} else if res.None? {} else {}
    case Drain =>
  }

  lemma {:induction false} PostedIsOnItsWay(r: seq<State>, acts: seq<Action>, m: nat, n: nat, c: Conn)
    requires IsRun(r, acts) && m <= n < |r| && !r[0].buffered
    requires c.id in r[m].callers && r[m].callers[c.id] == Post(Some(c.attempt))
    ensures OnItsWay(r[n], c)
    decreases n
  {
    if m < n {
      PostedIsOnItsWay(r, acts, m, n - 1, c);
      Places.RunKeeps(r, acts, n - 1);
      StepOf(r, acts, n - 1);
      StaysOnItsWay(r[n - 1], acts[n - 1], c);
    }
  }

  /** A worker that is returned has every connection a caller has posted. */
  lemma ReturnedHasAll(r: seq<State>, acts: seq<Action>, m: nat, n: nat, c: Conn)
    requires IsRun(r, acts) && m <= n < |r| && !r[0].buffered && r[n].main.Returned?
    requires c.id in r[m].callers && r[m].callers[c.id] == Post(Some(c.attempt))
    ensures c in r[n].conns
  {
    PostedIsOnItsWay(r, acts, m, n, c);
    Places.RunKeeps(r, acts, n);
    assert Places.CallerOk(r[n], c.id) && Places.ResultOk(r[n], c.id);
  }

  predicate GivenUp(main: Main) {
    main.Drain? || main.Closing? || main.Aborted?
  }

  lemma CollectGivesUp(s: State, id: nat)
    requires CollectStep(s, id).Some? && (GivenUp(s.main) ==> s.cancelled)
    ensures var s2 := CollectStep(s, id).value; s2.cancelled == s.cancelled && (GivenUp(s2.main) ==> s.cancelled)
  {
    match s.main
    case Receive => if s.received == s.ids {} else {}
    case Have(j, res) => if s.cancelled {} else if res.None? {} else {}
    case Drain =>
  }

  lemma NextGivesUp(r: seq<State>, acts: seq<Action>, i: nat)
    requires IsRun(r, acts) && i < |acts| && (GivenUp(r[i].main) ==> r[i].cancelled)
    ensures GivenUp(r[i + 1].main) ==> r[i + 1].cancelled
  {
    StepOf(r, acts, i);
    match acts[i]
    case Collects(id) => CollectGivesUp(r[i], id);
    case Calls(_, _) =>
    case Closes(_) =>
    case _ =>
  }

  /** The worker is given up only under a cancelled context. */
  lemma {:induction false} GivenUpOnlyIfCancelled(r: seq<State>, acts: seq<Action>, n: nat)
    requires IsRun(r, acts) && n < |r| && GivenUp(r[n].main)
    ensures r[n].cancelled
  {
    if n > 0 {
      if GivenUp(r[n - 1].main) { GivenUpOnlyIfCancelled(r, acts, n - 1); }
      NextGivesUp(r, acts, n - 1);
    }
  }
}
