/** No broker connection leaks: where each dialed connection is, in every interleaving. */
module BrokerDialPlaces {
  import opened Common
  import opened BrokerDial

  /** The recorded place of a connection is where it is. */
  ghost predicate PlaceOk(s: State, c: Conn) {
    c in s.place ==>
      && c in s.attempts && (s.place[c] == Closed <==> c in s.closed)
      && match s.place[c]
         case AtDial => s.attempts[c].dial == Ready(true)
         case InBuffer => false
         case AtCaller => c.id in s.callers && s.callers[c.id] == Post(Some(c.attempt))
         case InResults => c.id in s.results && s.results[c.id] == Some(c.attempt)
         case InHand => s.main == Have(c.id, Some(c.attempt))
         case InConns => c in s.conns && !s.main.Aborted? && (s.main.Closing? ==> c in s.main.left)
         case Closed => c in s.conns ==> s.main.Aborted? || (s.main.Closing? && c !in s.main.left)
  }

  /** And whoever holds one is recorded. */
  ghost predicate AttemptOk(s: State, c: Conn) {
    c in s.attempts ==>
      var t := s.attempts[c];
      && c.id in s.callers
      && (!t.ended ==> s.callers[c.id] == Waiting(c.attempt) && (t.dial.Left? ==> s.cancelled || t.expired))
      && (t.dial.Dialing? ==> c !in s.place)
      && (t.dial == Ready(true) ==> c in s.place && s.place[c] == AtDial)
      && (t.dial == Ready(false) ==> c !in s.place)
      && c.attempt <= Turn(s, c.id)
      && (s.callers[c.id].Check? ==> c.attempt < s.callers[c.id].k)
  }

  /** The attempt a caller is at; past its last attempt there is no bound to keep. */
  ghost function Turn(s: State, id: nat): nat
    requires id in s.callers
  {
    match s.callers[id]
    case Check(k) => k
    case Waiting(k) => k
    case Failed(k) => k
    case Backoff(k) => k
    case _ => s.retries
  }

  ghost predicate CallerOk(s: State, id: nat) {
    id in s.callers ==>
      && id in s.ids && Turn(s, id) <= s.retries
      && (s.callers[id].Backoff? ==> s.callers[id].k < s.retries)
      && (s.callers[id].Finished? <==> id in s.results || id in s.received)
      && (s.callers[id].Waiting? ==>
            Conn(id, s.callers[id].k) in s.attempts && !s.attempts[Conn(id, s.callers[id].k)].ended)
      && (s.callers[id].Post? && s.callers[id].res.Some? ==> Held(s, Conn(id, s.callers[id].res.value), AtCaller))
  }

  ghost predicate Held(s: State, c: Conn, p: Place) {
    c in s.place && s.place[c] == p
  }

  ghost predicate ResultOk(s: State, id: nat) {
    id in s.results ==>
      && id in s.callers
      && id !in s.received
      && (s.results[id].Some? ==> Held(s, Conn(id, s.results[id].value), InResults))
  }

  ghost predicate ConnOk(s: State, c: Conn) {
    c in s.conns ==>
      c in s.place
      && (s.place[c] == InConns
          || (s.place[c] == Closed && (s.main.Aborted? || (s.main.Closing? && c !in s.main.left))))
  }

  ghost predicate MainOk(s: State) {
    && s.received <= s.callers.Keys && s.callers.Keys == s.ids && !s.buffered && s.closed <= s.place.Keys
    && (s.main.Have? && s.main.res.Some? ==> Held(s, Conn(s.main.id, s.main.res.value), InHand))
    && (s.main.Closing? ==> s.main.left <= s.conns)
    && (s.main.Closing? || s.main.Returned? || s.main.Aborted? ==> s.received == s.ids)
  }

  ghost predicate DialInv(s: State) {
    && MainOk(s)
    && (forall c {:trigger PlaceOk(s, c)} :: PlaceOk(s, c))
    && (forall c {:trigger AttemptOk(s, c)} :: AttemptOk(s, c))
    && (forall id {:trigger CallerOk(s, id)} :: CallerOk(s, id))
    && (forall id {:trigger ResultOk(s, id)} :: ResultOk(s, id))
    && (forall c {:trigger ConnOk(s, c)} :: ConnOk(s, c))
  }

  /** s2 differs from s only at connection c and at the caller of its id. */
  ghost predicate Local(s: State, s2: State, c: Conn) {
    && s2.ids == s.ids && s2.retries == s.retries && s2.buffered == s.buffered && (s.cancelled ==> s2.cancelled)
    && s2.results == s.results && s2.received == s.received && s2.main == s.main && s2.conns == s.conns
    && s2.callers.Keys == s.callers.Keys && (forall j | j in s.callers && j != c.id :: s2.callers[j] == s.callers[j])
    && (forall d | d != c ::
          (d in s2.attempts <==> d in s.attempts) && (d in s.attempts ==> s2.attempts[d] == s.attempts[d]))
    && (forall d | d != c :: (d in s2.place <==> d in s.place) && (d in s.place ==> s2.place[d] == s.place[d]))
    && (forall d | d != c :: d in s2.closed <==> d in s.closed)
  }

  /** The caller of id stays where it is, or moves on from c. */
  ghost predicate MovesOn(s: State, s2: State, c: Conn)
    requires c.id in s.callers && c.id in s2.callers
  {
    || s2.callers[c.id] == s.callers[c.id]
    || (!s.callers[c.id].Post? && (s.callers[c.id].Waiting? ==> s.callers[c.id].k == c.attempt)
        && Turn(s, c.id) <= Turn(s2, c.id) && (s2.callers[c.id].Check? ==> Turn(s, c.id) < Turn(s2, c.id)))
  }

  /** What has to be shown at c and its caller; the rest is unchanged. */
  ghost predicate HereOk(s2: State, c: Conn) {
    && c.id in s2.callers && CallerOk(s2, c.id)
    && PlaceOk(s2, c) && AttemptOk(s2, c)
  }

  /** c moves from its dial goroutine on, and not yet to the collector. */
  ghost predicate Upstream(s: State, s2: State, c: Conn) {
    (c !in s.place || s.place[c] == AtDial) && (c in s2.place ==> s2.place[c] in {AtDial, AtCaller, Closed})
  }

  lemma OtherAttempts(s: State, s2: State, c: Conn, d: Conn)
    requires DialInv(s) && Local(s, s2, c) && c.id in s.callers && MovesOn(s, s2, c) && d != c
    ensures AttemptOk(s2, d)
  {
    assert AttemptOk(s, d);
  }

  lemma LocalRule(s: State, s2: State, c: Conn)
    requires DialInv(s) && Local(s, s2, c) && c.id in s.callers && MovesOn(s, s2, c) && HereOk(s2, c)
    requires Upstream(s, s2, c) || s2.place == s.place
    requires s2.closed <= s2.place.Keys
    ensures DialInv(s2)
  {
    assert PlaceOk(s, c);
    forall d ensures PlaceOk(s2, d) { if d != c { assert PlaceOk(s, d); } }
    forall d ensures AttemptOk(s2, d) { if d != c { OtherAttempts(s, s2, c, d); } }
    forall j ensures CallerOk(s2, j) { if j != c.id { assert CallerOk(s, j); } }
    forall j ensures ResultOk(s2, j) { assert ResultOk(s, j); }
    forall d ensures ConnOk(s2, d) { assert ConnOk(s, d); }
  }

  lemma DialStepKeeps(s: State, a: Action)
    requires DialInv(s) && (a.Expires? || a.Dialed? || a.Sends? || a.Takes? || a.Leaves?) && DialStep(s, a).Some?
    ensures DialInv(DialStep(s, a).value)
  {
    var c := a.c;
    var s2 := DialStep(s, a).value;
    assert AttemptOk(s, c) && CallerOk(s, c.id);
    assert PlaceOk(s, c) && ConnOk(s, c);
    match a {
      case Expires(_) => ExpireKeeps(s, c);
      case Dialed(_, ok) => if ok {} else {} LocalRule(s, s2, c);
      case Sends(_) => if s.attempts[c].dial.ok {} else {} LocalRule(s, s2, c);
      case Leaves(_) => if s.attempts[c].dial.ok {} else {} LocalRule(s, s2, c);
    }
  }

  lemma ExpireKeeps(s: State, c: Conn)
    requires DialInv(s) && DialStep(s, Expires(c)).Some?
    ensures DialInv(DialStep(s, Expires(c)).value)
  {
    var s2 := DialStep(s, Expires(c)).value;
    forall d ensures PlaceOk(s2, d) { assert PlaceOk(s, d); }
    forall d ensures AttemptOk(s2, d) { assert AttemptOk(s, d); }
    forall j ensures CallerOk(s2, j) { assert CallerOk(s, j); }
    forall j ensures ResultOk(s2, j) { assert ResultOk(s, j); }
    forall d ensures ConnOk(s2, d) { assert ConnOk(s, d); }
  }

  lemma CallerStepKeeps(s: State, id: nat, timer: bool)
    requires DialInv(s) && CallerStep(s, id, timer).Some?
    ensures DialInv(CallerStep(s, id, timer).value)
  {
    var s2 := CallerStep(s, id, timer).value;
    assert CallerOk(s, id);
    match s.callers[id] {
      case Check(k) => CheckKeeps(s, id, k, timer);
      case Waiting(k) => GiveUpKeeps(s, id, k, timer);
      case Failed(k) => RestKeeps(s, id, timer);
      case Backoff(k) => RestKeeps(s, id, timer);
      case Post(res) => PostKeeps(s, id, res, timer);
    }
  }

  lemma CheckKeeps(s: State, id: nat, k: nat, timer: bool)
    requires DialInv(s) && id in s.callers && s.callers[id] == Check(k)
    ensures DialInv(CallerStep(s, id, timer).value)
  {
    var s2, c := CallerStep(s, id, timer).value, Conn(id, k);
    assert CallerOk(s, id);
    assert AttemptOk(s, c) && PlaceOk(s, c);
    if s.cancelled {} else {}
    LocalRule(s, s2, c);
  }

  lemma GiveUpKeeps(s: State, id: nat, k: nat, timer: bool)
    requires DialInv(s) && id in s.callers && s.callers[id] == Waiting(k) && CallerStep(s, id, timer).Some?
    ensures DialInv(CallerStep(s, id, timer).value)
  {
    var s2, c := CallerStep(s, id, timer).value, Conn(id, k);
    assert CallerOk(s, id) && AttemptOk(s, c);
    assert PlaceOk(s, c) && ConnOk(s, c);
    LocalRule(s, s2, c);
  }

  lemma RestKeeps(s: State, id: nat, timer: bool)
    requires DialInv(s) && id in s.callers && (s.callers[id].Failed? || s.callers[id].Backoff?)
    ensures DialInv(CallerStep(s, id, timer).value)
  {
    var s2, c := CallerStep(s, id, timer).value, Conn(id, s.retries + 1);
    assert CallerOk(s, id);
    assert AttemptOk(s, c) && PlaceOk(s, c);
    if s.callers[id].Failed? {
      if s.cancelled || s.callers[id].k >= s.retries {} else {}
    } else {
      if s.cancelled && !timer {} else {}
    }
    LocalRule(s, s2, c);
  }

  lemma PostKeeps(s: State, id: nat, res: Option<nat>, timer: bool)
    requires DialInv(s) && id in s.callers && s.callers[id] == Post(res)
    ensures DialInv(CallerStep(s, id, timer).value)
  {
    var s2 := CallerStep(s, id, timer).value;
    assert CallerOk(s, id);
    if res.Some? { assert PlaceOk(s, Conn(id, res.value)) && AttemptOk(s, Conn(id, res.value)); }
    forall d ensures PlaceOk(s2, d) { assert PlaceOk(s, d); }
    forall d ensures AttemptOk(s2, d) { assert AttemptOk(s, d); }
    forall j ensures CallerOk(s2, j) { assert CallerOk(s, j); }
    forall j ensures ResultOk(s2, j) { assert ResultOk(s, j); }
    forall d ensures ConnOk(s2, d) { assert ConnOk(s, d); }
  }

  /** s2 differs from s in the collector, and in the place of c. */
  ghost predicate CollectorOnly(s: State, s2: State, c: Conn) {
    && s2.ids == s.ids && s2.retries == s.retries && s2.buffered == s.buffered && s2.cancelled == s.cancelled
    && s2.callers == s.callers && s2.attempts == s.attempts && s2.place.Keys == s.place.Keys
    && (forall d | d in s.place && d != c :: s2.place[d] == s.place[d])
  }

  /** Clauses about dialing and calling do not see the collector's moves on a connection that is past them. */
  lemma CollectorRule(s: State, s2: State, c: Conn)
    requires DialInv(s) && CollectorOnly(s, s2, c) && MainOk(s2)
    requires c in s.place ==> s.place[c] in {InResults, InHand, InConns} && s2.place[c] in {InHand, InConns, Closed}
    requires s.results.Keys + s.received == s2.results.Keys + s2.received && s2.results.Keys <= s.results.Keys
    ensures forall d {:trigger AttemptOk(s2, d)} :: AttemptOk(s2, d)
    ensures forall j {:trigger CallerOk(s2, j)} :: CallerOk(s2, j)
  {
    forall d ensures AttemptOk(s2, d) { assert AttemptOk(s, d) && PlaceOk(s, d); }
    forall j ensures CallerOk(s2, j) { assert CallerOk(s, j); }
  }

  /** Taking a result: into the hand, or straight to closing while draining. */
  lemma TakeKeeps(s: State, id: nat)
    requires DialInv(s) && (s.main.Receive? || s.main.Drain?) && s.received != s.ids && id in s.results
    ensures DialInv(CollectStep(s, id).value)
  {
    var s2 := CollectStep(s, id).value;
    var c := Conn(id, if s.results[id].Some? then s.results[id].value else s.retries + 1);
    assert ResultOk(s, id) && CallerOk(s, id);
    assert PlaceOk(s, c) && AttemptOk(s, c) && CallerOk(s, c.id) && ConnOk(s, c);
    if s.results[id].Some? {} else {}
    if s.main.Receive? {} else {}
    CollectorRule(s, s2, c);
    forall d ensures PlaceOk(s2, d) { assert PlaceOk(s, d); }
    forall j ensures ResultOk(s2, j) { assert ResultOk(s, j); }
    forall d ensures ConnOk(s2, d) { assert ConnOk(s, d); }
  }

  lemma HaveKeeps(s: State, id: nat)
    requires DialInv(s) && s.main.Have?
    ensures DialInv(CollectStep(s, id).value)
  {
    var s2 := CollectStep(s, id).value;
    var c := Conn(s.main.id, if s.main.res.Some? then s.main.res.value else s.retries + 1);
    assert PlaceOk(s, c) && AttemptOk(s, c) && CallerOk(s, c.id) && ConnOk(s, c);
    if s.cancelled {} else if s.main.res.None? {} else {}
    CollectorRule(s, s2, c);
    forall d ensures PlaceOk(s2, d) { assert PlaceOk(s, d); }
    forall j ensures ResultOk(s2, j) { assert ResultOk(s, j); }
    forall d ensures ConnOk(s2, d) { assert ConnOk(s, d); }
  }

  lemma CollectStepKeeps(s: State, id: nat)
    requires DialInv(s) && CollectStep(s, id).Some?
    ensures DialInv(CollectStep(s, id).value)
  {
    if s.main.Have? {
      HaveKeeps(s, id);
    } else if s.received != s.ids {
      TakeKeeps(s, id);
    } else {
      var s2 := CollectStep(s, id).value;
      if s.main.Receive? {} else {}
      forall d ensures PlaceOk(s2, d) { assert PlaceOk(s, d) && ConnOk(s, d); }
      forall d ensures AttemptOk(s2, d) { assert AttemptOk(s, d); }
      forall j ensures CallerOk(s2, j) { assert CallerOk(s, j); }
      forall j ensures ResultOk(s2, j) { assert ResultOk(s, j); }
      forall d ensures ConnOk(s2, d) { assert ConnOk(s, d); }
    }
  }

  lemma CloseStepKeeps(s: State, c: Conn)
    requires DialInv(s) && CloseStep(s, c).Some?
    ensures DialInv(CloseStep(s, c).value)
  {
    var s2 := CloseStep(s, c).value;
    assert ConnOk(s, c) && PlaceOk(s, c) && AttemptOk(s, c);
    if s.main.left == {} {} else {}
    forall d ensures PlaceOk(s2, d) { assert PlaceOk(s, d); }
    forall d ensures AttemptOk(s2, d) { assert AttemptOk(s, d); }
    forall j ensures CallerOk(s2, j) { assert CallerOk(s, j); }
    forall j ensures ResultOk(s2, j) { assert ResultOk(s, j); }
    forall d ensures ConnOk(s2, d) { assert ConnOk(s, d); }
  }

  lemma StepKeeps(s: State, a: Action)
    requires DialInv(s) && Step(s, a).Some?
    ensures DialInv(Step(s, a).value)
  {
    match a
    case Cancel => CancelKeeps(s);
    case Calls(id, timer) => CallerStepKeeps(s, id, timer);
    case Collects(id) => CollectStepKeeps(s, id);
    case Closes(c) => CloseStepKeeps(s, c);
    case _ => DialStepKeeps(s, a);
  }

  lemma CancelKeeps(s: State)
    requires DialInv(s)
    ensures DialInv(s.(cancelled := true))
  {
    var s2 := s.(cancelled := true);
    forall d ensures PlaceOk(s2, d) { assert PlaceOk(s, d); }
    forall d ensures AttemptOk(s2, d) { assert AttemptOk(s, d); }
    forall j ensures CallerOk(s2, j) { assert CallerOk(s, j); }
    forall j ensures ResultOk(s2, j) { assert ResultOk(s, j); }
    forall d ensures ConnOk(s2, d) { assert ConnOk(s, d); }
  }

  lemma {:induction false} RunKeeps(r: seq<State>, acts: seq<Action>, n: nat)
    requires IsRun(r, acts) && n < |r| && !r[0].buffered
    ensures DialInv(r[n])
  {
    if n > 0 {
      RunKeeps(r, acts, n - 1);
      StepOf(r, acts, n - 1);
      StepKeeps(r[n - 1], acts[n - 1]);
    }
  }

  // ---------------------------------------------------------------- whole runs

  lemma StepStaysClosed(s: State, a: Action)
    requires Step(s, a).Some?
    ensures s.closed <= Step(s, a).value.closed
  {
    match a {
      case Calls(id, timer) =>
        match s.callers[id] {
          case Check(_) => if s.cancelled {} else {}
          case Post(res) => if res.Some? {} else {}
          case _ =>
        }
      case Collects(id) =>
        match s.main {
          case Receive => if s.received == s.ids {} else {}
          case Have(_, res) => if s.cancelled {} else if res.None? {} else {}
          case Drain => if s.received == s.ids {} else {}
        }
      case Closes(c) => if s.main.left == {} {} else {}
      case Cancel =>
      case Expires(_) =>
      case Dialed(_, _) =>
      case Sends(_) => if s.buffered {} else {}
      case Takes(_) =>
      case Leaves(_) =>
    }
  }

  /** A closed connection stays closed. */
  lemma {:induction false} ClosedForGood(r: seq<State>, acts: seq<Action>, m: nat, n: nat)
    requires IsRun(r, acts) && m <= n < |r|
    ensures r[m].closed <= r[n].closed
    decreases n
  {
    if m < n {
      ClosedForGood(r, acts, m, n - 1);
      StepOf(r, acts, n - 1);
      StepStaysClosed(r[n - 1], acts[n - 1]);
    }
  }

  /** A connection that was closed at any time stays closed and is never one of the returned worker's. */
  lemma NeverBoth(r: seq<State>, acts: seq<Action>, m: nat, n: nat, c: Conn)
    requires IsRun(r, acts) && m <= n < |r| && !r[0].buffered && c in r[m].closed
    ensures c in r[n].closed && (r[n].main.Returned? ==> c !in r[n].conns)
    ensures c in r[n].conns ==> r[n].main.Closing? || r[n].main.Aborted?
  {
    ClosedForGood(r, acts, m, n);
    RunKeeps(r, acts, n);
    assert PlaceOk(r[n], c) && ConnOk(r[n], c);
  }

  /** The collector has returned, and no dial goroutine stands at its select. */
  ghost predicate Settled(s: State) {
    (s.main.Returned? || s.main.Aborted?) && forall c | c in s.attempts :: !s.attempts[c].dial.Ready?
  }

  /** In the end every dialed connection is closed, or in the returned worker's connections, and not both. */
  lemma NeverNeither(r: seq<State>, acts: seq<Action>, n: nat, c: Conn)
    requires IsRun(r, acts) && n < |r| && !r[0].buffered && c in r[n].place && Settled(r[n])
    ensures c in r[n].closed <==> !(r[n].main.Returned? && c in r[n].conns)
  {
    RunKeeps(r, acts, n);
    assert PlaceOk(r[n], c) && AttemptOk(r[n], c) && CallerOk(r[n], c.id);
    assert ResultOk(r[n], c.id) && ConnOk(r[n], c);
  }

  /** A dial goroutine at its select is never stuck: its caller still waits for it, or its context is done. */
  lemma SelectIsNeverStuck(r: seq<State>, acts: seq<Action>, n: nat, c: Conn)
    requires IsRun(r, acts) && n < |r| && !r[0].buffered && c in r[n].attempts && r[n].attempts[c].dial.Ready?
    ensures Step(r[n], Sends(c)).Some? || Step(r[n], Leaves(c)).Some?
  {
    RunKeeps(r, acts, n);
    assert AttemptOk(r[n], c);
  }

  // ---------------------------------------------------------------- with room in the channel

  ghost predicate Reach(s: State) {
    exists r, acts :: IsRun(r, acts) && r[|acts|] == s
  }

  lemma ReachNext(s: State, a: Action)
    requires Reach(s) && Step(s, a).Some?
    ensures Reach(Step(s, a).value)
  {
    var r, acts :| IsRun(r, acts) && r[|acts|] == s;
    var r2, acts2 := r + [Step(s, a).value], acts + [a];
    forall i | 0 <= i < |acts2| ensures Step(r2[i], acts2[i]) == Some(r2[i + 1]) {
      if i < |acts| { StepOf(r, acts, i); }
    }
    assert IsRun(r2, acts2) && r2[|acts2|] == Step(s, a).value;
  }

  const LONE := Conn(1, 0)

  /** One id, no retries, a buffered channel: what the steps below change. */
  function Lone(t: Option<Attempt>, caller: Caller, results: map<nat, Option<nat>>, received: set<nat>, main: Main,
                place: Option<Place>): State {
    State({1}, 0, true, false, if t.Some? then map[LONE := t.value] else map[], map[1 := caller], results, received,
          main, {}, {},
          if place.Some? then map[LONE := place.value] else map[])
  }

  lemma Moves(s: State, a: Action, s2: State)
    requires Reach(s) && Step(s, a).Some?
    requires var x := Step(s, a).value;
             && x.ids == s2.ids && x.retries == s2.retries && x.buffered == s2.buffered && x.cancelled == s2.cancelled
             && x.attempts == s2.attempts && x.callers == s2.callers && x.results == s2.results
             && x.received == s2.received
             && x.main == s2.main && x.conns == s2.conns && x.closed == s2.closed && x.place == s2.place
    ensures Reach(s2)
  {
    ReachNext(s, a);
    assert Step(s, a).value == s2;
  }

  lemma Starts()
    ensures Reach(Lone(Some(Attempt(Dialing, None, false, false)), Waiting(0), map[], {}, Receive, None))
  {
    var s := Lone(None, Check(0), map[], {}, Receive, None);
    var none: seq<Action> := [];
    assert s.callers == map id | id in s.ids :: Check(0);
    assert IsRun([s], none) && [s][|none|] == s;
    Moves(s, Calls(1, true), Lone(Some(Attempt(Dialing, None, false, false)), Waiting(0), map[], {}, Receive, None));
  }

  /** The caller gives up on its attempt before the dial is done. */
  lemma GivesUp()
    ensures Reach(Lone(Some(Attempt(Dialing, None, true, true)), Failed(0), map[], {}, Receive, None))
  {
    Starts();
    Moves(Lone(Some(Attempt(Dialing, None, false, false)), Waiting(0), map[], {}, Receive, None), Expires(LONE),
          Lone(Some(Attempt(Dialing, None, true, false)), Waiting(0), map[], {}, Receive, None));
    Moves(Lone(Some(Attempt(Dialing, None, true, false)), Waiting(0), map[], {}, Receive, None), Calls(1, true),
          Lone(Some(Attempt(Dialing, None, true, true)), Failed(0), map[], {}, Receive, None));
  }

  /** The dial succeeds then, and its result goes into the channel. */
  lemma SendsAnyway()
    ensures Reach(Lone(Some(Attempt(Left, Some(true), true, true)), Failed(0), map[], {}, Receive, Some(InBuffer)))
  {
    GivesUp();
    Moves(Lone(Some(Attempt(Dialing, None, true, true)), Failed(0), map[], {}, Receive, None), Dialed(LONE, true),
          Lone(Some(Attempt(Ready(true), None, true, true)), Failed(0), map[], {}, Receive, Some(AtDial)));
    Moves(Lone(Some(Attempt(Ready(true), None, true, true)), Failed(0), map[], {}, Receive, Some(AtDial)), Sends(LONE),
          Lone(Some(Attempt(Left, Some(true), true, true)), Failed(0), map[], {}, Receive, Some(InBuffer)));
  }

  lemma CallerFinishes()
    ensures Reach(Lone(Some(Attempt(Left, Some(true), true, true)), Finished, map[1 := None], {}, Receive,
                       Some(InBuffer)))
  {
    SendsAnyway();
    Moves(Lone(Some(Attempt(Left, Some(true), true, true)), Failed(0), map[], {}, Receive, Some(InBuffer)),
          Calls(1, true),
          Lone(Some(Attempt(Left, Some(true), true, true)), Post(None), map[], {}, Receive, Some(InBuffer)));
    Moves(Lone(Some(Attempt(Left, Some(true), true, true)), Post(None), map[], {}, Receive, Some(InBuffer)),
          Calls(1, true),
          Lone(Some(Attempt(Left, Some(true), true, true)), Finished, map[1 := None], {}, Receive, Some(InBuffer)));
  }

  /** With room for one result in dialBrokerOnce's channel a run ends with a connection that nobody will close. */
  lemma BufferedChannelLeaks() returns (s: State)
    ensures Reach(s) && s.buffered && Settled(s) && s.main.Returned? && s.callers == map[1 := Finished]
    ensures LONE in s.place && s.place[LONE] == InBuffer && LONE !in s.conns && LONE !in s.closed
  {
    CallerFinishes();
    var t := Some(Attempt(Left, Some(true), true, true));
    var empty: map<nat, Option<nat>> := map[];
    assert map[1 := None] - {1} == empty;
    Moves(Lone(t, Finished, map[1 := None], {}, Receive, Some(InBuffer)), Collects(1),
          Lone(t, Finished, empty, {1}, Have(1, None), Some(InBuffer)));
    Moves(Lone(t, Finished, empty, {1}, Have(1, None), Some(InBuffer)), Collects(1),
          Lone(t, Finished, empty, {1}, Receive, Some(InBuffer)));
    s := Lone(t, Finished, empty, {1}, Returned, Some(InBuffer));
    Moves(Lone(t, Finished, empty, {1}, Receive, Some(InBuffer)), Collects(1), s);
  }
}
