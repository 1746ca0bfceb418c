/**
  * Dialing the extra broker connections: for each id a goroutine that retries,
  * for each attempt a goroutine that dials, and the loop that collects results.
  */
module BrokerDial {
  import opened Common

  /** A connection is named by the attempt that dialed it. */
  datatype Conn = Conn(id: nat, attempt: nat)

  /** The goroutine inside dialBrokerOnce: dialing, at its select with the outcome, or gone. */
  datatype Dial = Dialing | Ready(ok: bool) | Left

  /** buffer is what a buffered channel would hold; ended is the deferred cancel of dialBrokerOnce. */
  datatype Attempt = Attempt(dial: Dial, buffer: Option<bool>, expired: bool, ended: bool)

  /** dialBrokerConnWithRetry and the goroutine around it. */
  datatype Caller =
    | Check(k: nat)
    | Waiting(k: nat)
    | Failed(k: nat)
    | Backoff(k: nat)
    | Post(res: Option<nat>)
    | Finished

  /** The collection loop of GRPCClient. */
  datatype Main = Receive | Have(id: nat, res: Option<nat>) | Drain | Closing(left: set<Conn>) | Returned | Aborted

  /** Where a dialed connection is; history. */
  datatype Place = AtDial | InBuffer | AtCaller | InResults | InHand | InConns | Closed

  /** buffered says that dialBrokerOnce's channel has room for one result; it has none in the program. */
  datatype State = State(ids: set<nat>, retries: nat, buffered: bool, cancelled: bool, attempts: map<Conn, Attempt>,
                         callers: map<nat, Caller>, results: map<nat, Option<nat>>, received: set<nat>, main: Main,
                         conns: set<Conn>, closed: set<Conn>, place: map<Conn, Place>)

  datatype Action =
    | Cancel
    | Expires(c: Conn)
    | Dialed(c: Conn, ok: bool)
    | Sends(c: Conn)
    | Takes(c: Conn)
    | Leaves(c: Conn)
    | Calls(id: nat, timer: bool)
    | Collects(id: nat)
    | Closes(c: Conn)

  predicate CtxDone(s: State, c: Conn)
    requires c in s.attempts
  {
    s.cancelled || s.attempts[c].expired || s.attempts[c].ended
  }

  function PlacedIf(place: map<Conn, Place>, c: Conn, ok: bool, p: Place): map<Conn, Place> {
    if ok then place[c := p] else place
  }

  function ClosedIf(closed: set<Conn>, c: Conn, ok: bool): set<Conn> {
    if ok then closed + {c} else closed
  }

  function After(k: nat, ok: bool): Caller {
    if ok then Post(Some(k)) else Failed(k)
  }

  /** The steps of one dial goroutine, and of its channel. */
  function DialStep(s: State, a: Action): Option<State>
    requires a.Expires? || a.Dialed? || a.Sends? || a.Takes? || a.Leaves?
  {
    var c := a.c;
    if c !in s.attempts || c.id !in s.callers then None
    else
      var t := s.attempts[c];
      var waiting := s.callers[c.id] == Waiting(c.attempt);
      match a
      case Expires(_) => Some(s.(attempts := s.attempts[c := t.(expired := true)]))
      case Dialed(_, ok) =>
        if !t.dial.Dialing? then None
        else Some(s.(attempts := s.attempts[c := t.(dial := Ready(ok))], place := PlacedIf(s.place, c, ok, AtDial)))
      case Sends(_) =>
        if !t.dial.Ready? then None
        else if s.buffered then
          Some(s.(attempts := s.attempts[c := t.(dial := Left, buffer := Some(t.dial.ok))],
               place := PlacedIf(s.place, c, t.dial.ok, InBuffer)))
        else if !waiting then None
        else Some(s.(attempts := s.attempts[c := t.(dial := Left, ended := true)],
                  callers := s.callers[c.id := After(c.attempt, t.dial.ok)],
                  place := PlacedIf(s.place, c, t.dial.ok, AtCaller)))
      case Takes(_) =>
        if !s.buffered || !waiting || t.buffer.None? then None
        else Some(s.(attempts := s.attempts[c := t.(buffer := None, ended := true)],
                  callers := s.callers[c.id := After(c.attempt, t.buffer.value)],
                  place := PlacedIf(s.place, c, t.buffer.value, AtCaller)))
      case Leaves(_) =>
        if !t.dial.Ready? || !CtxDone(s, c) then None
        else Some(s.(attempts := s.attempts[c := t.(dial := Left)], closed := ClosedIf(s.closed, c, t.dial.ok),
                  place := PlacedIf(s.place, c, t.dial.ok, Closed)))
  }

  /** timer resolves the select of the backoff when the context is done as well. */
  function CallerStep(s: State, id: nat, timer: bool): Option<State> {
    if id !in s.callers then None
    else match s.callers[id]
         case Check(k) =>
           if s.cancelled then Some(s.(callers := s.callers[id := Post(None)]))
           else Some(s.(callers := s.callers[id := Waiting(k)],
                     attempts := s.attempts[Conn(id, k) := Attempt(Dialing, None, false, false)]))
         case Waiting(k) =>
           var c := Conn(id, k);
           if c !in s.attempts || !CtxDone(s, c) then None
           else Some(s.(callers := s.callers[id := Failed(k)],
                     attempts := s.attempts[c := s.attempts[c].(ended := true)]))
         case Failed(k) =>
           Some(s.(callers := s.callers[id := if s.cancelled || k >= s.retries then Post(None) else Backoff(k)]))
         case Backoff(k) =>
           Some(s.(callers := s.callers[id := if s.cancelled && !timer then Post(None) else Check(k + 1)]))
         case Post(res) =>
           Some(s.(callers := s.callers[id := Finished], results := s.results[id := res],
                place := if res.Some? then s.place[Conn(id, res.value) := InResults] else s.place))
         case Finished => None
  }

  /** id is the sender whose result the loop receives next. */
  function CollectStep(s: State, id: nat): Option<State> {
    match s.main
    case Receive =>
      if s.received == s.ids then Some(s.(main := Returned))
      else if id !in s.results then None
      else
        var res := s.results[id];
        Some(s.(main := Have(id, res), received := s.received + {id}, results := s.results - {id},
             place := if res.Some? then s.place[Conn(id, res.value) := InHand] else s.place))
    case Have(j, res) =>
      if s.cancelled then
        Some(s.(main := Drain, closed := if res.Some? then s.closed + {Conn(j, res.value)} else s.closed,
             place := if res.Some? then s.place[Conn(j, res.value) := Closed] else s.place))
      else if res.None? then Some(s.(main := Receive))
      else Some(s.(main := Receive, conns := s.conns + {Conn(j, res.value)},
                place := s.place[Conn(j, res.value) := InConns]))
    case Drain =>
      if s.received == s.ids then Some(s.(main := Closing(s.conns)))
      else if id !in s.results then None
      else
        var res := s.results[id];
        Some(s.(received := s.received + {id}, results := s.results - {id},
             closed := if res.Some? then s.closed + {Conn(id, res.value)} else s.closed,
             place := if res.Some? then s.place[Conn(id, res.value) := Closed] else s.place))
    case _ => None
  }

  function CloseStep(s: State, c: Conn): Option<State> {
    if !s.main.Closing? then None
    else if s.main.left == {} then Some(s.(main := Aborted))
    else if c !in s.main.left then None
    else Some(s.(main := Closing(s.main.left - {c}), closed := s.closed + {c}, place := s.place[c := Closed]))
  }

  function Step(s: State, a: Action): Option<State> {
    match a
    case Cancel => Some(s.(cancelled := true))
    case Calls(id, timer) => CallerStep(s, id, timer)
    case Collects(id) => CollectStep(s, id)
    case Closes(c) => CloseStep(s, c)
    case _ => DialStep(s, a)
  }

  ghost predicate Init(s: State) {
    && s.callers == (map id | id in s.ids :: Check(0))
    && s.attempts == map[] && s.results == map[] && s.received == {} && s.main == Receive && s.conns == {}
    && s.closed == {}
    && s.place == map[]
  }

  ghost predicate IsRun(r: seq<State>, acts: seq<Action>) {
    && |r| == |acts| + 1 && Init(r[0])
    && forall i {:trigger acts[i]} | 0 <= i < |acts| :: Step(r[i], acts[i]) == Some(r[i + 1])
  }

  lemma StepOf(r: seq<State>, acts: seq<Action>, i: nat)
    requires IsRun(r, acts) && i < |acts|
    ensures Step(r[i], acts[i]) == Some(r[i + 1])
  {
    assert acts[i] == acts[i];
  }
}
