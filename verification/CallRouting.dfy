/**
  * The routing metadata Call hands back: the latest planned payload, and the
  * outcome that goes with it.
  */
module CallRouting {
  import opened Common
  import opened CallStream
  import opened Client = CallStreamClient

  const EMPTY := Opaque("", false)

  /** CallResult: final data when there is some, and the two metadata payloads. */
  datatype CallResult = CallResult(data: Option<string>, planned: Meta, outcome: Meta)

  datatype Failure = WorkerFailed(err: Error) | PoolFailed(poolErr: PoolError) | ContextDone | NoFinal

  predicate IsMeta(x: Sent) {
    x.FromWorker? && x.frame.kind.Metadata?
  }

  predicate IsOutcomeFrame(x: Sent) {
    IsMeta(x) && IsOutcome(x.frame.kind.meta)
  }

  /** The frames the two payloads come from. */
  datatype Routing = Routing(planned: Option<Sent>, outcome: Option<Sent>)

  /** The latest planned frame, and the latest outcome frame after it. */
  function RoutingOf(out: seq<Sent>): Routing {
    if out == [] then Routing(None, None)
    else
      var r, x := RoutingOf(out[..|out| - 1]), out[|out| - 1];
      if !IsMeta(x) then r
      else if IsOutcomeFrame(x) then r.(outcome := Some(x))
      else Routing(Some(x), None)
  }

  function Payload(x: Option<Sent>): Meta {
    if x.Some? && IsMeta(x.value) then x.value.frame.kind.meta else EMPTY
  }

  predicate IsEmpty(m: Meta) {
    m.Opaque? && m.raw == ""
  }

  function MetadataOnly(planned: Meta, outcome: Meta): Option<CallResult> {
    if IsEmpty(planned) && IsEmpty(outcome) then None else Some(CallResult(None, planned, outcome))
  }

  /** The index of the first terminal frame from i on, or the length. */
  function FirstTerminal(results: seq<Sent>, i: nat): (k: nat)
    requires i <= |results|
    ensures i <= k <= |results| && (k < |results| ==> IsTerminal(results[k]))
    ensures forall j | i <= j < k :: !IsTerminal(results[j])
    decreases |results| - i
  {
    if i == |results| || IsTerminal(results[i]) then i else FirstTerminal(results, i + 1)
  }

  /** Call: drains the stream up to its first terminal frame. */
  method Call(results: seq<Sent>, cancelled: bool) returns (r: Option<CallResult>, failure: Option<Failure>)
    ensures var routing := RoutingOf(results[..FirstTerminal(results, 0)]);
            && (r.Some? ==> r.value.planned == Payload(routing.planned) && r.value.outcome == Payload(routing.outcome))
            && (r.None? ==> IsEmpty(Payload(routing.planned)) && IsEmpty(Payload(routing.outcome)))
    ensures var k := FirstTerminal(results, 0);
            if k == |results| then failure == Some(if cancelled then ContextDone else NoFinal)
            else match results[k]
                 case FromPool(e) => failure == Some(PoolFailed(e))
                 case FromWorker(_, f) =>
                   if f.kind.Failed? then failure == Some(WorkerFailed(f.kind.err))
                   else failure.None? && r.Some? && r.value.data == Some(f.kind.data)
    ensures failure.Some? && r.Some? ==> r.value.data.None?
  {
    var plannedMetadata, outcomeMetadata := EMPTY, EMPTY;
    var i := 0;
    while i < |results|
      invariant 0 <= i <= |results| && FirstTerminal(results, 0) == FirstTerminal(results, i)
      invariant plannedMetadata == Payload(RoutingOf(results[..i]).planned)
      invariant outcomeMetadata == Payload(RoutingOf(results[..i]).outcome)
    {
      var result := results[i];
      assert results[..i + 1][..i] == results[..i] && results[..i + 1][i] == result;
      if result.FromPool? { return MetadataOnly(plannedMetadata, outcomeMetadata), Some(PoolFailed(result.error)); }
      match result.frame.kind {
        case Failed(err) => return MetadataOnly(plannedMetadata, outcomeMetadata), Some(WorkerFailed(err));
        case Final(data) => return Some(CallResult(Some(data), plannedMetadata, outcomeMetadata)), None;
        case Metadata(meta) =>
          if IsOutcome(meta) {
            outcomeMetadata := meta;
          } else {
            plannedMetadata, outcomeMetadata := meta, EMPTY;
          }
        case _ =>
      }
      i := i + 1;
    }
    assert results[..i] == results;
    r := MetadataOnly(plannedMetadata, outcomeMetadata);
    failure := Some(if cancelled then ContextDone else NoFinal);
  }

  // ---------------------------------------------------------------- attempt numbers

  lemma {:induction false} Ordered(out: seq<Sent>, i: nat, j: nat)
    requires Monotone(out) && i < j < |out| && out[i].FromWorker? && out[j].FromWorker?
    ensures out[i].attempt <= out[j].attempt
  {
    if j < |out| - 1 {
      Ordered(out[..|out| - 1], i, j);
    } else {
      assert out[..|out| - 1][i] in out[..|out| - 1];
    }
  }

  lemma {:induction false} Stamped(out: seq<Sent>, plain: bool, i: nat)
    requires Good(out, plain) && i < |out| && IsMeta(out[i]) && out[i].frame.kind.meta.Meta?
    ensures out[i].frame.kind.meta.attempt == out[i].attempt
  {
    if i < |out| - 1 { Stamped(out[..|out| - 1], plain, i); }
  }

  /** Metadata carries the attempt it came from, and attempt numbers never decrease along the stream. */
  lemma AttemptsNeverDecrease(script: nat -> Attempt, cfg: Config, out: seq<Sent>, i: nat, j: nat)
    requires Seen(script, cfg, out) && i <= j < |out|
    requires IsMeta(out[i]) && out[i].frame.kind.meta.Meta? && IsMeta(out[j]) && out[j].frame.kind.meta.Meta?
    ensures out[i].frame.kind.meta.attempt == out[i].attempt
    ensures out[i].frame.kind.meta.attempt <= out[j].frame.kind.meta.attempt
  {
    SeenIsGood(script, cfg, out, false);
    Stamped(out, false, i);
    Stamped(out, false, j);
    GoodIsMonotone(out, false);
    if i < j { Ordered(out, i, j); }
  }

  // ---------------------------------------------------------------- pairing

  predicate IsOutcomeMeta(f: Frame) {
    f.kind.Metadata? && IsOutcome(f.kind.meta)
  }

  /** Every outcome of the frames comes after a planned frame; seen says one has already been read. */
  predicate PlannedFirst(frames: seq<Frame>, seen: bool) {
    frames == [] || ((IsOutcomeMeta(frames[0]) ==> seen) && PlannedFirst(frames[1..], seen || Planned(frames[0])))
  }

  /** The frames of an attempt that the pool gets to see: up to the first that ends or retries it. */
  function Live(frames: seq<Frame>): seq<Frame> {
    if frames == [] || (frames[0].kind.Failed? && frames[0].kind.err.retryable) then []
    else if Ends(frames[0]) then [frames[0]]
    else [frames[0]] + Live(frames[1..])
  }

  /** The pool goes on to another attempt after these frames. */
  predicate RunsOut(frames: seq<Frame>) {
    || frames == []
    || (frames[0].kind.Failed? && frames[0].kind.err.retryable)
    || (!Ends(frames[0]) && RunsOut(frames[1..]))
  }

  predicate GoesOn(a: Attempt) {
    match a
    case NoWorker(_) => false
    case Refused(e, hung) => e.retryable || hung
    case Opened(frames) => RunsOut(frames)
  }

  /** The attempts an uncancelled request makes. */
  predicate Reached(script: nat -> Attempt, cfg: Config, a: nat) {
    a <= Limit(cfg) && (a == 0 || (Reached(script, cfg, a - 1) && GoesOn(script(a - 1))))
  }

  /** Each attempt that is reached plans before its outcome, as far as the pool reads it. */
  ghost predicate EachPlansFirst(script: nat -> Attempt, cfg: Config) {
    forall a: nat | Reached(script, cfg, a) && script(a).Opened? :: PlannedFirst(Live(script(a).frames), false)
  }

  /** The outcome Call would return now goes with the planned payload it would return. */
  ghost predicate SameAttempt(r: Routing) {
    r.outcome.Some? ==>
      r.planned.Some? && r.planned.value.FromWorker? && r.outcome.value.FromWorker?
      && r.planned.value.attempt == r.outcome.value.attempt
  }

  ghost predicate Paired(out: seq<Sent>) {
    SameAttempt(RoutingOf(out)) && (out == [] || Paired(out[..|out| - 1]))
  }

  /** A planned frame of this attempt is the latest one, if one has been read. */
  ghost predicate PlannedNow(out: seq<Sent>, attempt: nat, seen: bool) {
    seen ==>
      && RoutingOf(out).planned.Some?
      && RoutingOf(out).planned.value.FromWorker?
      && RoutingOf(out).planned.value.attempt == attempt
  }

  lemma {:induction false} PairSnoc(pre: seq<Sent>, x: Sent)
    requires Paired(pre)
    requires IsOutcomeFrame(x) ==> PlannedNow(pre, x.attempt, true)
    ensures Paired(pre + [x])
    ensures RoutingOf(pre + [x]).planned == if IsMeta(x) && !IsOutcomeFrame(x) then Some(x) else RoutingOf(pre).planned
  {
    assert (pre + [x])[..|pre + [x]| - 1] == pre;
  }

  lemma {:induction false} FromIsPaired(script: nat -> Attempt, cfg: Config, attempt: nat,
                                        sentAny: bool, last: Option<Error>, pre: seq<Sent>)
    requires Paired(pre) && EachPlansFirst(script, cfg) && (attempt <= Limit(cfg) ==> Reached(script, cfg, attempt))
    ensures Paired(pre + From(script, cfg, attempt, sentAny, last))
    decreases Limit(cfg) - attempt + 1, 1, 0
  {
    if attempt > Limit(cfg) {
      PairSnoc(pre, FromPool(Exhausted(last)));
    } else {
      match script(attempt)
      case NoWorker(e) => PairSnoc(pre, FromPool(GaveUp(e, false)));
      case Refused(e, hung) =>
        if e.retryable || hung {
          FromIsPaired(script, cfg, attempt + 1, sentAny, Some(e), pre);
        } else {
          PairSnoc(pre, FromPool(Unretryable(e)));
        }
      case Opened(frames) =>
        FramesArePaired(script, cfg, frames, attempt, sentAny && !Suppressed(cfg), sentAny, last, pre, false);
    }
  }

  lemma {:induction false} ForwardedPairs(pre: seq<Sent>, f: Frame, attempt: nat, pending: bool, seen: bool)
    requires Paired(pre) && PlannedNow(pre, attempt, seen) && (IsOutcomeMeta(f) ==> seen)
    ensures var x := FromWorker(attempt, Mark(Stamp(f, attempt), pending));
            Paired(pre + [x]) && PlannedNow(pre + [x], attempt, seen || Planned(f))
  {
    PairSnoc(pre, FromWorker(attempt, Mark(Stamp(f, attempt), pending)));
  }

  lemma {:induction false} LiveStep(frames: seq<Frame>)
    requires frames != [] && !Ends(frames[0])
    ensures Live(frames)[0] == frames[0] && Live(frames)[1..] == Live(frames[1..])
  {
  }

  lemma HeadPlans(frames: seq<Frame>, seen: bool)
    requires frames != [] && !(frames[0].kind.Failed? && frames[0].kind.err.retryable)
             && PlannedFirst(Live(frames), seen)
    ensures IsOutcomeMeta(frames[0]) ==> seen
    ensures !Ends(frames[0]) ==> PlannedFirst(Live(frames[1..]), seen || Planned(frames[0]))
  {
    if !Ends(frames[0]) { LiveStep(frames); }
  }

  lemma {:induction false} FramesArePaired(script: nat -> Attempt, cfg: Config, frames: seq<Frame>,
                                           attempt: nat, pending: bool, sentAny: bool, last: Option<Error>,
                                           pre: seq<Sent>, seen: bool)
    requires Reached(script, cfg, attempt) && script(attempt).Opened? && Paired(pre) && EachPlansFirst(script, cfg)
    requires RunsOut(frames) ==> RunsOut(script(attempt).frames)
    requires PlannedFirst(Live(frames), seen) && PlannedNow(pre, attempt, seen)
    ensures Paired(pre + Frames(script, cfg, frames, attempt, pending, sentAny, last))
    decreases Limit(cfg) - attempt + 1, 0, |frames|
  {
    if frames == [] {
      FromIsPaired(script, cfg, attempt + 1, sentAny, last, pre);
    } else {
      var f := Stamp(frames[0], attempt);
      if !(f.kind.Failed? && f.kind.err.retryable) { HeadPlans(frames, seen); }
      if f.kind.Heartbeat? {
        FramesArePaired(script, cfg, frames[1..], attempt, pending, sentAny, last, pre, seen);
      } else if f.kind.Failed? && f.kind.err.retryable {
        FromIsPaired(script, cfg, attempt + 1, sentAny, Some(f.kind.err), pre);
      } else {
        var x := FromWorker(attempt, Mark(f, pending));
        ForwardedPairs(pre, frames[0], attempt, pending, seen);
        if !Ends(f) {
          FramesArePaired(script, cfg, frames[1..], attempt,
                          pending && Planned(f), sentAny || !Planned(f), last, pre + [x], seen || Planned(f));
          Regroup(pre, x,
                  Frames(script, cfg, frames[1..], attempt, pending && Planned(f), sentAny || !Planned(f), last));
        }
      }
    }
  }

  lemma {:induction false} CutIsPaired(out: seq<Sent>, full: seq<Sent>, plain: bool)
    requires CutOf(out, full) && Good(full, plain) && Paired(full)
    ensures Paired(out)
    decreases |full|, |out|
  {
    if out == [] {
    } else if |full| > |out| {
      CutIsPaired(out, full[..|full| - 1], plain);
    } else {
      var before, mine := out[..|out| - 1], full[..|full| - 1];
      forall i | 0 <= i < |before| ensures before[i] == mine[i] { assert mine[i] in mine; }
      assert before == mine;
    }
  }

  /** The planned and outcome payloads that Call returns are of one attempt, on every tail. */
  lemma {:induction false} RoutingIsOneAttempt(script: nat -> Attempt, cfg: Config, out: seq<Sent>)
    requires Seen(script, cfg, out) && EachPlansFirst(script, cfg)
    ensures SameAttempt(RoutingOf(out[..FirstTerminal(out, 0)]))
  {
    FromIsPaired(script, cfg, 0, false, None, []);
    FromIsGood(script, cfg, 0, false, None, [], false);
    assert [] + Stream(script, cfg) == Stream(script, cfg);
    SeenIsCut(script, cfg, out);
    CutIsPaired(out[..FirstTerminal(out, 0)], Stream(script, cfg), false);
  }

  // ---------------------------------------------------------------- and only then

  /** Frames of one attempt that neither end it nor plan. */
  ghost predicate Unplanned(sent: seq<Sent>, attempt: nat) {
    forall x | x in sent :: x.FromWorker? && x.attempt == attempt && !Ends(x.frame) && !Planned(x.frame)
  }

  /** Frames of attempts up to one, none of which ends the stream. */
  ghost predicate Open(sent: seq<Sent>, attempt: int) {
    NoTerminal(sent) && UpTo(sent, attempt)
  }

  /** An attempt that runs out is forwarded whole, and the next one starts. */
  lemma {:induction false} FramesRunOut(script: nat -> Attempt, cfg: Config, frames: seq<Frame>,
                                        attempt: nat, pending: bool, sentAny: bool, last: Option<Error>)
    returns (sent: seq<Sent>, sentAny2: bool, last2: Option<Error>)
    requires attempt <= Limit(cfg) && RunsOut(frames)
    ensures Frames(script, cfg, frames, attempt, pending, sentAny, last)
         == sent + From(script, cfg, attempt + 1, sentAny2, last2)
    ensures Open(sent, attempt)
    decreases frames
  {
    sent, sentAny2, last2 := [], sentAny, last;
    if frames != [] {
      var f := Stamp(frames[0], attempt);
      if f.kind.Heartbeat? {
        sent, sentAny2, last2 := FramesRunOut(script, cfg, frames[1..], attempt, pending, sentAny, last);
      } else if f.kind.Failed? {
        last2 := Some(f.kind.err);
      } else {
        var rest;
        rest, sentAny2, last2 :=
          FramesRunOut(script, cfg, frames[1..], attempt, pending && Planned(f), sentAny || !Planned(f), last);
        sent := [FromWorker(attempt, Mark(f, pending))] + rest;
      }
    }
  }

  /** An attempt that is reached starts somewhere in the stream. */
  lemma {:induction false} ReachedStarts(script: nat -> Attempt, cfg: Config, a: nat)
    returns (pre: seq<Sent>, sentAny: bool, last: Option<Error>)
    requires Reached(script, cfg, a)
    ensures Stream(script, cfg) == pre + From(script, cfg, a, sentAny, last) && Open(pre, a - 1)
  {
    pre, sentAny, last := [], false, None;
    if a > 0 {
      pre, sentAny, last := ReachedStarts(script, cfg, a - 1);
      match script(a - 1) {
        case Refused(e, _) => last := Some(e);
        case Opened(frames) =>
          var sent, sentAny2, last2 :=
            FramesRunOut(script, cfg, frames, a - 1, sentAny && !Suppressed(cfg), sentAny, last);
          Assoc(pre, sent, From(script, cfg, a, sentAny2, last2));
          pre, sentAny, last := pre + sent, sentAny2, last2;
      }
    }
  }

  lemma Assoc(a: seq<Sent>, b: seq<Sent>, c: seq<Sent>)
    ensures a + (b + c) == a + b + c
  {
  }

  /** The first outcome that comes without a plan, and what the attempt sent before it. */
  lemma {:induction false} FirstUnplanned(script: nat -> Attempt, cfg: Config, frames: seq<Frame>,
                                          attempt: nat, pending: bool, sentAny: bool, last: Option<Error>)
    returns (mid: seq<Sent>, x: Sent)
    requires attempt <= Limit(cfg) && !PlannedFirst(Live(frames), false)
    ensures mid + [x] <= Frames(script, cfg, frames, attempt, pending, sentAny, last)
    ensures Unplanned(mid, attempt) && IsOutcomeFrame(x) && x.attempt == attempt
    decreases frames
  {
    var f := Stamp(frames[0], attempt);
    var sent := FromWorker(attempt, Mark(f, pending));
    if IsOutcomeMeta(frames[0]) {
      mid, x := [], sent;
    } else {
      LiveStep(frames);
      PlannedIsEnough(Live(frames[1..]));
      if f.kind.Heartbeat? {
        mid, x := FirstUnplanned(script, cfg, frames[1..], attempt, pending, sentAny, last);
      } else {
        mid, x := FirstUnplanned(script, cfg, frames[1..], attempt,
                                 pending && Planned(f), sentAny || !Planned(f), last);
        Assoc([sent], mid, [x]);
        mid := [sent] + mid;
      }
    }
  }

  lemma {:induction false} PlannedIsEnough(frames: seq<Frame>)
    ensures PlannedFirst(frames, true)
  {
    if frames != [] { PlannedIsEnough(frames[1..]); }
  }

  lemma {:induction false} PlanOfEarlier(pre: seq<Sent>, mid: seq<Sent>, attempt: nat)
    requires UpTo(pre, attempt - 1) && Unplanned(mid, attempt)
    ensures var p := RoutingOf(pre + mid).planned; p.Some? ==> p.value.FromWorker? && p.value.attempt < attempt
  {
    var out := pre + mid;
    if out != [] {
      var x := out[|out| - 1];
      if mid == [] {
        assert x in pre && out == pre;
        if !(IsMeta(x) && !IsOutcomeFrame(x)) {
          assert pre[..|pre| - 1] + [] == out[..|out| - 1];
          PlanOfEarlier(pre[..|pre| - 1], [], attempt);
        }
      } else {
        assert x in mid && out[..|out| - 1] == pre + mid[..|mid| - 1];
        PlanOfEarlier(pre, mid[..|mid| - 1], attempt);
      }
    }
  }

  lemma {:induction false} NoneEnds(out: seq<Sent>, i: nat)
    requires NoTerminal(out) && i <= |out|
    ensures FirstTerminal(out, i) == |out|
    decreases |out| - i
  {
    if i < |out| { NoneEnds(out, i + 1); }
  }

  lemma {:induction false} ReachedHasWorker(script: nat -> Attempt, cfg: Config, a: nat)
    requires Reached(script, cfg, a) && !script(a).NoWorker?
    ensures !script(0).NoWorker?
  {
    if a > 0 { ReachedHasWorker(script, cfg, a - 1); }
  }

  /** What Call returns when it drains a run. */
  ghost function Returned(script: nat -> Attempt, cfg: Config, env: Env): Routing {
    var out := Run(script, cfg, env);
    RoutingOf(out[..FirstTerminal(out, 0)])
  }

  /**
    * A reached attempt with an unplanned outcome: a run whose caller cancels right after it pairs that
    * outcome with an older plan, or none.
    */
  lemma UnplannedIsMispaired(script: nat -> Attempt, cfg: Config, a: nat) returns (env: Env)
    requires Reached(script, cfg, a) && script(a).Opened? && !PlannedFirst(Live(script(a).frames), false)
    ensures env.cancelAt.Some? && !SameAttempt(Returned(script, cfg, env))
  {
    var pre, sentAny, last := ReachedStarts(script, cfg, a);
    var mid, x := FirstUnplanned(script, cfg, script(a).frames, a, sentAny && !Suppressed(cfg), sentAny, last);
    var out := pre + mid + [x];
    Assoc(pre, mid, [x]);
    assert out <= Stream(script, cfg);
    NoneEnds(out, 0);
    PlanOfEarlier(pre, mid, a);
    assert out[..|out|] == out && out[..|out| - 1] == pre + mid;
    ReachedHasWorker(script, cfg, a);
    var at := CutIsARun(script, cfg, out);
    env := CancelAt(at);
  }

  /** What Call returns is of one attempt on every run, if and only if each attempt reached plans first. */
  lemma RoutingIsOneAttemptIff(script: nat -> Attempt, cfg: Config)
    ensures (forall env: Env :: SameAttempt(Returned(script, cfg, env))) <==> EachPlansFirst(script, cfg)
  {
    if EachPlansFirst(script, cfg) {
      forall env: Env ensures SameAttempt(Returned(script, cfg, env)) {
        assert Run(script, cfg, env) <= Run(script, cfg, env);
        RoutingIsOneAttempt(script, cfg, Run(script, cfg, env));
      }
    } else {
      var a: nat :| Reached(script, cfg, a) && script(a).Opened? && !PlannedFirst(Live(script(a).frames), false);
      var env := UnplannedIsMispaired(script, cfg, a);
    }
  }

  /**
    * Attempt 0 plans and closes without an outcome, attempt 1 gives an outcome without a plan: without any
    * cancellation Call returns the plan of the one and the outcome of the other.
    */
  method MispairedWithoutPlan() returns (r: Option<CallResult>, failure: Option<Failure>)
    ensures r == Some(CallResult(None, Meta(false, 0, "a"), Meta(true, 1, "b")))
    ensures failure == Some(PoolFailed(Exhausted(None)))
  {
    var plan, won := Frame(Metadata(Meta(false, 0, "a")), false), Frame(Metadata(Meta(true, 0, "b")), false);
    var script, cfg := (a: nat) => if a == 0 then Opened([plan]) else Opened([won]), Config(1, false, true);
    var stream, calls := CallStream.Open(script, cfg, Env(None, _ => false));
    ghost var first, second := FromWorker(0, plan), FromWorker(1, Stamp(won, 1));
    ghost var end := FromPool(Exhausted(None));
    assert [plan][1..] == [] && [won][1..] == [];
    assert From(script, cfg, 2, true, None) == [end];
    assert From(script, cfg, 1, false, None) == [second, end];
    assert Frames(script, cfg, [plan], 0, false, false, None) == [first] + From(script, cfg, 1, false, None);
    assert Stream(script, cfg) == [first, second, end];
    var out := stream.value;
    assert FirstTerminal(out, 2) == 2 && FirstTerminal(out, 1) == 2 && FirstTerminal(out, 0) == 2;
    assert out[..2] == [first, second] && [first, second][..1] == [first] && [first][..0] == [];
    assert RoutingOf([first]) == Routing(Some(first), None);
    r, failure := Call(out, false);
  }
}
