/**
  * The pool's CallStream retry loop: a request runs over a script of worker
  * attempts, and the frames that reach the client are appended to a stream.
  */
module CallStream {
  import opened Common

  /** An error with the two verdicts the pool's classifiers give about it. */
  datatype Error = Error(retryable: bool, cancellation: bool, text: string)

  /** A metadata payload that decodes, or one that is forwarded as it is; the phase is read separately. */
  datatype Meta =
    | Meta(outcome: bool, attempt: int, body: string)
    | Opaque(raw: string, outcome: bool)

  datatype Kind = Partial(data: string) | Final(data: string) | Failed(err: Error) | Heartbeat | Metadata(meta: Meta)

  datatype Frame = Frame(kind: Kind, reset: bool)

  /** What one attempt meets: no worker, a worker that refuses the call, or a stream that then closes. */
  datatype Attempt =
    | NoWorker(err: Error)
    | Refused(err: Error, hung: bool)
    | Opened(frames: seq<Frame>)

  datatype PoolError = GaveUp(err: Error, cancelled: bool) | Unretryable(err: Error) | Exhausted(last: Option<Error>)

  /** A frame on the client's channel; attempt is history, the client sees only the frame. */
  datatype Sent = FromWorker(attempt: nat, frame: Frame) | FromPool(error: PoolError)

  datatype Config = Config(maxRetries: int, disableStreamRetries: bool, needsPartials: bool)

  /** When the caller cancels, in observations of its context, and which arm a select takes once it has. */
  datatype Env = Env(cancelAt: Option<nat>, pick: nat -> bool)

  predicate Suppressed(cfg: Config) {
    cfg.disableStreamRetries && cfg.needsPartials
  }

  function Limit(cfg: Config): int {
    if Suppressed(cfg) then 0 else cfg.maxRetries
  }

  predicate Cancelled(env: Env, tick: nat) {
    env.cancelAt.Some? && env.cancelAt.value <= tick
  }

  predicate DoneWins(env: Env, tick: nat) {
    Cancelled(env, tick) && env.pick(tick)
  }

  predicate IsOutcome(m: Meta) {
    m.outcome && (m.Opaque? ==> m.raw != "")
  }

  predicate Planned(f: Frame) {
    f.kind.Metadata? && !IsOutcome(f.kind.meta)
  }

  predicate Ends(f: Frame) {
    f.kind.Final? || f.kind.Failed?
  }

  /** The pool's attempt number on a metadata payload that can be rewritten. */
  function Stamp(f: Frame, attempt: nat): Frame {
    if f.kind.Metadata? && f.kind.meta.Meta? then f.(kind := Metadata(f.kind.meta.(attempt := attempt))) else f
  }

  function Mark(f: Frame, pending: bool): Frame {
    if pending && !Planned(f) then f.(reset := true) else f
  }

  // ---------------------------------------------------------------- the stream of an uncancelled request

  /** The stream from the start of an attempt on. */
  function From(script: nat -> Attempt, cfg: Config, attempt: nat, sentAny: bool, last: Option<Error>): seq<Sent>
    decreases Limit(cfg) - attempt + 1, 1, 0
  {
    if attempt > Limit(cfg) then [FromPool(Exhausted(last))]
    else match script(attempt)
         case NoWorker(e) => [FromPool(GaveUp(e, false))]
         case Refused(e, hung) =>
           if e.retryable || hung then From(script, cfg, attempt + 1, sentAny, Some(e)) else [FromPool(Unretryable(e))]
         case Opened(frames) => Frames(script, cfg, frames, attempt, sentAny && !Suppressed(cfg), sentAny, last)
  }

  /** The stream from the remaining frames of an attempt on. */
  function Frames(script: nat -> Attempt, cfg: Config, frames: seq<Frame>, attempt: nat, pending: bool, sentAny: bool,
                  last: Option<Error>): seq<Sent>
    requires attempt <= Limit(cfg)
    decreases Limit(cfg) - attempt + 1, 0, |frames|
  {
    if frames == [] then From(script, cfg, attempt + 1, sentAny, last)
    else
      var f := Stamp(frames[0], attempt);
      if f.kind.Heartbeat? then Frames(script, cfg, frames[1..], attempt, pending, sentAny, last)
      else if f.kind.Failed? && f.kind.err.retryable then From(script, cfg, attempt + 1, sentAny, Some(f.kind.err))
      else if Ends(f) then [FromWorker(attempt, Mark(f, pending))]
      else [FromWorker(attempt, Mark(f, pending))]
           + Frames(script, cfg, frames[1..], attempt, pending && Planned(f), sentAny || !Planned(f), last)
  }

  function Stream(script: nat -> Attempt, cfg: Config): seq<Sent> {
    From(script, cfg, 0, false, None)
  }

  /** The pool's error for a missing worker, marked as found under a cancelled context. */
  predicate Cancels(x: Sent, y: Sent) {
    x.FromPool? && y.FromPool? && x.error.GaveUp? && y.error == x.error.(cancelled := false)
  }

  /** Cut short anywhere; an error for a missing worker may be marked as cancelled. */
  ghost predicate CutOf(out: seq<Sent>, full: seq<Sent>) {
    |out| <= |full| && forall i | 0 <= i < |out| :: out[i] == full[i] || Cancels(out[i], full[i])
  }

  // ---------------------------------------------------------------- the stream of a request that may be cancelled

  /** What a run sends from the start of an attempt on; tick counts the observations of the caller's context. */
  function RunFrom(script: nat -> Attempt, cfg: Config, env: Env, attempt: nat, sentAny: bool, last: Option<Error>,
                   tick: nat): seq<Sent>
    decreases Limit(cfg) - attempt + 1, 1, 0
  {
    if attempt > Limit(cfg) then if DoneWins(env, tick) then [] else [FromPool(Exhausted(last))]
    else match script(attempt)
         case NoWorker(e) =>
           if DoneWins(env, tick + 1) then [] else [FromPool(GaveUp(e, Cancelled(env, tick)))]
         case Refused(e, hung) =>
           if Cancelled(env, tick) then []
           else if e.retryable || hung then RunFrom(script, cfg, env, attempt + 1, sentAny, Some(e), tick + 1)
           else if DoneWins(env, tick + 1) then []
           else [FromPool(Unretryable(e))]
         case Opened(frames) =>
           RunFrames(script, cfg, env, frames, attempt, sentAny && !Suppressed(cfg), sentAny, last, tick)
  }

  /** What a run sends from the remaining frames of an attempt on. */
  function RunFrames(script: nat -> Attempt, cfg: Config, env: Env, frames: seq<Frame>, attempt: nat, pending: bool,
                     sentAny: bool, last: Option<Error>, tick: nat): seq<Sent>
    requires attempt <= Limit(cfg)
    decreases Limit(cfg) - attempt + 1, 0, |frames|
  {
    if frames == [] then RunRetry(script, cfg, env, attempt, sentAny, last, tick)
    else if DoneWins(env, tick) then []
    else
      var f := Stamp(frames[0], attempt);
      if f.kind.Heartbeat? then RunFrames(script, cfg, env, frames[1..], attempt, pending, sentAny, last, tick + 1)
      else if f.kind.Failed? && Cancelled(env, tick + 1) && f.kind.err.cancellation then []
      else if f.kind.Failed? && f.kind.err.retryable then
        RunRetry(script, cfg, env, attempt, sentAny, Some(f.kind.err), tick + 2)
      else if DoneWins(env, tick + 2) then []
      else if Ends(f) then [FromWorker(attempt, Mark(f, pending))]
      else [FromWorker(attempt, Mark(f, pending))]
           + RunFrames(script, cfg, env, frames[1..], attempt, pending && Planned(f), sentAny || !Planned(f), last,
                       tick + 3)
  }

  /** What a run sends once an attempt calls for another. */
  function RunRetry(script: nat -> Attempt, cfg: Config, env: Env, attempt: nat, sentAny: bool, last: Option<Error>,
                    tick: nat): seq<Sent>
    requires attempt <= Limit(cfg)
    decreases Limit(cfg) - attempt, 2, 0
  {
    if Cancelled(env, tick) then [] else RunFrom(script, cfg, env, attempt + 1, sentAny, last, tick + 1)
  }

  /** Everything a run puts on the channel; without a first worker there is no channel. */
  function Run(script: nat -> Attempt, cfg: Config, env: Env): seq<Sent> {
    if script(0).NoWorker? then [] else RunFrom(script, cfg, env, 0, false, None, 0)
  }

  lemma CutAfter(x: Sent, out: seq<Sent>, full: seq<Sent>)
    requires CutOf(out, full)
    ensures CutOf([x] + out, [x] + full)
  {
    forall i | 0 <= i < |[x] + out|
      ensures ([x] + out)[i] == ([x] + full)[i] || Cancels(([x] + out)[i], ([x] + full)[i])
    {
      if i > 0 { assert ([x] + out)[i] == out[i - 1] && ([x] + full)[i] == full[i - 1]; }
    }
  }

  lemma {:induction false} RunFromIsCut(script: nat -> Attempt, cfg: Config, env: Env, attempt: nat,
                                        sentAny: bool, last: Option<Error>, tick: nat)
    ensures CutOf(RunFrom(script, cfg, env, attempt, sentAny, last, tick), From(script, cfg, attempt, sentAny, last))
    ensures env.cancelAt.None? ==>
              RunFrom(script, cfg, env, attempt, sentAny, last, tick) == From(script, cfg, attempt, sentAny, last)
    decreases Limit(cfg) - attempt + 1, 1, 0
  {
    if attempt <= Limit(cfg) {
      match script(attempt)
      case NoWorker(e) =>
      case Refused(e, hung) =>
        if e.retryable || hung { RunFromIsCut(script, cfg, env, attempt + 1, sentAny, Some(e), tick + 1); }
      case Opened(frames) =>
        RunFramesIsCut(script, cfg, env, frames, attempt, sentAny && !Suppressed(cfg), sentAny, last, tick);
    }
  }

  lemma {:induction false} RunFramesIsCut(script: nat -> Attempt, cfg: Config, env: Env, frames: seq<Frame>,
                                          attempt: nat, pending: bool, sentAny: bool, last: Option<Error>, tick: nat)
    requires attempt <= Limit(cfg)
    ensures var out := RunFrames(script, cfg, env, frames, attempt, pending, sentAny, last, tick);
            var full := Frames(script, cfg, frames, attempt, pending, sentAny, last);
            CutOf(out, full) && (env.cancelAt.None? ==> out == full)
    decreases Limit(cfg) - attempt + 1, 0, |frames|
  {
    if frames == [] {
      RunFromIsCut(script, cfg, env, attempt + 1, sentAny, last, tick + 1);
    } else {
      var f := Stamp(frames[0], attempt);
      if f.kind.Heartbeat? {
        RunFramesIsCut(script, cfg, env, frames[1..], attempt, pending, sentAny, last, tick + 1);
      } else if f.kind.Failed? && f.kind.err.retryable {
        RunFromIsCut(script, cfg, env, attempt + 1, sentAny, Some(f.kind.err), tick + 3);
      } else if !Ends(f) {
        var sentAny2, pending2 := sentAny || !Planned(f), pending && Planned(f);
        RunFramesIsCut(script, cfg, env, frames[1..], attempt, pending2, sentAny2, last, tick + 3);
        CutAfter(FromWorker(attempt, Mark(f, pending)),
                 RunFrames(script, cfg, env, frames[1..], attempt, pending2, sentAny2, last, tick + 3),
                 Frames(script, cfg, frames[1..], attempt, pending2, sentAny2, last));
      }
    }
  }

  /** A run sends a cut of the stream, and all of it unless the caller cancels. */
  lemma RunIsCut(script: nat -> Attempt, cfg: Config, env: Env)
    ensures CutOf(Run(script, cfg, env), Stream(script, cfg))
    ensures env.cancelAt.None? && !script(0).NoWorker? ==> Run(script, cfg, env) == Stream(script, cfg)
  {
    RunFromIsCut(script, cfg, env, 0, false, None, 0);
  }

  // ---------------------------------------------------------------- which cuts runs make

  /** The caller cancels at the given observation, and every select notices. */
  function CancelAt(at: nat): Env {
    Env(Some(at), _ => true)
  }

  lemma {:induction false} CutFrom(script: nat -> Attempt, cfg: Config, attempt: nat,
                                   sentAny: bool, last: Option<Error>, tick: nat, k: nat) returns (at: nat)
    requires k <= |From(script, cfg, attempt, sentAny, last)|
    requires forall i | 0 <= i < k :: From(script, cfg, attempt, sentAny, last)[i].FromWorker?
    ensures at >= tick && RunFrom(script, cfg, CancelAt(at), attempt, sentAny, last, tick)
                          == From(script, cfg, attempt, sentAny, last)[..k]
    decreases Limit(cfg) - attempt + 1, 1, 0
  {
    at := tick;
    if attempt <= Limit(cfg) && script(attempt).Opened? {
      var pending := sentAny && !Suppressed(cfg);
      at := CutFrames(script, cfg, script(attempt).frames, attempt, pending, sentAny, last, tick, k);
    } else if k > 0 {
      assert From(script, cfg, attempt, sentAny, last)[0].FromWorker?;
      at := CutFrom(script, cfg, attempt + 1, sentAny, Some(script(attempt).err), tick + 1, k);
    }
  }

  lemma {:induction false} CutFrames(script: nat -> Attempt, cfg: Config, frames: seq<Frame>, attempt: nat,
                                     pending: bool, sentAny: bool, last: Option<Error>, tick: nat, k: nat)
    returns (at: nat)
    requires attempt <= Limit(cfg) && k <= |Frames(script, cfg, frames, attempt, pending, sentAny, last)|
    requires forall i | 0 <= i < k :: Frames(script, cfg, frames, attempt, pending, sentAny, last)[i].FromWorker?
    ensures at >= tick && RunFrames(script, cfg, CancelAt(at), frames, attempt, pending, sentAny, last, tick)
                          == Frames(script, cfg, frames, attempt, pending, sentAny, last)[..k]
    decreases Limit(cfg) - attempt + 1, 0, |frames|
  {
    at := tick;
    if k > 0 {
      if frames == [] {
        at := CutFrom(script, cfg, attempt + 1, sentAny, last, tick + 1, k);
      } else {
        var f := Stamp(frames[0], attempt);
        if f.kind.Heartbeat? {
          at := CutFrames(script, cfg, frames[1..], attempt, pending, sentAny, last, tick + 1, k);
        } else if f.kind.Failed? && f.kind.err.retryable {
          at := CutFrom(script, cfg, attempt + 1, sentAny, Some(f.kind.err), tick + 3, k);
        } else if Ends(f) {
          at := tick + 3;
        } else {
          var sentAny2, pending2 := sentAny || !Planned(f), pending && Planned(f);
          var rest := Frames(script, cfg, frames[1..], attempt, pending2, sentAny2, last);
          forall i | 0 <= i < k - 1 ensures rest[i].FromWorker? {
            assert rest[i] == Frames(script, cfg, frames, attempt, pending, sentAny, last)[i + 1];
          }
          at := CutFrames(script, cfg, frames[1..], attempt, pending2, sentAny2, last, tick + 3, k - 1);
          var x := FromWorker(attempt, Mark(f, pending));
          assert ([x] + rest)[..k] == [x] + rest[..k - 1];
        }
      }
    }
  }

  /** Every prefix of the stream made of workers' frames is what some cancelled run puts on the channel. */
  lemma CutIsARun(script: nat -> Attempt, cfg: Config, out: seq<Sent>) returns (at: nat)
    requires !script(0).NoWorker? && out <= Stream(script, cfg) && forall x | x in out :: x.FromWorker?
    ensures Run(script, cfg, CancelAt(at)) == out
  {
    forall i | 0 <= i < |out| ensures Stream(script, cfg)[i].FromWorker? { assert out[i] in out; }
    at := CutFrom(script, cfg, 0, false, None, 0, |out|);
  }

  // ---------------------------------------------------------------- the loop

  /** How the forwarding of one attempt's frames stops. */
  datatype Stop = Delivered | CallerGone | Retry(err: Option<Error>)

  lemma Regroup(out: seq<Sent>, x: Sent, rest: seq<Sent>)
    ensures out + ([x] + rest) == out + [x] + rest
  {
  }

  /** The inner loop: forwards the frames of one attempt. */
  method ForwardAttempt(ghost script: nat -> Attempt, cfg: Config, env: Env, frames: seq<Frame>, currentAttempt: nat,
                        sentBefore: bool, ghost last: Option<Error>, start: nat)
    returns (out: seq<Sent>, stop: Stop, sentAnyResults: bool, tick: nat)
    requires currentAttempt <= Limit(cfg)
    ensures var full := RunFrames(script, cfg, env, frames, currentAttempt, sentBefore && !Suppressed(cfg), sentBefore,
                                  last, start);
            && (!stop.Retry? ==> full == out)
            && (stop.Retry? ==> full == out + RunRetry(script, cfg, env, currentAttempt, sentAnyResults,
                                                       if stop.err.Some? then stop.err else last, tick))
    ensures stop.CallerGone? ==> env.cancelAt.Some?
    ensures stop.Delivered? ==> out != [] && out[|out| - 1].FromWorker? && Ends(out[|out| - 1].frame)
  {
    ghost var full := RunFrames(script, cfg, env, frames, currentAttempt, sentBefore && !Suppressed(cfg), sentBefore,
                                last, start);
    out, stop, sentAnyResults, tick := [], Retry(None), sentBefore, start;
    var needsReset, injectedReset := sentBefore, false;
    var i := 0;
    while i < |frames|
      invariant 0 <= i <= |frames| && stop == Retry(None)
      invariant full == out + RunFrames(script, cfg, env, frames[i..], currentAttempt,
                                        needsReset && !injectedReset && !Suppressed(cfg), sentAnyResults, last, tick)
    {
      if DoneWins(env, tick) { stop := CallerGone; return; }
      var result := frames[i];
      assert frames[i..][0] == result && frames[i..][1..] == frames[i + 1..];
      i := i + 1;
      if result.kind.Heartbeat? {
        tick := tick + 1;
        continue;
      }
      var isPlanned := Planned(result);
      result := Stamp(result, currentAttempt);
      if result.kind.Failed? && Cancelled(env, tick + 1) && result.kind.err.cancellation { stop := CallerGone; return; }
      if result.kind.Failed? && result.kind.err.retryable {
        stop, tick := Retry(Some(result.kind.err)), tick + 2;
        return;
      }
      if needsReset && !injectedReset && !isPlanned && !Suppressed(cfg) {
        result, injectedReset := result.(reset := true), true;
      }
      if DoneWins(env, tick + 2) { stop := CallerGone; return; }
      Regroup(out, FromWorker(currentAttempt, result),
              RunFrames(script, cfg, env, frames[i..], currentAttempt,
                        needsReset && !injectedReset && !Suppressed(cfg), sentAnyResults || !isPlanned, last,
                        tick + 3));
      out := out + [FromWorker(currentAttempt, result)];
      if !isPlanned { sentAnyResults := true; }
      if Ends(result) { stop := Delivered; return; }
      tick := tick + 3;
    }
  }

  /** The goroutine of CallStream, once it has a first worker: RunIsCut says what it sends is a cut of the stream. */
  method Forward(script: nat -> Attempt, cfg: Config, env: Env) returns (out: seq<Sent>, calls: nat)
    requires !script(0).NoWorker?
    ensures out == Run(script, cfg, env)
    ensures calls <= if Limit(cfg) < 0 then 0 else Limit(cfg) + 1
    ensures Suppressed(cfg) ==> calls == 1
  {
    out, calls := [], 0;
    var tick := 0;
    var sentAnyResults, lastRetryableErr := false, None;
    var currentAttempt, attempt := 0, 0;
    while attempt <= Limit(cfg)
      invariant calls == attempt == currentAttempt
      invariant attempt == 0 || attempt <= Limit(cfg) + 1
      invariant Run(script, cfg, env)
             == out + RunFrom(script, cfg, env, attempt, sentAnyResults, lastRetryableErr, tick)
    {
      if attempt > 0 && script(attempt).NoWorker? {
        if !DoneWins(env, tick + 1) { out := out + [FromPool(GaveUp(script(attempt).err, Cancelled(env, tick)))]; }
        return;
      }
      calls := calls + 1;
      if script(attempt).Refused? {
        var err := script(attempt).err;
        if Cancelled(env, tick) { return; }
        if !err.retryable && !script(attempt).hung {
          if !DoneWins(env, tick + 1) { out := out + [FromPool(Unretryable(err))]; }
          return;
        }
        lastRetryableErr := Some(err);
      } else {
        var sent, stop;
        sent, stop, sentAnyResults, tick :=
          ForwardAttempt(script, cfg, env, script(attempt).frames, currentAttempt, sentAnyResults, lastRetryableErr,
                         tick);
        out := out + sent;
        if !stop.Retry? { return; }
        if stop.err.Some? { lastRetryableErr := stop.err; }
        if Cancelled(env, tick) { return; }
      }
      tick := tick + 1;
      attempt, currentAttempt := attempt + 1, currentAttempt + 1;
    }
    if !DoneWins(env, tick) { out := out + [FromPool(Exhausted(lastRetryableErr))]; }
  }

  /** CallStream: the first worker is acquired before the stream exists, and its absence is a plain error. */
  method Open(script: nat -> Attempt, cfg: Config, env: Env) returns (r: Result<seq<Sent>, PoolError>, calls: nat)
    ensures r.Err? <==> script(0).NoWorker?
    ensures r.Ok? ==> r.value == Run(script, cfg, env)
    ensures r.Ok? ==> CutOf(r.value, Stream(script, cfg)) && (env.cancelAt.None? ==> r.value == Stream(script, cfg))
    ensures r.Ok? && Suppressed(cfg) ==> calls == 1
    ensures calls <= if Limit(cfg) < 0 then 0 else Limit(cfg) + 1
  {
    if script(0).NoWorker? { return Err(GaveUp(script(0).err, Cancelled(env, 0))), 0; }
    var out;
    out, calls := Forward(script, cfg, env);
    RunIsCut(script, cfg, env);
    r := Ok(out);
  }
}
