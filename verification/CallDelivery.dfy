/**
  * What an uncancelled request delivers, attempt by attempt: every frame the
  * pool reads of a reached attempt except heartbeats, in order, and how it ends.
  */
module CallDelivery {
  import opened Common
  import opened CallStream
  import opened CallRouting

  /** g is f with its payload as it was: only a Reset flag may have been set and an attempt number replaced. */
  predicate SameFrame(f: Frame, g: Frame) {
    && (f.reset ==> g.reset)
    && if f.kind.Metadata? && f.kind.meta.Meta?
       then g.kind.Metadata? && g.kind.meta.Meta? && g.kind.meta.outcome == f.kind.meta.outcome
            && g.kind.meta.body == f.kind.meta.body
       else g.kind == f.kind
  }

  ghost predicate AllSame(fs: seq<Frame>, gs: seq<Frame>) {
    |fs| == |gs| && forall i | 0 <= i < |fs| :: SameFrame(fs[i], gs[i])
  }

  function NoHeartbeats(frames: seq<Frame>): seq<Frame> {
    if frames == [] then []
    else (if frames[0].kind.Heartbeat? then [] else [frames[0]]) + NoHeartbeats(frames[1..])
  }

  /** The frames of one attempt on the client's channel, in order. */
  function OfAttempt(out: seq<Sent>, a: nat): seq<Frame> {
    if out == [] then []
    else (if out[0].FromWorker? && out[0].attempt == a then [out[0].frame] else []) + OfAttempt(out[1..], a)
  }

  lemma {:induction false} ReachedGoesOn(script: nat -> Attempt, cfg: Config, a: nat, b: nat)
    requires Reached(script, cfg, b) && a < b
    ensures Reached(script, cfg, a) && GoesOn(script(a))
    decreases b
  {
    if a < b - 1 { ReachedGoesOn(script, cfg, a, b - 1); }
  }

  /** What the client gets of attempt a: its frames if the request reaches it and a worker opens a stream. */
  ghost predicate Delivers(script: nat -> Attempt, cfg: Config, out: seq<Sent>, a: nat) {
    if Reached(script, cfg, a) && script(a).Opened?
    then AllSame(NoHeartbeats(Live(script(a).frames)), OfAttempt(out, a))
    else OfAttempt(out, a) == []
  }

  lemma {:induction false} FromDelivers(script: nat -> Attempt, cfg: Config, attempt: nat,
                                        sentAny: bool, last: Option<Error>, a: nat)
    requires (attempt <= Limit(cfg) ==> Reached(script, cfg, attempt)) && attempt <= a
    ensures Delivers(script, cfg, From(script, cfg, attempt, sentAny, last), a)
    decreases Limit(cfg) - attempt + 1, 1, 0
  {
    if attempt <= Limit(cfg) {
      if attempt < a && Reached(script, cfg, a) { ReachedGoesOn(script, cfg, attempt, a); }
      match script(attempt)
      case NoWorker(e) =>
      case Refused(e, hung) =>
        if e.retryable || hung {
          if attempt < a {
            FromDelivers(script, cfg, attempt + 1, sentAny, Some(e), a);
          } else {
            FromIsLater(script, cfg, attempt + 1, sentAny, Some(e), a);
          }
        }
      case Opened(frames) =>
        if attempt < a {
          FramesDeliver(script, cfg, frames, attempt, sentAny && !Suppressed(cfg), sentAny, last, a);
        } else {
          OwnFramesDeliver(script, cfg, frames, attempt, sentAny && !Suppressed(cfg), sentAny, last);
        }
    }
  }

  /** Of an attempt's frames those the pool reads, heartbeats apart, reach the client as they are. */
  lemma {:induction false} OwnFramesDeliver(script: nat -> Attempt, cfg: Config, frames: seq<Frame>, attempt: nat,
                                            pending: bool, sentAny: bool, last: Option<Error>)
    requires attempt <= Limit(cfg)
    ensures AllSame(NoHeartbeats(Live(frames)),
                    OfAttempt(Frames(script, cfg, frames, attempt, pending, sentAny, last), attempt))
    decreases frames
  {
    if frames == [] {
      FromIsLater(script, cfg, attempt + 1, sentAny, last, attempt);
    } else {
      var f := Stamp(frames[0], attempt);
      if f.kind.Failed? && f.kind.err.retryable {
        FromIsLater(script, cfg, attempt + 1, sentAny, Some(f.kind.err), attempt);
      } else if f.kind.Heartbeat? {
        OwnFramesDeliver(script, cfg, frames[1..], attempt, pending, sentAny, last);
        LiveStep(frames);
      } else {
        var x := FromWorker(attempt, Mark(f, pending));
        assert SameFrame(frames[0], x.frame);
        if !Ends(f) {
          var rest := Frames(script, cfg, frames[1..], attempt, pending && Planned(f), sentAny || !Planned(f), last);
          OwnFramesDeliver(script, cfg, frames[1..], attempt, pending && Planned(f), sentAny || !Planned(f), last);
          LiveStep(frames);
          SameCons(frames[0], x, NoHeartbeats(Live(frames[1..])), rest, attempt);
        }
      }
    }
  }

  lemma {:induction false} SameCons(f: Frame, x: Sent, fs: seq<Frame>, rest: seq<Sent>, a: nat)
    requires x.FromWorker? && x.attempt == a && SameFrame(f, x.frame) && AllSame(fs, OfAttempt(rest, a))
    ensures AllSame([f] + fs, OfAttempt([x] + rest, a))
  {
    assert ([x] + rest)[1..] == rest;
    assert OfAttempt([x] + rest, a) == [x.frame] + OfAttempt(rest, a);
  }

  /** What comes after an attempt's frames. */
  lemma {:induction false} FramesDeliver(script: nat -> Attempt, cfg: Config, frames: seq<Frame>, attempt: nat,
                                         pending: bool, sentAny: bool, last: Option<Error>, a: nat)
    requires Reached(script, cfg, attempt) && script(attempt).Opened? && attempt < a
    requires RunsOut(frames) <==> RunsOut(script(attempt).frames)
    ensures Delivers(script, cfg, Frames(script, cfg, frames, attempt, pending, sentAny, last), a)
    decreases Limit(cfg) - attempt + 1, 0, |frames|
  {
    if Reached(script, cfg, a) { ReachedGoesOn(script, cfg, attempt, a); }
    if frames == [] {
      FromDelivers(script, cfg, attempt + 1, sentAny, last, a);
    } else {
      var f := Stamp(frames[0], attempt);
      if f.kind.Heartbeat? {
        FramesDeliver(script, cfg, frames[1..], attempt, pending, sentAny, last, a);
      } else if f.kind.Failed? && f.kind.err.retryable {
        FromDelivers(script, cfg, attempt + 1, sentAny, Some(f.kind.err), a);
      } else if !Ends(f) {
        var rest := Frames(script, cfg, frames[1..], attempt, pending && Planned(f), sentAny || !Planned(f), last);
        FramesDeliver(script, cfg, frames[1..], attempt, pending && Planned(f), sentAny || !Planned(f), last, a);
        assert ([FromWorker(attempt, Mark(f, pending))] + rest)[1..] == rest;
      }
    }
  }

  lemma {:induction false} FromIsLater(script: nat -> Attempt, cfg: Config, attempt: nat,
                                       sentAny: bool, last: Option<Error>, a: nat)
    requires a < attempt
    ensures OfAttempt(From(script, cfg, attempt, sentAny, last), a) == []
    decreases Limit(cfg) - attempt + 1, 1, 0
  {
    if attempt <= Limit(cfg) {
      match script(attempt)
      case NoWorker(e) =>
      case Refused(e, hung) =>
        if e.retryable || hung { FromIsLater(script, cfg, attempt + 1, sentAny, Some(e), a); }
      case Opened(frames) =>
        FramesAreLater(script, cfg, frames, attempt, sentAny && !Suppressed(cfg), sentAny, last, a);
    }
  }

  lemma {:induction false} FramesAreLater(script: nat -> Attempt, cfg: Config, frames: seq<Frame>, attempt: nat,
                                          pending: bool, sentAny: bool, last: Option<Error>, a: nat)
    requires attempt <= Limit(cfg) && a < attempt
    ensures OfAttempt(Frames(script, cfg, frames, attempt, pending, sentAny, last), a) == []
    decreases Limit(cfg) - attempt + 1, 0, |frames|
  {
    if frames == [] {
      FromIsLater(script, cfg, attempt + 1, sentAny, last, a);
    } else {
      var f := Stamp(frames[0], attempt);
      if f.kind.Heartbeat? {
        FramesAreLater(script, cfg, frames[1..], attempt, pending, sentAny, last, a);
      } else if f.kind.Failed? && f.kind.err.retryable {
        FromIsLater(script, cfg, attempt + 1, sentAny, Some(f.kind.err), a);
      } else if !Ends(f) {
        var rest := Frames(script, cfg, frames[1..], attempt, pending && Planned(f), sentAny || !Planned(f), last);
        FramesAreLater(script, cfg, frames[1..], attempt, pending && Planned(f), sentAny || !Planned(f), last, a);
        assert ([FromWorker(attempt, Mark(f, pending))] + rest)[1..] == rest;
      }
    }
  }

  /**
    * An uncancelled request delivers of every attempt it reaches all the frames the pool reads, heartbeats
    * apart, in order and with their payloads, and nothing of any other attempt.
    */
  lemma EveryAttemptIsDelivered(script: nat -> Attempt, cfg: Config, a: nat)
    ensures Delivers(script, cfg, Stream(script, cfg), a)
  {
    FromDelivers(script, cfg, 0, false, None, a);
  }

  // ---------------------------------------------------------------- how it ends

  /** The retryable error an attempt ends with, if any. */
  function ErrorOf(frames: seq<Frame>): Option<Error> {
    if frames == [] then None
    else if frames[0].kind.Failed? then Some(frames[0].kind.err)
    else ErrorOf(frames[1..])
  }

  /** The latest error among the first a attempts. */
  function LastError(script: nat -> Attempt, a: nat): Option<Error> {
    if a == 0 then None
    else match script(a - 1)
         case Refused(e, _) => Some(e)
         case Opened(frames) => if ErrorOf(frames).Some? then ErrorOf(frames) else LastError(script, a - 1)
         case NoWorker(_) => None
  }

  /** The last attempt a request makes: it does not go on, or no retry is left. */
  ghost predicate IsLastAttempt(script: nat -> Attempt, cfg: Config, a: nat) {
    Reached(script, cfg, a) && (GoesOn(script(a)) ==> a == Limit(cfg))
  }

  /** The pool's own error after the last attempt; none if that attempt ended with a frame of its own. */
  function PoolEnd(script: nat -> Attempt, a: nat): Option<PoolError> {
    if GoesOn(script(a)) then Some(Exhausted(LastError(script, a + 1)))
    else match script(a)
         case NoWorker(e) => Some(GaveUp(e, false))
         case Refused(e, _) => Some(Unretryable(e))
         case Opened(_) => None
  }

  ghost predicate EndsAs(out: seq<Sent>, a: nat, end: Option<PoolError>) {
    && out != []
    && (end.Some? ==> out[|out| - 1] == FromPool(end.value))
    && (end.None? ==> out[|out| - 1].FromWorker? && out[|out| - 1].attempt == a && Ends(out[|out| - 1].frame))
  }

  lemma {:induction false} FromEnds(script: nat -> Attempt, cfg: Config, attempt: nat, sentAny: bool, a: nat)
    requires Reached(script, cfg, attempt) && attempt <= a && IsLastAttempt(script, cfg, a)
    ensures EndsAs(From(script, cfg, attempt, sentAny, LastError(script, attempt)), a, PoolEnd(script, a))
    decreases Limit(cfg) - attempt + 1, 1, 0
  {
    if attempt < a { ReachedGoesOn(script, cfg, attempt, a); }
    match script(attempt)
    case NoWorker(e) =>
    case Refused(e, hung) => if e.retryable || hung { NextEnds(script, cfg, attempt, sentAny, a); }
    case Opened(frames) =>
      FramesEndAs(script, cfg, frames, attempt, sentAny && !Suppressed(cfg), sentAny, a);
  }

  lemma NextEnds(script: nat -> Attempt, cfg: Config, attempt: nat, sentAny: bool, a: nat)
    requires Reached(script, cfg, attempt) && attempt <= a && IsLastAttempt(script, cfg, a) && GoesOn(script(attempt))
    ensures EndsAs(From(script, cfg, attempt + 1, sentAny, LastError(script, attempt + 1)), a, PoolEnd(script, a))
    decreases Limit(cfg) - attempt, 2, 0
  {
    if attempt < a {
      if attempt + 1 < a { ReachedGoesOn(script, cfg, attempt + 1, a); }
      FromEnds(script, cfg, attempt + 1, sentAny, a);
    }
  }

  lemma {:induction false} FramesEndAs(script: nat -> Attempt, cfg: Config, frames: seq<Frame>, attempt: nat,
                                       pending: bool, sentAny: bool, a: nat)
    requires Reached(script, cfg, attempt) && script(attempt).Opened? && attempt <= a && IsLastAttempt(script, cfg, a)
    requires RunsOut(frames) <==> RunsOut(script(attempt).frames)
    requires RunsOut(frames) ==> ErrorOf(frames) == ErrorOf(script(attempt).frames)
    ensures EndsAs(Frames(script, cfg, frames, attempt, pending, sentAny, LastError(script, attempt)), a,
                   PoolEnd(script, a))
    decreases Limit(cfg) - attempt + 1, 0, |frames|
  {
    if attempt < a { ReachedGoesOn(script, cfg, attempt, a); }
    if frames == [] {
      NextEnds(script, cfg, attempt, sentAny, a);
    } else {
      var f := Stamp(frames[0], attempt);
      if f.kind.Heartbeat? {
        FramesEndAs(script, cfg, frames[1..], attempt, pending, sentAny, a);
      } else if f.kind.Failed? && f.kind.err.retryable {
        NextEnds(script, cfg, attempt, sentAny, a);
      } else if !Ends(f) {
        FramesEndAs(script, cfg, frames[1..], attempt, pending && Planned(f), sentAny || !Planned(f), a);
      }
    }
  }

  /**
    * After its last attempt an uncancelled request ends with that attempt's own final or error frame, or with
    * the pool's error: no worker, an error it does not retry, or its retries exhausted, naming the latest error.
    */
  lemma RequestEnds(script: nat -> Attempt, cfg: Config, a: nat)
    requires IsLastAttempt(script, cfg, a)
    ensures EndsAs(Stream(script, cfg), a, PoolEnd(script, a))
  {
    if a > 0 { ReachedGoesOn(script, cfg, 0, a); }
    FromEnds(script, cfg, 0, false, a);
  }

  /** Every request that may call a worker at all has a last attempt. */
  lemma {:induction false} SomeAttemptIsLast(script: nat -> Attempt, cfg: Config, from: nat) returns (a: nat)
    requires Reached(script, cfg, from)
    ensures IsLastAttempt(script, cfg, a)
    decreases Limit(cfg) - from
  {
    a := from;
    if GoesOn(script(from)) && from < Limit(cfg) { a := SomeAttemptIsLast(script, cfg, from + 1); }
  }
}
