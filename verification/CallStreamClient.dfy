/**
  * What a client of CallStream holds. The stream is described from the inside
  * out: every frame fits what came before it, for every prefix of the stream.
  */
module CallStreamClient {
  import opened Common
  import opened CallStream

  /** A frame of an attempt that carries progress: neither planned metadata nor the pool's own error. */
  predicate Real(x: Sent) {
    x.FromWorker? && !Planned(x.frame)
  }

  predicate IsTerminal(x: Sent) {
    x.FromPool? || Ends(x.frame)
  }

  /** The attempt of the latest real frame. */
  function LatestReal(out: seq<Sent>): Option<nat> {
    if out == [] then None
    else if Real(out[|out| - 1]) then Some(out[|out| - 1].attempt)
    else LatestReal(out[..|out| - 1])
  }

  /** A real frame of x's attempt is the first one after real frames of another attempt. */
  ghost predicate Supersedes(before: seq<Sent>, x: Sent)
    requires x.FromWorker?
  {
    Real(x) && LatestReal(before).Some? && LatestReal(before).value != x.attempt
  }

  ghost predicate NoTerminal(out: seq<Sent>) {
    forall y | y in out :: !IsTerminal(y)
  }

  ghost predicate UpTo(out: seq<Sent>, attempt: int) {
    forall y | y in out :: y.FromWorker? ==> y.attempt <= attempt
  }

  /** plain says that no worker sets the reset flag itself. */
  ghost predicate Fits(before: seq<Sent>, x: Sent, plain: bool) {
    && NoTerminal(before)
    && (x.FromWorker? ==>
          && UpTo(before, x.attempt)
          && !x.frame.kind.Heartbeat?
          && (x.frame.kind.Metadata? && x.frame.kind.meta.Meta? ==> x.frame.kind.meta.attempt == x.attempt)
          && (Supersedes(before, x) ==> x.frame.reset)
          && (plain && x.frame.reset ==> Supersedes(before, x)))
  }

  ghost predicate Good(out: seq<Sent>, plain: bool) {
    out == [] || (Good(out[..|out| - 1], plain) && Fits(out[..|out| - 1], out[|out| - 1], plain))
  }

  ghost predicate NoWorkerResets(script: nat -> Attempt) {
    forall a: nat, i: nat | script(a).Opened? && i < |script(a).frames| :: !script(a).frames[i].reset
  }

  lemma {:induction false} Snoc(pre: seq<Sent>, x: Sent, plain: bool)
    requires Good(pre, plain) && Fits(pre, x, plain)
    ensures Good(pre + [x], plain)
    ensures LatestReal(pre + [x]) == if Real(x) then Some(x.attempt) else LatestReal(pre)
  {
    assert (pre + [x])[..|pre + [x]| - 1] == pre;
  }

  lemma {:induction false} LatestIsBounded(out: seq<Sent>, attempt: int)
    requires UpTo(out, attempt) && LatestReal(out).Some?
    ensures LatestReal(out).value <= attempt
  {
    if Real(out[|out| - 1]) {
      assert out[|out| - 1] in out;
    } else {
      assert UpTo(out[..|out| - 1], attempt);
      LatestIsBounded(out[..|out| - 1], attempt);
    }
  }

  /** What holds of the frames sent so far when an attempt starts. */
  ghost predicate Ready(pre: seq<Sent>, sentAny: bool, plain: bool, upTo: int) {
    Good(pre, plain) && NoTerminal(pre) && UpTo(pre, upTo) && sentAny == LatestReal(pre).Some?
  }

  lemma {:induction false} FromIsGood(script: nat -> Attempt, cfg: Config, attempt: nat,
                                      sentAny: bool, last: Option<Error>, pre: seq<Sent>, plain: bool)
    requires Ready(pre, sentAny, plain, attempt - 1) && (plain ==> NoWorkerResets(script))
    ensures Good(pre + From(script, cfg, attempt, sentAny, last), plain)
    decreases Limit(cfg) - attempt + 1, 1, 0
  {
    if attempt > Limit(cfg) {
      Snoc(pre, FromPool(Exhausted(last)), plain);
    } else {
      match script(attempt)
      case NoWorker(e) => Snoc(pre, FromPool(GaveUp(e, false)), plain);
      case Refused(e, hung) =>
        if e.retryable || hung {
          FromIsGood(script, cfg, attempt + 1, sentAny, Some(e), pre, plain);
        } else {
          Snoc(pre, FromPool(Unretryable(e)), plain);
        }
      case Opened(frames) =>
        if sentAny { LatestIsBounded(pre, attempt - 1); }
        FramesAreGood(script, cfg, frames, attempt, sentAny && !Suppressed(cfg), sentAny, last, pre, plain);
    }
  }

  lemma {:induction false} ForwardedFits(pre: seq<Sent>, f: Frame, attempt: nat, pending: bool, plain: bool)
    requires NoTerminal(pre) && UpTo(pre, attempt) && !f.kind.Heartbeat? && (plain ==> !f.reset)
    requires pending <==> LatestReal(pre).Some? && LatestReal(pre).value != attempt
    ensures Fits(pre, FromWorker(attempt, Mark(Stamp(f, attempt), pending)), plain)
  {
  }

  lemma {:induction false} FramesAreGood(script: nat -> Attempt, cfg: Config, frames: seq<Frame>,
                                         attempt: nat, pending: bool, sentAny: bool, last: Option<Error>,
                                         pre: seq<Sent>, plain: bool)
    requires attempt <= Limit(cfg) && Ready(pre, sentAny, plain, attempt) && (plain ==> NoWorkerResets(script))
    requires pending <==> sentAny && LatestReal(pre).value != attempt
    requires plain ==> forall i | 0 <= i < |frames| :: !frames[i].reset
    ensures Good(pre + Frames(script, cfg, frames, attempt, pending, sentAny, last), plain)
    decreases Limit(cfg) - attempt + 1, 0, |frames|
  {
    if frames == [] {
      FromIsGood(script, cfg, attempt + 1, sentAny, last, pre, plain);
    } else {
      var f := Stamp(frames[0], attempt);
      if f.kind.Heartbeat? {
        FramesAreGood(script, cfg, frames[1..], attempt, pending, sentAny, last, pre, plain);
      } else if f.kind.Failed? && f.kind.err.retryable {
        FromIsGood(script, cfg, attempt + 1, sentAny, Some(f.kind.err), pre, plain);
      } else {
        var x := FromWorker(attempt, Mark(f, pending));
        ForwardedFits(pre, frames[0], attempt, pending, plain);
        Snoc(pre, x, plain);
        if !Ends(f) {
          FramesAreGood(script, cfg, frames[1..], attempt,
                        pending && Planned(f), sentAny || !Planned(f), last, pre + [x], plain);
          Regroup(pre, x,
                  Frames(script, cfg, frames[1..], attempt, pending && Planned(f), sentAny || !Planned(f), last));
        }
      }
    }
  }

  // ---------------------------------------------------------------- every stream a client can see

  /** out is what some run of CallStream over the script has put on the channel so far. */
  ghost predicate Seen(script: nat -> Attempt, cfg: Config, out: seq<Sent>) {
    exists env: Env :: out <= Run(script, cfg, env)
  }

  lemma SeenIsCut(script: nat -> Attempt, cfg: Config, out: seq<Sent>)
    requires Seen(script, cfg, out)
    ensures CutOf(out, Stream(script, cfg))
  {
    var env :| out <= Run(script, cfg, env);
    RunIsCut(script, cfg, env);
    forall i | 0 <= i < |out| ensures out[i] == Run(script, cfg, env)[i] {}
  }

  lemma {:induction false} CutIsGood(out: seq<Sent>, full: seq<Sent>, plain: bool)
    requires CutOf(out, full) && Good(full, plain)
    ensures Good(out, plain)
    decreases |full|, |out|
  {
    if out == [] {
    } else if |full| > |out| {
      CutIsGood(out, full[..|full| - 1], plain);
    } else {
      var before, x := out[..|out| - 1], out[|out| - 1];
      var mine := full[..|full| - 1];
      forall i | 0 <= i < |before| ensures before[i] == mine[i] { assert mine[i] in mine; }
      assert before == mine;
    }
  }

  lemma {:induction false} SeenIsGood(script: nat -> Attempt, cfg: Config, out: seq<Sent>, plain: bool)
    requires Seen(script, cfg, out) && (plain ==> NoWorkerResets(script))
    ensures Good(out, plain)
  {
    FromIsGood(script, cfg, 0, false, None, [], plain);
    assert [] + Stream(script, cfg) == Stream(script, cfg);
    SeenIsCut(script, cfg, out);
    CutIsGood(out, Stream(script, cfg), plain);
  }

  // ---------------------------------------------------------------- the client

  /** A client that throws away what it holds on Reset and keeps every real frame. */
  function Client(out: seq<Sent>): seq<Sent> {
    if out == [] then []
    else
      var held, x := Client(out[..|out| - 1]), out[|out| - 1];
      if x.FromPool? then held
      else (if x.frame.reset then [] else held) + (if Real(x) then [x] else [])
  }

  /** The real frames of one attempt. */
  function RealOf(out: seq<Sent>, attempt: nat): seq<Sent> {
    if out == [] then []
    else
      var x := out[|out| - 1];
      RealOf(out[..|out| - 1], attempt) + if Real(x) && x.attempt == attempt then [x] else []
  }

  ghost predicate IsSuffix(tail: seq<Sent>, s: seq<Sent>) {
    |tail| <= |s| && tail == s[|s| - |tail|..]
  }

  lemma SuffixSnoc(tail: seq<Sent>, s: seq<Sent>, x: Sent)
    requires IsSuffix(tail, s)
    ensures IsSuffix(tail + [x], s + [x])
  {
    assert (s + [x])[|s| - |tail|..] == s[|s| - |tail|..] + [x];
  }

  lemma {:induction false} NoneBeforeIts(out: seq<Sent>, attempt: nat)
    requires UpTo(out, attempt) && (LatestReal(out).Some? ==> LatestReal(out).value != attempt)
    requires Monotone(out)
    ensures RealOf(out, attempt) == []
  {
    if out != [] {
      var before, x := out[..|out| - 1], out[|out| - 1];
      assert x in out;
      if Real(x) {
        LaterThanAll(before, x.attempt, attempt);
      } else {
        NoneBeforeIts(before, attempt);
      }
    }
  }

  /** Attempt numbers never go down. */
  ghost predicate Monotone(out: seq<Sent>) {
    out == [] || (Monotone(out[..|out| - 1])
                  && (out[|out| - 1].FromWorker? ==> UpTo(out[..|out| - 1], out[|out| - 1].attempt)))
  }

  lemma {:induction false} LaterThanAll(out: seq<Sent>, latest: nat, attempt: nat)
    requires UpTo(out, latest) && latest < attempt
    ensures RealOf(out, attempt) == []
  {
    if out != [] {
      assert out[|out| - 1] in out;
      LaterThanAll(out[..|out| - 1], latest, attempt);
    }
  }

  lemma {:induction false} GoodIsMonotone(out: seq<Sent>, plain: bool)
    requires Good(out, plain)
    ensures Monotone(out)
  {
    if out != [] { GoodIsMonotone(out[..|out| - 1], plain); }
  }

  /**
    * The client holds a suffix of the latest attempt's real frames: all of them, unless a worker reset
    * its own stream.
    */
  ghost predicate HoldsLatest(out: seq<Sent>, plain: bool) {
    match LatestReal(out)
    case None => Client(out) == []
    case Some(a) =>
      && IsSuffix(Client(out), RealOf(out, a))
      && (plain ==> Client(out) == RealOf(out, a))
      && forall x | x in Client(out) :: Real(x) && x.attempt == a && !x.frame.kind.Heartbeat?
  }

  /** A frame that is not real leaves the latest attempt, and resets only what a worker may reset. */
  lemma HoldsOverPlan(out: seq<Sent>, plain: bool)
    requires out != [] && !Real(out[|out| - 1])
    requires HoldsLatest(out[..|out| - 1], plain) && Fits(out[..|out| - 1], out[|out| - 1], plain)
    ensures HoldsLatest(out, plain)
  {
    var before, x := out[..|out| - 1], out[|out| - 1];
    assert LatestReal(out) == LatestReal(before) && (Client(out) == Client(before) || (Client(out) == [] && !plain));
    if LatestReal(out).Some? {
      var all := RealOf(before, LatestReal(out).value);
      assert RealOf(out, LatestReal(out).value) == all + [] == all;
      assert IsSuffix([], all);
    }
  }

  lemma HoldsOverReal(out: seq<Sent>, plain: bool)
    requires out != [] && Real(out[|out| - 1])
    requires HoldsLatest(out[..|out| - 1], plain) && Fits(out[..|out| - 1], out[|out| - 1], plain)
    requires LatestReal(out[..|out| - 1]) != Some(out[|out| - 1].attempt) ==>
               RealOf(out[..|out| - 1], out[|out| - 1].attempt) == []
    ensures HoldsLatest(out, plain)
  {
    var before, x := out[..|out| - 1], out[|out| - 1];
    var held, all := if x.frame.reset then [] else Client(before), RealOf(before, x.attempt);
    assert IsSuffix(held, all) && (plain ==> held == all);
    assert Client(out) == held + [x] && RealOf(out, x.attempt) == all + [x] && LatestReal(out) == Some(x.attempt);
    SuffixSnoc(held, all, x);
    forall y | y in held + [x] ensures Real(y) && y.attempt == x.attempt && !y.frame.kind.Heartbeat? {
      if y != x { assert y in held; }
    }
  }

  lemma {:induction false} GoodHoldsLatest(out: seq<Sent>, plain: bool)
    requires Good(out, plain)
    ensures HoldsLatest(out, plain)
  {
    if out != [] {
      var before, x := out[..|out| - 1], out[|out| - 1];
      GoodHoldsLatest(before, plain);
      if !Real(x) {
        HoldsOverPlan(out, plain);
      } else {
        if LatestReal(before) != Some(x.attempt) {
          GoodIsMonotone(before, plain);
          NoneBeforeIts(before, x.attempt);
        }
        HoldsOverReal(out, plain);
      }
    }
  }

  /** On every run, whatever the client has seen so far. */
  lemma ClientHoldsOneAttempt(script: nat -> Attempt, cfg: Config, out: seq<Sent>)
    requires Seen(script, cfg, out)
    ensures HoldsLatest(out, false)
    ensures NoWorkerResets(script) ==> HoldsLatest(out, true)
  {
    SeenIsGood(script, cfg, out, false);
    GoodHoldsLatest(out, false);
    if NoWorkerResets(script) {
      SeenIsGood(script, cfg, out, true);
      GoodHoldsLatest(out, true);
    }
  }

  /** Final and Error frames, the pool's own included: at most one, and it is last. */
  lemma TerminalIsLast(script: nat -> Attempt, cfg: Config, out: seq<Sent>, i: nat)
    requires Seen(script, cfg, out) && i < |out| && IsTerminal(out[i])
    ensures i == |out| - 1
  {
    SeenIsGood(script, cfg, out, false);
  }

  /** An uncancelled request's stream ends with a terminal frame. */
  lemma {:induction false} StreamEnds(script: nat -> Attempt, cfg: Config, attempt: nat,
                                      sentAny: bool, last: Option<Error>)
    ensures var out := From(script, cfg, attempt, sentAny, last); out != [] && IsTerminal(out[|out| - 1])
    decreases Limit(cfg) - attempt + 1, 1, 0
  {
    if attempt <= Limit(cfg) {
      match script(attempt) {
        case NoWorker(e) =>
        case Refused(e, hung) => if e.retryable || hung { StreamEnds(script, cfg, attempt + 1, sentAny, Some(e)); }
        case Opened(frames) => FramesEnd(script, cfg, frames, attempt, sentAny && !Suppressed(cfg), sentAny, last);
      }
    }
  }

  lemma {:induction false} FramesEnd(script: nat -> Attempt, cfg: Config, frames: seq<Frame>,
                                     attempt: nat, pending: bool, sentAny: bool, last: Option<Error>)
    requires attempt <= Limit(cfg)
    ensures var out := Frames(script, cfg, frames, attempt, pending, sentAny, last);
            out != [] && IsTerminal(out[|out| - 1])
    decreases Limit(cfg) - attempt + 1, 0, |frames|
  {
    if frames == [] {
      StreamEnds(script, cfg, attempt + 1, sentAny, last);
    } else {
      var f := Stamp(frames[0], attempt);
      if f.kind.Heartbeat? {
        FramesEnd(script, cfg, frames[1..], attempt, pending, sentAny, last);
      } else if f.kind.Failed? && f.kind.err.retryable {
        StreamEnds(script, cfg, attempt + 1, sentAny, Some(f.kind.err));
      } else if !Ends(f) {
        FramesEnd(script, cfg, frames[1..], attempt, pending && Planned(f), sentAny || !Planned(f), last);
      }
    }
  }

  // ---------------------------------------------------------------- suppressed stream retries

  /** The frames of the only attempt as they are: heartbeats dropped, cut at the first terminal or retryable error. */
  function AsIs(frames: seq<Frame>): seq<Sent> {
    if frames == [] || (frames[0].kind.Failed? && frames[0].kind.err.retryable) then []
    else if frames[0].kind.Heartbeat? then AsIs(frames[1..])
    else if Ends(frames[0]) then [FromWorker(0, frames[0])]
    else [FromWorker(0, Stamp(frames[0], 0))] + AsIs(frames[1..])
  }

  /**
    * With stream retries suppressed the client gets that attempt's frames unmarked, then at most the
    * pool's own error.
    */
  lemma SuppressedIsUnmarked(script: nat -> Attempt, cfg: Config)
    requires Suppressed(cfg) && script(0).Opened?
    ensures var frames := script(0).frames;
            Stream(script, cfg) == AsIs(frames)
            || exists last :: Stream(script, cfg) == AsIs(frames) + [FromPool(Exhausted(last))]
  {
    FramesUnmarked(script, cfg, script(0).frames, false);
  }

  lemma {:induction false} FramesUnmarked(script: nat -> Attempt, cfg: Config, frames: seq<Frame>, sentAny: bool)
    requires Suppressed(cfg)
    ensures var out := Frames(script, cfg, frames, 0, false, sentAny, None);
            out == AsIs(frames) || exists last :: out == AsIs(frames) + [FromPool(Exhausted(last))]
  {
    if frames == [] {
      assert From(script, cfg, 1, sentAny, None) == AsIs(frames) + [FromPool(Exhausted(None))];
    } else {
      var f := Stamp(frames[0], 0);
      if f.kind.Heartbeat? {
        FramesUnmarked(script, cfg, frames[1..], sentAny);
      } else if f.kind.Failed? && f.kind.err.retryable {
        assert From(script, cfg, 1, sentAny, Some(f.kind.err))
            == AsIs(frames) + [FromPool(Exhausted(Some(f.kind.err)))];
      } else if !Ends(f) {
        FramesUnmarked(script, cfg, frames[1..], sentAny || !Planned(f));
        var rest := Frames(script, cfg, frames[1..], 0, false, sentAny || !Planned(f), None);
        if last :| rest == AsIs(frames[1..]) + [FromPool(Exhausted(last))] {
          Append(FromWorker(0, f), AsIs(frames[1..]), FromPool(Exhausted(last)));
        }
      }
    }
  }

  lemma Append(x: Sent, mid: seq<Sent>, y: Sent)
    ensures [x] + (mid + [y]) == [x] + mid + [y]
  {
  }
}
