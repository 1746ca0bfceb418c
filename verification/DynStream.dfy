/**
  * The client side of a dynamic stream: worker frames become events. The
  * reference is a flattening of the frame sequence that has no running state.
  */
module DynStream {
  import opened Common

  /** A Go error; wrapsEof is what errors.Is(err, io.EOF) answers. */
  datatype Problem = Eof | Fail(text: string, wrapsEof: bool)

  datatype Kind = Partial | Final | Error | Heartbeat | Metadata

  datatype Frame = Frame(kind: Kind, data: string, raw: string, reasoning: string, error: Problem, reset: bool)

  datatype Event =
    | PartialEvent(data: Option<string>, raw: string, reasoning: string)
    | FinalEvent(data: Option<string>, raw: string, reasoning: string)
    | ResetEvent
    | MetadataEvent(metadata: string)

  /** The decoders a stream is opened with: envelope removal, the final-frame passes, metadata. */
  datatype Codec = Codec(flatten: string -> Result<string, Problem>, finish: string -> Result<string, Problem>,
                         metadata: string -> Result<string, Problem>)

  datatype Opening = Opening(codec: Codec, needRaw: bool, errLabel: string)

  const UNINITIALISED := Fail("dynclient: uninitialized Stream", false)

  predicate IsEof(p: Problem) {
    p.Eof? || p.wrapsEof
  }

  function Labelled(prefix: string, p: Problem): Problem {
    Fail(prefix, IsEof(p))
  }

  // ---------------------------------------------------------------- the flattening

  /** The index of the last frame flagged Reset, or 0. */
  function LastReset(fs: seq<Frame>): (i: nat)
    ensures i <= |fs| && (i < |fs| || fs == [])
  {
    if fs == [] then 0 else if fs[|fs| - 1].reset then |fs| - 1 else LastReset(fs[..|fs| - 1])
  }

  /** The raw deltas of the partial frames, concatenated. */
  function RawOf(fs: seq<Frame>): string {
    if fs == [] then "" else RawOf(fs[..|fs| - 1]) + if fs[|fs| - 1].kind == Partial then fs[|fs| - 1].raw else ""
  }

  function ReasoningOf(fs: seq<Frame>): string {
    if fs == [] then ""
    else
      var f := fs[|fs| - 1];
      ReasoningOf(fs[..|fs| - 1]) + if f.kind == Partial then f.reasoning else ""
  }

  function FlattenIfPresent(o: Opening, data: string): Result<Option<string>, Problem> {
    if data == "" then Ok(None)
    else match o.codec.flatten(data) case Ok(d) => Ok(Some(d)) case Err(p) => Err(p)
  }

  /** The payload of frame f; raw and reasoning are what has come in since the last reset, f included. */
  function Payload(o: Opening, f: Frame, raw: string, reasoning: string): Result<Option<Event>, Problem> {
    match f.kind
    case Error => Err(Labelled(o.errLabel, f.error))
    case Heartbeat => Ok(None)
    case Partial =>
      (match FlattenIfPresent(o, f.data)
       case Err(p) => Err(p)
       case Ok(d) =>
         if d.None? && (!o.needRaw || (f.raw == "" && f.reasoning == "")) then Ok(None)
         else Ok(Some(PartialEvent(d, if o.needRaw then raw else "", if o.needRaw then reasoning else ""))))
    case Final =>
      (match FlattenIfPresent(o, f.data)
       case Err(p) => Err(p)
       case Ok(None) =>
         Ok(Some(FinalEvent(None, if o.needRaw then f.raw else "", if o.needRaw then f.reasoning else "")))
       case Ok(Some(d)) =>
         match o.codec.finish(d)
         case Err(p) => Err(p)
         case Ok(done) =>
           Ok(Some(FinalEvent(Some(done), if o.needRaw then f.raw else "", if o.needRaw then f.reasoning else ""))))
    case Metadata =>
      if f.data == "" then Ok(None)
      else match o.codec.metadata(f.data) case Err(p) => Err(p) case Ok(md) => Ok(Some(MetadataEvent(md)))
  }

  /** A translation of one frame, given the raw and reasoning text since the last reset. */
  type Reading = (Frame, string, string) -> Result<Option<Event>, Problem>

  function ReadingOf(o: Opening): Reading {
    (f, raw, reasoning) => Payload(o, f, raw, reasoning)
  }

  /** The payload of the last frame, read off the frames alone. */
  function LastPayload(read: Reading, fs: seq<Frame>): Result<Option<Event>, Problem>
    requires fs != []
  {
    read(fs[|fs| - 1], RawSince(fs), ReasoningSince(fs))
  }

  function WithReset(reset: bool, payload: Option<Event>): seq<Event> {
    (if reset then [ResetEvent] else []) + if payload.Some? then [payload.value] else []
  }

  /** Every frame can be translated. */
  ghost predicate Clean(read: Reading, fs: seq<Frame>) {
    fs == [] || (LastPayload(read, fs).Ok? && Clean(read, fs[..|fs| - 1]))
  }

  /** The flattening of a clean frame sequence: each frame's reset, if it has one, immediately before its payload. */
  function Events(read: Reading, fs: seq<Frame>): seq<Event>
    requires Clean(read, fs)
  {
    if fs == [] then [] else Events(read, fs[..|fs| - 1]) + WithReset(fs[|fs| - 1].reset, LastPayload(read, fs).value)
  }

  // ---------------------------------------------------------------- accumulators against the flattening

  function RawSince(fs: seq<Frame>): string {
    RawOf(fs[LastReset(fs)..])
  }

  function ReasoningSince(fs: seq<Frame>): string {
    ReasoningOf(fs[LastReset(fs)..])
  }

  lemma SinceSnoc(fs: seq<Frame>, f: Frame)
    ensures var r := if f.reset then "" else RawSince(fs);
            RawSince(fs + [f]) == if f.kind == Partial then r + f.raw else r
    ensures var r := if f.reset then "" else ReasoningSince(fs);
            ReasoningSince(fs + [f]) == if f.kind == Partial then r + f.reasoning else r
  {
    var all := fs + [f];
    assert all[..|all| - 1] == fs;
    var tail := all[LastReset(all)..];
    var before := if f.reset then [] else fs[LastReset(fs)..];
    assert tail == before + [f] && tail[..|tail| - 1] == before;
    assert RawOf(before) + "" == RawOf(before) && ReasoningOf(before) + "" == ReasoningOf(before);
  }

  lemma {:induction false} EventsSnoc(read: Reading, fs: seq<Frame>, f: Frame)
    requires Clean(read, fs) && LastPayload(read, fs + [f]).Ok?
    ensures Clean(read, fs + [f])
    ensures Events(read, fs + [f]) == Events(read, fs) + WithReset(f.reset, LastPayload(read, fs + [f]).value)
  {
    assert (fs + [f])[..|fs + [f]| - 1] == fs;
  }

  // ---------------------------------------------------------------- the stream

  function AsEvents(event: Option<Event>, extra: Option<Event>): seq<Event> {
    (if event.Some? then [event.value] else []) + if extra.Some? then [extra.value] else []
  }

  /** What later calls return after err: an error that wraps io.EOF is remembered as plain io.EOF. */
  function Lasting(err: Problem): Problem {
    if IsEof(err) then Eof else err
  }

  /** The accumulators hold the text since the last reset, in raw mode. */
  ghost predicate Accumulated(o: Opening, received: seq<Frame>, raw: string, reasoning: string) {
    && raw == (if o.needRaw then RawSince(received) else "")
    && reasoning == (if o.needRaw then ReasoningSince(received) else "")
  }

  ghost predicate Flattened(read: Reading, received: seq<Frame>, delivered: seq<Event>) {
    Clean(read, received) && delivered == Events(read, received)
  }

  /** The channel closed after frames that are all flattened, or the last frame is the one that failed. */
  ghost predicate Ending(read: Reading, received: seq<Frame>, left: seq<Frame>, delivered: seq<Event>, err: Problem) {
    || (err == Eof && left == [] && Flattened(read, received, delivered))
    || (received != [] && LastPayload(read, received) == Err(err)
        && Flattened(read, received[..|received| - 1], delivered))
  }

  lemma FlattenedSnoc(read: Reading, fs: seq<Frame>, f: Frame, delivered: seq<Event>, more: seq<Event>)
    requires Flattened(read, fs, delivered) && LastPayload(read, fs + [f]).Ok?
    requires more == WithReset(f.reset, LastPayload(read, fs + [f]).value)
    ensures Flattened(read, fs + [f], delivered + more)
  {
    EventsSnoc(read, fs, f);
  }

  lemma Regroup(a: seq<Frame>, b: seq<Frame>)
    requires b != []
    ensures a + [b[0]] + b[1..] == a + b
  {
  }

  lemma HandOver(delivered: seq<Event>, more: seq<Event>)
    requires more != []
    ensures delivered + [more[0]] + more[1..] == delivered + more
  {
  }

  /** Outside raw mode, and on other frames, the accumulated text does not show. */
  lemma TextIsUnused(o: Opening, f: Frame, raw: string, reasoning: string, raw2: string, reasoning2: string)
    requires !o.needRaw || f.kind != Partial
    ensures Payload(o, f, raw, reasoning) == Payload(o, f, raw2, reasoning2)
  {
  }

  class Stream {
    const opening: Opening
    /** False for a stream that newStream did not make. */
    const initialised: bool
    /** What the worker's channel still holds; it is closed after that. */
    var results: seq<Frame>
    var rawAccum: string
    var reasonAccum: string
    var pending: seq<Event>
    var terminated: bool
    var terminatedErr: Option<Problem>
    var closeOnce: bool
    var cleanupOnce: bool

    /** History: frames Next has received, frames Close has drained, events handed out, and the two kinds of release. */
    ghost var received: seq<Frame>
    ghost var drained: seq<Frame>
    ghost var delivered: seq<Event>
    ghost var releases: nat
    ghost var scopeDrops: nat

    ghost predicate Accounted() reads this {
      && releases == |received| + |drained|
      && scopeDrops == (if cleanupOnce then 1 else 0)
      && (terminated ==> cleanupOnce && pending == []) && |pending| <= 1
      && (terminatedErr.Some? ==> terminated && !IsEof(terminatedErr.value))
    }

    /** While it is open, what has been handed out or is pending is the flattening of what has been received. */
    ghost predicate Valid() reads this {
      && Accounted()
      && (!terminated ==>
            Flattened(ReadingOf(opening), received, delivered + pending)
            && Accumulated(opening, received, rawAccum, reasonAccum))
    }

    constructor (o: Opening, frames: seq<Frame>)
      ensures Valid() && !terminated && opening == o && initialised && results == frames
      ensures received == [] && drained == [] && delivered == []
    {
      opening, initialised, results := o, true, frames;
      rawAccum, reasonAccum, pending := "", "", [];
      terminated, terminatedErr, closeOnce, cleanupOnce := false, None, false, false;
      received, drained, delivered, releases, scopeDrops := [], [], [], 0, 0;
    }

    /** The value every later Next returns. */
    ghost function Latched(): Problem reads this {
      if terminatedErr.Some? then terminatedErr.value else Eof
    }

    /** Takes one frame off the channel, translates it and releases it. */
    method Receive() returns (event: Option<Event>, extra: Option<Event>, problem: Option<Problem>)
      requires results != [] && Accumulated(opening, received, rawAccum, reasonAccum)
      requires Flattened(ReadingOf(opening), received, delivered)
      modifies this`results, this`rawAccum, this`reasonAccum, this`received, this`releases
      ensures received == old(received) + [old(results)[0]] && results == old(results)[1..]
              && releases == old(releases) + 1
      ensures problem.Some? ==> LastPayload(ReadingOf(opening), received) == Err(problem.value)
      ensures problem.None? ==>
                && Flattened(ReadingOf(opening), received, delivered + AsEvents(event, extra))
                && (extra.Some? ==> event.Some?)
                && Accumulated(opening, received, rawAccum, reasonAccum)
    {
      var result := results[0];
      results := results[1..];
      event, extra, problem := Translate(result, received);
      if problem.None? { FlattenedSnoc(ReadingOf(opening), received, result, delivered, AsEvents(event, extra)); }
      received := received + [result];
      releases := releases + 1;
    }

    /** finish is the number of frames after which the context is done, if it is done during this call. */
    method Next(finish: Option<nat>, ctxErr: Problem) returns (ev: Option<Event>, err: Option<Problem>)
      requires Valid()
      modifies this
      ensures Valid() && (ev.Some? <==> err.None?)
      ensures !initialised ==> err == Some(UNINITIALISED) && unchanged(this)
      ensures initialised && old(terminated) ==> err == Some(Latched()) && unchanged(this)
      ensures ev.Some? ==> delivered == old(delivered) + [ev.value] && !terminated
      ensures ev.Some? ==> 2 * |results| + |pending| < old(2 * |results| + |pending|)
      ensures ev.None? ==> delivered == old(delivered)
      ensures initialised && err.Some? ==> terminated && Latched() == Lasting(err.value)
      ensures received + results == old(received + results) && drained == old(drained)
      ensures initialised && !old(terminated) && err.Some? ==>
                || Ending(ReadingOf(opening), received, results, delivered, err.value)
                || (finish.Some? && err.value == ctxErr && Flattened(ReadingOf(opening), received, delivered))
    {
      if !initialised { return None, Some(UNINITIALISED); }
      if terminated { return None, Some(if terminatedErr.Some? then terminatedErr.value else Eof); }
      if |pending| > 0 {
        HandOver(delivered, pending);
        ev, err := Some(pending[0]), None;
        pending := pending[1..];
        delivered := delivered + [ev.value];
        return;
      }
      ev, err := ReadOn(finish, ctxErr);
    }

    /** The read loop of Next. */
    method ReadOn(finish: Option<nat>, ctxErr: Problem) returns (ev: Option<Event>, err: Option<Problem>)
      requires Valid() && !terminated && pending == []
      modifies this
      ensures Valid() && (ev.Some? <==> err.None?) && (ev.Some? ==> |results| < old(|results|))
      ensures delivered == old(delivered) + if ev.Some? then [ev.value] else []
      ensures terminated == err.Some? && (err.Some? ==> Latched() == Lasting(err.value))
      ensures received + results == old(received + results) && drained == old(drained)
      ensures err.Some? ==>
                || Ending(ReadingOf(opening), received, results, delivered, err.value)
                || (finish.Some? && err.value == ctxErr && Flattened(ReadingOf(opening), received, delivered))
    {
      var taken := 0;
      assert delivered + pending == delivered;
      while true
        invariant Valid() && !terminated && pending == [] && delivered == old(delivered) && drained == old(drained)
        invariant Flattened(ReadingOf(opening), received, delivered)
        invariant received + results == old(received + results)
        decreases |results|
      {
        if finish == Some(taken) {
          Terminate(ctxErr);
          return None, Some(ctxErr);
        }
        if results == [] {
          Terminate(Eof);
          return None, Some(Eof);
        }
        ev, err := ReadOne();
        if ev.Some? || err.Some? { return; }
        taken := taken + 1;
      }
    }

    /** One turn of the read loop: a frame gives an event, ends the stream, or gives nothing. */
    method ReadOne() returns (ev: Option<Event>, err: Option<Problem>)
      requires Valid() && !terminated && pending == [] && results != []
               && Flattened(ReadingOf(opening), received, delivered)
      modifies this
      ensures Valid() && !(ev.Some? && err.Some?) && |results| < old(|results|)
      ensures delivered == old(delivered) + if ev.Some? then [ev.value] else []
      ensures terminated == err.Some? && (err.Some? ==> Latched() == Lasting(err.value))
      ensures received + results == old(received + results) && drained == old(drained)
      ensures err.Some? ==> Ending(ReadingOf(opening), received, results, delivered, err.value)
      ensures ev.None? && err.None? ==> pending == [] && Flattened(ReadingOf(opening), received, delivered)
    {
      ghost var before := received;
      Regroup(received, results);
      var event, extra, problem := Receive();
      ev, err := None, None;
      if problem.Some? {
        assert received[..|received| - 1] == before;
        Terminate(problem.value);
        err := problem;
      } else if event.Some? {
        if extra.Some? { pending := [extra.value]; }
        HandOver(delivered, AsEvents(event, extra));
        delivered := delivered + [event.value];
        ev := event;
      } else {
        assert delivered + AsEvents(event, extra) == delivered;
      }
    }

    method Translate(result: Frame, ghost before: seq<Frame>)
      returns (event: Option<Event>, extra: Option<Event>, problem: Option<Problem>)
      requires Accumulated(opening, before, rawAccum, reasonAccum)
      modifies this`rawAccum, this`reasonAccum
      ensures var payload := LastPayload(ReadingOf(opening), before + [result]);
              if problem.Some? then payload == Err(problem.value)
              else payload.Ok? && AsEvents(event, extra) == WithReset(result.reset, payload.value)
      ensures problem.None? ==>
                (extra.Some? ==> event.Some?) && Accumulated(opening, before + [result], rawAccum, reasonAccum)
    {
      SinceSnoc(before, result);
      ghost var all := before + [result];
      assert all[|all| - 1] == result;
      event, extra := None, None;
      if result.reset { rawAccum, reasonAccum := "", ""; }
      if !opening.needRaw || result.kind != Partial {
        TextIsUnused(opening, result, RawSince(all), ReasoningSince(all), rawAccum + result.raw,
                     reasonAccum + result.reasoning);
      }
      var payload;
      payload, problem := PayloadOf(result);
      if problem.Some? { return; }
      if result.reset { return Some(ResetEvent), payload, None; }
      return payload, None, None;
    }

    /** The payload by kind; only a partial frame adds to the accumulators. */
    method PayloadOf(result: Frame) returns (payload: Option<Event>, problem: Option<Problem>)
      modifies this`rawAccum, this`reasonAccum
      ensures var grows := problem.None? && opening.needRaw && result.kind == Partial;
              && rawAccum == (if grows then old(rawAccum) + result.raw else old(rawAccum))
              && reasonAccum == (if grows then old(reasonAccum) + result.reasoning else old(reasonAccum))
      ensures var p := Payload(opening, result, old(rawAccum) + result.raw, old(reasonAccum) + result.reasoning);
              if problem.Some? then p == Err(problem.value) else p == Ok(payload)
    {
      payload, problem := None, None;
      match result.kind
      case Error => problem := Some(Labelled(opening.errLabel, result.error));
      case Heartbeat =>
      case Partial => payload, problem := PartialOf(result);
      case Final => payload, problem := FinalOf(result);
      case Metadata => payload, problem := MetadataOf(result);
    }

    method PartialOf(result: Frame) returns (payload: Option<Event>, problem: Option<Problem>)
      requires result.kind == Partial
      modifies this`rawAccum, this`reasonAccum
      ensures rawAccum == if problem.None? && opening.needRaw then old(rawAccum) + result.raw else old(rawAccum)
      ensures reasonAccum ==
              if problem.None? && opening.needRaw then old(reasonAccum) + result.reasoning else old(reasonAccum)
      ensures var p := Payload(opening, result, old(rawAccum) + result.raw, old(reasonAccum) + result.reasoning);
              if problem.Some? then p == Err(problem.value) else p == Ok(payload)
    {
      payload, problem := None, None;
      var flattened := FlattenIfPresent(opening, result.data);
      if flattened.Err? { problem := Some(flattened.error); return; }
      if flattened.value.None? && (!opening.needRaw || (result.raw == "" && result.reasoning == "")) { return; }
      if opening.needRaw {
        rawAccum, reasonAccum := rawAccum + result.raw, reasonAccum + result.reasoning;
        payload := Some(PartialEvent(flattened.value, rawAccum, reasonAccum));
      } else {
        payload := Some(PartialEvent(flattened.value, "", ""));
      }
    }

    method MetadataOf(result: Frame) returns (payload: Option<Event>, problem: Option<Problem>)
      requires result.kind == Metadata
      ensures if problem.Some? then Payload(opening, result, "", "") == Err(problem.value)
              else Payload(opening, result, "", "") == Ok(payload)
    {
      payload, problem := None, None;
      if result.data != "" {
        match opening.codec.metadata(result.data) {
          case Err(p) => problem := Some(p);
          case Ok(md) => payload := Some(MetadataEvent(md));
        }
      }
    }

    method FinalOf(result: Frame) returns (payload: Option<Event>, problem: Option<Problem>)
      requires result.kind == Final
      ensures if problem.Some? then Payload(opening, result, "", "") == Err(problem.value)
              else Payload(opening, result, "", "") == Ok(payload)
    {
      payload, problem := None, None;
      var flattened := FlattenIfPresent(opening, result.data);
      if flattened.Err? { problem := Some(flattened.error); return; }
      var data := flattened.value;
      if data.Some? {
        var finished := opening.codec.finish(data.value);
        if finished.Err? { problem := Some(finished.error); return; }
        data := Some(finished.value);
      }
      payload := Some(FinalEvent(data, if opening.needRaw then result.raw else "",
                                 if opening.needRaw then result.reasoning else ""));
    }

    method Terminate(err: Problem)
      requires pending == [] && !terminated && terminatedErr.None?
      requires releases == |received| + |drained| && scopeDrops == if cleanupOnce then 1 else 0
      modifies this`terminated, this`terminatedErr, this`cleanupOnce, this`scopeDrops
      ensures terminated && Accounted() && terminatedErr == if IsEof(err) then None else Some(err)
    {
      terminated := true;
      if !IsEof(err) { terminatedErr := Some(err); }
      Cleanup();
    }

    method Cleanup()
      requires scopeDrops == if cleanupOnce then 1 else 0
      modifies this`cleanupOnce, this`scopeDrops
      ensures cleanupOnce && scopeDrops == 1
    {
      if !cleanupOnce {
        cleanupOnce := true;
        scopeDrops := scopeDrops + 1;
      }
    }

    /**
      * Close drains what is left, releasing each frame, and drops the scope if nothing has; a second
      * Close does nothing.
      */
    method Close()
      requires Valid()
      modifies this
      ensures Valid() && received == old(received) && delivered == old(delivered)
      ensures old(closeOnce) || !initialised ==> unchanged(this)
      ensures !old(closeOnce) && initialised ==> results == [] && drained == old(drained + results) && scopeDrops == 1
    {
      if !initialised || closeOnce { return; }
      closeOnce := true;
      while results != []
        invariant Accounted() && initialised && received == old(received) && delivered == old(delivered)
        invariant drained + results == old(drained + results)
        invariant terminated == old(terminated) && pending == old(pending)
        invariant rawAccum == old(rawAccum) && reasonAccum == old(reasonAccum)
        decreases |results|
      {
        assert drained + results == drained + [results[0]] + results[1..];
        drained, results := drained + [results[0]], results[1..];
        releases := releases + 1;
      }
      Cleanup();
    }
  }

  // ---------------------------------------------------------------- whole streams

  /** How many frames come before the first that cannot be translated. */
  function CleanLength(read: Reading, fs: seq<Frame>): (n: nat)
    ensures n <= |fs|
  {
    if fs == [] then 0
    else
      var n := CleanLength(read, fs[..|fs| - 1]);
      if n == |fs| - 1 && LastPayload(read, fs).Ok? then |fs| else n
  }

  lemma {:induction false} CleanLengthIs(read: Reading, fs: seq<Frame>, k: nat)
    requires k <= |fs| && Clean(read, fs[..k])
    requires k < |fs| ==> LastPayload(read, fs[..k + 1]).Err?
    ensures CleanLength(read, fs) == k
  {
    if fs != [] {
      if k == |fs| {
        assert fs[..k] == fs;
        assert fs[..|fs| - 1][..k - 1] == fs[..k - 1];
        CleanAll(read, fs);
      } else if k == |fs| - 1 {
        assert fs[..k + 1] == fs;
        CleanAll(read, fs[..k]);
      } else {
        assert fs[..|fs| - 1][..k] == fs[..k] && fs[..|fs| - 1][..k + 1] == fs[..k + 1];
        CleanLengthIs(read, fs[..|fs| - 1], k);
      }
    }
  }

  lemma {:induction false} CleanAll(read: Reading, fs: seq<Frame>)
    requires Clean(read, fs)
    ensures CleanLength(read, fs) == |fs|
  {
    if fs != [] { CleanAll(read, fs[..|fs| - 1]); }
  }

  lemma {:induction false} CleanPrefix(read: Reading, fs: seq<Frame>)
    ensures Clean(read, fs[..CleanLength(read, fs)])
    ensures CleanLength(read, fs) < |fs| ==> LastPayload(read, fs[..CleanLength(read, fs) + 1]).Err?
  {
    if fs != [] {
      var n := CleanLength(read, fs[..|fs| - 1]);
      CleanPrefix(read, fs[..|fs| - 1]);
      assert fs[..|fs| - 1][..n] == fs[..n];
      if n < |fs| - 1 {
        assert fs[..|fs| - 1][..n + 1] == fs[..n + 1];
      } else {
        assert fs[..n + 1] == fs && fs[..n] == fs[..|fs| - 1];
      }
    }
  }

  /** What a stream of frames amounts to: its events, and how it ends. */
  function Flattening(read: Reading, fs: seq<Frame>): (seq<Event>, Problem) {
    CleanPrefix(read, fs);
    var n := CleanLength(read, fs);
    (Events(read, fs[..n]), if n < |fs| then LastPayload(read, fs[..n + 1]).error else Eof)
  }

  lemma EndingIsFlattening(read: Reading, received: seq<Frame>, left: seq<Frame>, delivered: seq<Event>, err: Problem)
    requires Ending(read, received, left, delivered, err)
    ensures Flattening(read, received + left) == (delivered, err)
  {
    var all := received + left;
    if err == Eof && left == [] && Flattened(read, received, delivered) {
      assert all == received && all[..|all|] == all;
      CleanLengthIs(read, all, |all|);
    } else {
      var k := |received| - 1;
      assert all[..k] == received[..k] && all[..k + 1] == received;
      CleanLengthIs(read, all, k);
    }
  }

  /** A caller that reads to the end under a context that is never done gets exactly the flattening. */
  method Consume(s: Stream) returns (events: seq<Event>, end: Problem)
    requires s.Valid() && s.initialised && !s.terminated && s.received == [] && s.delivered == [] && s.pending == []
    modifies s
    ensures s.Valid() && s.initialised && s.terminated
    ensures (events, end) == Flattening(ReadingOf(s.opening), old(s.results))
    ensures s.received + s.results == old(s.results) && s.drained == old(s.drained)
    ensures s.releases == |s.received| + |s.drained| && s.scopeDrops == 1 && s.Latched() == Lasting(end)
    ensures s.opening.needRaw ==>
              forall e | e in events && e.PartialEvent? :: exists i, r :: CarriesText(old(s.results), i, r, e)
  {
    events := [];
    ghost var all := s.results;
    while true
      invariant s.Valid() && s.initialised && !s.terminated && s.delivered == events && s.received + s.results == all
      invariant s.drained == old(s.drained)
      decreases 2 * |s.results| + |s.pending|
    {
      var ev, err := s.Next(None, Eof);
      if err.Some? {
        EndingIsFlattening(ReadingOf(s.opening), s.received, s.results, s.delivered, err.value);
        if s.opening.needRaw { PartialsCarryText(s.opening, all); }
        return events, err.value;
      }
      events := events + [ev.value];
    }
  }

  /**
    * A caller that reads on after the end: whatever ended the stream, a worker's
    * error, a decoder's, the context's or the closed channel, every later call
    * returns the same error if and only if that error does not wrap io.EOF.
    */
  method ReadPastEnd(s: Stream, contexts: nat -> Option<nat>, ctxErr: Problem, more: nat)
    returns (err: Problem, later: seq<Problem>)
    requires s.Valid()
    modifies s
    ensures s.Valid() && |later| == more
    ensures forall i | 0 <= i < more :: later[i] == err <==> err == Eof || !err.wrapsEof
    ensures forall i | 0 <= i < more && later[i] != err :: later[i] == Eof
  {
    var calls := 0;
    var first: Option<Problem> := None;
    while first.None?
      invariant s.Valid()
      invariant first.Some? ==>
                  if s.initialised
                  then s.terminated && s.Latched() == Lasting(first.value)
                  else first.value == UNINITIALISED
      decreases first.None?, 2 * |s.results| + |s.pending|
    {
      var ev;
      ev, first := s.Next(contexts(calls), ctxErr);
      calls := calls + 1;
    }
    err, later := first.value, [];
    while |later| < more
      invariant s.Valid() && |later| <= more
      invariant if s.initialised then s.terminated && s.Latched() == Lasting(err) else err == UNINITIALISED
      invariant forall i | 0 <= i < |later| :: later[i] == Lasting(err)
    {
      var ev, again := s.Next(contexts(calls), ctxErr);
      calls := calls + 1;
      later := later + [again.value];
    }
  }

  /** Such an input is real: a worker's error frame that wraps io.EOF is returned once and never again. */
  method ReplacedByEof(codec: Codec) returns (first: Problem, second: Problem)
    ensures first == Fail("dynamic stream", true) && second == Eof
  {
    var f := Frame(Error, "", "", "", Fail("worker: EOF", true), false);
    var s := new Stream(Opening(codec, false, "dynamic stream"), [f]);
    var events;
    ghost var read := ReadingOf(s.opening);
    assert [f][..0] == [] && [f][..1] == [f];
    CleanLengthIs(read, [f], 0);
    events, first := Consume(s);
    var ev, again := s.Next(None, Eof);
    second := again.value;
  }

  lemma {:induction false} EventsAt(read: Reading, fs: seq<Frame>, i: nat, payload: Option<Event>)
    requires Clean(read, fs) && i < |fs| && LastPayload(read, fs[..i + 1]) == Ok(payload)
    ensures Clean(read, fs[..i]) && Events(read, fs[..i]) + WithReset(fs[i].reset, payload) <= Events(read, fs)
  {
    if i == |fs| - 1 {
      assert fs[..i + 1] == fs;
    } else {
      var init := fs[..|fs| - 1];
      assert init[..i + 1] == fs[..i + 1] && init[..i] == fs[..i];
      EventsAt(read, init, i, payload);
    }
  }

  /** A frame's Reset event comes immediately before its payload. */
  lemma {:induction false} ResetComesJustBefore(read: Reading, fs: seq<Frame>, i: nat, payload: Option<Event>)
    requires Clean(read, fs) && i < |fs| && fs[i].reset && LastPayload(read, fs[..i + 1]) == Ok(payload)
    ensures Clean(read, fs[..i])
    ensures var at, events := |Events(read, fs[..i])|, Events(read, fs);
            && at < |events| && events[at] == ResetEvent
            && (payload.Some? ==> at + 1 < |events| && events[at + 1] == payload.value)
  {
    EventsAt(read, fs, i, payload);
    StandsAfter(Events(read, fs[..i]), payload, Events(read, fs[..i]) + WithReset(true, payload), Events(read, fs));
  }

  /** A reset and its payload, appended to before, stand right after it in every longer sequence. */
  lemma StandsAfter(before: seq<Event>, payload: Option<Event>, upTo: seq<Event>, all: seq<Event>)
    requires upTo == before + WithReset(true, payload) && upTo <= all
    ensures |before| < |all| && all[|before|] == ResetEvent
    ensures payload.Some? ==> |before| + 1 < |all| && all[|before| + 1] == payload.value
  {
    assert all[|before|] == upTo[|before|];
    if payload.Some? { assert all[|before| + 1] == upTo[|before| + 1]; }
  }

  lemma {:induction false} NoResetSince(fs: seq<Frame>, i: nat)
    requires LastReset(fs) < i < |fs|
    ensures !fs[i].reset
  {
    if i < |fs| - 1 { NoResetSince(fs[..|fs| - 1], i); }
  }

  lemma PartialPayload(o: Opening, f: Frame, raw: string, reasoning: string, d: Option<string>, r: string, t: string)
    requires o.needRaw && Payload(o, f, raw, reasoning) == Ok(Some(PartialEvent(d, r, t)))
    ensures f.kind == Partial && r == raw && t == reasoning
  {
    match f.kind
    case Partial =>
    case Final =>
      match FlattenIfPresent(o, f.data) {
        case Err(_) =>
        case Ok(None) =>
        case Ok(Some(x)) => match o.codec.finish(x) { case Err(_) => case Ok(_) => }
      }
    case _ =>
  }

  lemma {:induction false} LastResetIs(fs: seq<Frame>)
    ensures LastReset(fs) == 0 || fs[LastReset(fs)].reset
  {
    if fs != [] && !fs[|fs| - 1].reset { LastResetIs(fs[..|fs| - 1]); }
  }

  /** e is the event of the partial frame i and carries all text from frame r on, the last reset or the start. */
  ghost predicate CarriesText(fs: seq<Frame>, i: nat, r: nat, e: Event) {
    && r <= i < |fs| && fs[i].kind == Partial && (r == 0 || fs[r].reset) && (forall k | r < k <= i :: !fs[k].reset)
    && e.PartialEvent? && e.raw == RawOf(fs[r..i + 1]) && e.reasoning == ReasoningOf(fs[r..i + 1])
  }

  lemma {:induction false} NoneSince(fs: seq<Frame>)
    ensures forall k | LastReset(fs) < k <= |fs| - 1 :: !fs[k].reset
  {
    forall k | LastReset(fs) < k <= |fs| - 1 ensures !fs[k].reset { NoResetSince(fs, k); }
  }

  lemma LastText(o: Opening, fs: seq<Frame>, d: Option<string>, raw: string, reasoning: string)
    requires o.needRaw && fs != [] && LastPayload(ReadingOf(o), fs) == Ok(Some(PartialEvent(d, raw, reasoning)))
    ensures fs[|fs| - 1].kind == Partial && raw == RawSince(fs) && reasoning == ReasoningSince(fs)
  {
    PartialPayload(o, fs[|fs| - 1], RawSince(fs), ReasoningSince(fs), d, raw, reasoning);
  }

  lemma {:induction false} TextOfLast(fs: seq<Frame>, d: Option<string>)
    requires fs != [] && fs[|fs| - 1].kind == Partial
    ensures CarriesText(fs, |fs| - 1, LastReset(fs), PartialEvent(d, RawSince(fs), ReasoningSince(fs)))
  {
    LastResetIs(fs);
    NoneSince(fs);
    assert fs[LastReset(fs)..|fs| - 1 + 1] == fs[LastReset(fs)..];
  }

  lemma {:induction false} EventCarriesText(o: Opening, fs: seq<Frame>, e: Event)
    requires o.needRaw && Clean(ReadingOf(o), fs) && e in Events(ReadingOf(o), fs) && e.PartialEvent?
    ensures exists i, r :: CarriesText(fs, i, r, e)
  {
    var init := fs[..|fs| - 1];
    if e in Events(ReadingOf(o), init) {
      EventCarriesText(o, init, e);
      var i, r :| CarriesText(init, i, r, e);
      StillCarries(init, fs, i, r, e);
    } else {
      LastText(o, fs, e.data, e.raw, e.reasoning);
      TextOfLast(fs, e.data);
    }
  }

  lemma StillCarries(fs: seq<Frame>, longer: seq<Frame>, i: nat, r: nat, e: Event)
    requires CarriesText(fs, i, r, e) && fs <= longer
    ensures CarriesText(longer, i, r, e)
  {
    assert longer[r..i + 1] == fs[r..i + 1];
  }

  /** In raw mode each partial event of a stream carries all raw and reasoning text since the last reset. */
  lemma PartialsCarryText(o: Opening, fs: seq<Frame>)
    requires o.needRaw
    ensures forall e | e in Flattening(ReadingOf(o), fs).0 && e.PartialEvent? :: exists i, r :: CarriesText(fs, i, r, e)
  {
    var n := CleanLength(ReadingOf(o), fs);
    CleanPrefix(ReadingOf(o), fs);
    forall e | e in Flattening(ReadingOf(o), fs).0 && e.PartialEvent? ensures exists i, r :: CarriesText(fs, i, r, e) {
      EventCarriesText(o, fs[..n], e);
      var i, r :| CarriesText(fs[..n], i, r, e);
      StillCarries(fs[..n], fs, i, r, e);
    }
  }

  // ---------------------------------------------------------------- what each frame shows

  /** The payload without its envelope; none for an empty frame. */
  ghost predicate Unwrapped(o: Opening, data: string, shown: Option<string>) {
    if data == "" then shown.None? else shown.Some? && o.codec.flatten(data) == Ok(shown.value)
  }

  /** A final frame's event: its payload after the final passes, and in raw mode the frame's own text. */
  ghost predicate IsFinalOf(o: Opening, f: Frame, e: Event) {
    && f.kind == Final && e.FinalEvent?
    && (f.data == "" ==> e.data.None?)
    && (f.data != "" ==>
          && e.data.Some? && o.codec.flatten(f.data).Ok?
          && o.codec.finish(o.codec.flatten(f.data).value) == Ok(e.data.value))
    && e.raw == (if o.needRaw then f.raw else "") && e.reasoning == (if o.needRaw then f.reasoning else "")
  }

  /** A partial frame's event, the accumulated text apart: that is shown in raw mode only. */
  ghost predicate IsPartialOf(o: Opening, f: Frame, e: Event) {
    && f.kind == Partial && e.PartialEvent? && Unwrapped(o, f.data, e.data)
    && (!o.needRaw ==> e.raw == "" && e.reasoning == "")
  }

  /** A partial or metadata frame that has nothing to show. */
  predicate IsSilent(o: Opening, f: Frame) {
    || f.kind == Heartbeat
    || (f.kind == Metadata && f.data == "")
    || (f.kind == Partial && f.data == "" && (!o.needRaw || (f.raw == "" && f.reasoning == "")))
  }

  ghost predicate ShowsPayload(o: Opening, f: Frame, es: seq<Event>) {
    if IsSilent(o, f) then es == []
    else
      && |es| == 1
      && if f.kind == Metadata then es[0].MetadataEvent? && o.codec.metadata(f.data) == Ok(es[0].metadata)
         else if f.kind == Partial then IsPartialOf(o, f, es[0])
         else IsFinalOf(o, f, es[0])
  }

  /** What a client sees of one frame: a Reset if the frame asks for one, then its payload. */
  ghost predicate Shows(o: Opening, f: Frame, es: seq<Event>) {
    if f.reset then es != [] && es[0] == ResetEvent && ShowsPayload(o, f, es[1..]) else ShowsPayload(o, f, es)
  }

  /** Why a frame ends the stream: it is an error, or one of its decoders fails. */
  ghost predicate Fails(o: Opening, f: Frame, end: Problem) {
    match f.kind
    case Error => end == Fail(o.errLabel, IsEof(f.error))
    case Heartbeat => false
    case Metadata => o.codec.metadata(f.data) == Err(end)
    case Partial => o.codec.flatten(f.data) == Err(end)
    case Final =>
      || o.codec.flatten(f.data) == Err(end)
      || (o.codec.flatten(f.data).Ok? && o.codec.finish(o.codec.flatten(f.data).value) == Err(end))
  }

  lemma PayloadShows(o: Opening, f: Frame, raw: string, reasoning: string)
    ensures var p := Payload(o, f, raw, reasoning);
            && (p.Ok? ==> ShowsPayload(o, f, if p.value.Some? then [p.value.value] else []))
            && (p.Err? ==> Fails(o, f, p.error))
  {
    match f.kind
    case Partial => match FlattenIfPresent(o, f.data) { case Err(_) => case Ok(_) => }
    case Final =>
      match FlattenIfPresent(o, f.data) {
        case Err(_) =>
        case Ok(None) =>
        case Ok(Some(x)) => match o.codec.finish(x) { case Err(_) => case Ok(_) => }
      }
    case _ =>
  }

  lemma ResetShows(o: Opening, f: Frame, p: Option<Event>)
    requires ShowsPayload(o, f, if p.Some? then [p.value] else [])
    ensures Shows(o, f, WithReset(f.reset, p))
  {
    if f.reset { assert WithReset(true, p)[1..] == if p.Some? then [p.value] else []; }
  }

  lemma LastShows(o: Opening, fs: seq<Frame>)
    requires fs != [] && Clean(ReadingOf(o), fs)
    ensures var before, all := Events(ReadingOf(o), fs[..|fs| - 1]), Events(ReadingOf(o), fs);
            before <= all && Shows(o, fs[|fs| - 1], all[|before|..])
  {
    var f, p := fs[|fs| - 1], LastPayload(ReadingOf(o), fs).value;
    PayloadShows(o, f, RawSince(fs), ReasoningSince(fs));
    ResetShows(o, f, p);
    var before := Events(ReadingOf(o), fs[..|fs| - 1]);
    assert (before + WithReset(f.reset, p))[|before|..] == WithReset(f.reset, p);
  }

  lemma {:induction false} CleanEvents(read: Reading, fs: seq<Frame>)
    requires Clean(read, fs)
    ensures Flattening(read, fs) == (Events(read, fs), Eof)
  {
    CleanAll(read, fs);
    assert fs[..|fs|] == fs;
  }

  lemma {:induction false} CleanPrefixes(read: Reading, fs: seq<Frame>, i: nat)
    requires Clean(read, fs) && i <= |fs|
    ensures Clean(read, fs[..i]) && Events(read, fs[..i]) <= Events(read, fs)
  {
    if i == |fs| {
      assert fs[..i] == fs;
    } else {
      var init := fs[..|fs| - 1];
      assert init[..i] == fs[..i];
      CleanPrefixes(read, init, i);
    }
  }

  /** Up to the end the flattening of a prefix is a prefix of the flattening. */
  lemma {:induction false} PrefixEvents(read: Reading, fs: seq<Frame>, i: nat)
    requires i <= CleanLength(read, fs)
    ensures Clean(read, fs[..i]) && Flattening(read, fs[..i]) == (Events(read, fs[..i]), Eof)
    ensures Events(read, fs[..i]) <= Flattening(read, fs).0
  {
    var clean := fs[..CleanLength(read, fs)];
    CleanPrefix(read, fs);
    CleanPrefixes(read, clean, i);
    assert clean[..i] == fs[..i];
    CleanEvents(read, fs[..i]);
  }

  /**
    * Each frame before the end adds to the events exactly what it shows: a Reset if it asks for one, then its
    * decoded payload, and for a final frame the payload the final passes gave.
    */
  lemma {:induction false} FrameShows(o: Opening, fs: seq<Frame>, i: nat)
    requires i < CleanLength(ReadingOf(o), fs)
    ensures var read := ReadingOf(o);
            var before, after := Flattening(read, fs[..i]).0, Flattening(read, fs[..i + 1]).0;
            before <= after <= Flattening(read, fs).0 && Shows(o, fs[i], after[|before|..])
  {
    PrefixEvents(ReadingOf(o), fs, i);
    PrefixEvents(ReadingOf(o), fs, i + 1);
    NextShows(o, fs[..i + 1], fs[..i]);
  }

  lemma {:induction false} NextShows(o: Opening, fs: seq<Frame>, init: seq<Frame>)
    requires fs != [] && init == fs[..|fs| - 1] && Clean(ReadingOf(o), fs) && Clean(ReadingOf(o), init)
    ensures var before, all := Events(ReadingOf(o), init), Events(ReadingOf(o), fs);
            before <= all && Shows(o, fs[|fs| - 1], all[|before|..])
  {
    LastShows(o, fs);
  }

  /** The stream ends at the first frame that cannot be shown, with its reason, or after the last one with io.EOF. */
  lemma {:induction false} EndShows(o: Opening, fs: seq<Frame>)
    ensures var n, end := CleanLength(ReadingOf(o), fs), Flattening(ReadingOf(o), fs).1;
            if n < |fs| then Fails(o, fs[n], end) else end == Eof
  {
    var n := CleanLength(ReadingOf(o), fs);
    CleanPrefix(ReadingOf(o), fs);
    if n < |fs| {
      var upTo := fs[..n + 1];
      PayloadShows(o, fs[n], RawSince(upTo), ReasoningSince(upTo));
    }
  }
}
