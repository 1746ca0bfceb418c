/**
  * The worker's stderr ring buffer. Its state is a function of every byte ever
  * written, so how the bytes were split into writes does not matter.
  */
module StderrTail {

  type u8 = n: nat | n < 256

  const NL: u8 := 10

  const MAX_LINES: nat := 100
  const MAX_BYTES: nat := 64 * 1024

  // ---------------------------------------------------------------- what should be retained

  /** The lines that a newline has ended. */
  function LinesOf(h: seq<u8>): seq<seq<u8>> {
    if h == [] then []
    else if h[|h| - 1] == NL then LinesOf(h[..|h| - 1]) + [OpenOf(h[..|h| - 1])]
    else LinesOf(h[..|h| - 1])
  }

  /** The bytes after the last newline. */
  function OpenOf(h: seq<u8>): seq<u8> {
    if h == [] || h[|h| - 1] == NL then [] else OpenOf(h[..|h| - 1]) + [h[|h| - 1]]
  }

  /** The last max bytes. */
  function Tail(s: seq<u8>, max: nat): seq<u8> {
    if |s| <= max then s else s[|s| - max..]
  }

  function Tails(lines: seq<seq<u8>>, max: nat): seq<seq<u8>> {
    seq(|lines|, i requires 0 <= i < |lines| => Tail(lines[i], max))
  }

  function Bytes(lines: seq<seq<u8>>): nat {
    if lines == [] then 0 else |lines[0]| + Bytes(lines[1..])
  }

  datatype Caps = Caps(lines: nat, bytes: nat)

  /** The lines fit with the open line beside them, which counts as a line unless it is empty. */
  predicate Fits(lines: seq<seq<u8>>, caps: Caps, open: nat) {
    |lines| + (if open > 0 then 1 else 0) <= caps.lines && Bytes(lines) + open <= caps.bytes
  }

  /** The lines without the oldest ones that do not fit. */
  function Trim(lines: seq<seq<u8>>, caps: Caps, open: nat): seq<seq<u8>> {
    if lines == [] || Fits(lines, caps, open) then lines else Trim(lines[1..], caps, open)
  }

  function Retained(h: seq<u8>, caps: Caps): seq<seq<u8>> {
    Trim(Tails(LinesOf(h), caps.bytes), caps, |Tail(OpenOf(h), caps.bytes)|)
  }

  ghost predicate IsSuffix<T>(tail: seq<T>, s: seq<T>) {
    |tail| <= |s| && tail == s[|s| - |tail|..]
  }

  /** Trimming leaves a suffix that fits, or nothing. */
  lemma {:induction false} TrimFits(lines: seq<seq<u8>>, caps: Caps, open: nat)
    ensures IsSuffix(Trim(lines, caps, open), lines)
    ensures Trim(lines, caps, open) != [] ==> Fits(Trim(lines, caps, open), caps, open)
  {
    if lines != [] && !Fits(lines, caps, open) { TrimFits(lines[1..], caps, open); }
  }

  /** No longer suffix fits. */
  lemma {:induction false} LongerDoesNotFit(lines: seq<seq<u8>>, caps: Caps, open: nat, k: nat)
    requires |Trim(lines, caps, open)| < k <= |lines|
    ensures !Fits(lines[|lines| - k..], caps, open)
  {
    if k < |lines| {
      LongerDoesNotFit(lines[1..], caps, open, k);
      assert lines[|lines| - k..] == lines[1..][|lines[1..]| - k..];
    } else {
      assert lines[0..] == lines;
    }
  }

  // ---------------------------------------------------------------- why trimming early is harmless

  lemma {:induction false} BytesSnoc(lines: seq<seq<u8>>, x: seq<u8>)
    ensures Bytes(lines + [x]) == Bytes(lines) + |x|
  {
    if lines != [] {
      BytesSnoc(lines[1..], x);
      assert (lines + [x])[1..] == lines[1..] + [x];
    } else {
      assert lines + [x] == [x] && [x][1..] == [];
    }
  }

  /** Trimming for a shorter open line first changes nothing. */
  lemma {:induction false} TrimGrows(lines: seq<seq<u8>>, caps: Caps, open: nat, longer: nat)
    requires open <= longer
    ensures Trim(Trim(lines, caps, open), caps, longer) == Trim(lines, caps, longer)
  {
    if lines != [] && !Fits(lines, caps, open) { TrimGrows(lines[1..], caps, open, longer); }
  }

  /** Nor does trimming beside an open line that then becomes the next line. */
  lemma {:induction false} TrimThenAppend(lines: seq<seq<u8>>, caps: Caps, open: nat, x: seq<u8>)
    requires open <= |x|
    ensures Trim(Trim(lines, caps, open) + [x], caps, 0) == Trim(lines + [x], caps, 0)
  {
    if lines != [] && !Fits(lines, caps, open) {
      BytesSnoc(lines, x);
      assert (lines + [x])[1..] == lines[1..] + [x];
      TrimThenAppend(lines[1..], caps, open, x);
    }
  }

  lemma TailOfTail(a: seq<u8>, b: seq<u8>, max: nat)
    ensures Tail(Tail(a, max) + b, max) == Tail(a + b, max)
  {
  }

  lemma {:induction false} OpenGrows(h: seq<u8>, c: seq<u8>)
    requires NL !in c
    ensures OpenOf(h + c) == OpenOf(h) + c && LinesOf(h + c) == LinesOf(h)
  {
    if c == [] {
      assert h + c == h;
    } else {
      assert c[|c| - 1] in c;
      OpenGrows(h, c[..|c| - 1]);
      assert (h + c)[..|h + c| - 1] == h + c[..|c| - 1];
    }
  }

  lemma {:induction false} LineEnds(h: seq<u8>, c: seq<u8>)
    requires NL !in c
    ensures LinesOf(h + c + [NL]) == LinesOf(h) + [OpenOf(h) + c] && OpenOf(h + c + [NL]) == []
  {
    OpenGrows(h, c);
    assert (h + c + [NL])[..|h + c + [NL]| - 1] == h + c;
  }

  /** The state after a line is completed, from the state before. */
  lemma {:induction false} RetainedLine(h: seq<u8>, c: seq<u8>, caps: Caps)
    requires NL !in c
    ensures Retained(h + c + [NL], caps) ==
            Trim(Retained(h, caps) + [Tail(Tail(OpenOf(h), caps.bytes) + c, caps.bytes)], caps, 0)
  {
    var x := Tail(OpenOf(h) + c, caps.bytes);
    LineEnds(h, c);
    TailOfTail(OpenOf(h), c, caps.bytes);
    assert Tails(LinesOf(h) + [OpenOf(h) + c], caps.bytes) == Tails(LinesOf(h), caps.bytes) + [x];
    TrimThenAppend(Tails(LinesOf(h), caps.bytes), caps, |Tail(OpenOf(h), caps.bytes)|, x);
  }

  /** The state after bytes without a newline. */
  lemma {:induction false} RetainedOpen(h: seq<u8>, c: seq<u8>, caps: Caps)
    requires NL !in c
    ensures Tail(OpenOf(h + c), caps.bytes) == Tail(Tail(OpenOf(h), caps.bytes) + c, caps.bytes)
    ensures Retained(h + c, caps) == Trim(Retained(h, caps), caps, |Tail(OpenOf(h + c), caps.bytes)|)
  {
    OpenGrows(h, c);
    TailOfTail(OpenOf(h), c, caps.bytes);
    TrimGrows(Tails(LinesOf(h), caps.bytes), caps, |Tail(OpenOf(h), caps.bytes)|, |Tail(OpenOf(h + c), caps.bytes)|);
  }

  // ---------------------------------------------------------------- the buffer

  function Join(lines: seq<seq<u8>>): seq<u8> {
    if lines == [] then [] else if |lines| == 1 then lines[0] else lines[0] + [NL] + Join(lines[1..])
  }

  lemma {:induction false} JoinSnoc(lines: seq<seq<u8>>, x: seq<u8>)
    ensures Join(lines + [x]) == if lines == [] then x else Join(lines) + [NL] + x
  {
    if lines != [] {
      assert (lines + [x])[1..] == lines[1..] + [x];
      JoinSnoc(lines[1..], x);
      if |lines| == 1 { assert lines[1..] == []; }
    }
  }

  /** The ended lines and the open one are the bytes split at newlines: joined again they are the bytes. */
  lemma {:induction false} JoinOfSplit(h: seq<u8>)
    ensures Join(LinesOf(h) + [OpenOf(h)]) == h
  {
    if h != [] {
      var init, c := h[..|h| - 1], h[|h| - 1];
      JoinOfSplit(init);
      JoinSnoc(LinesOf(init), OpenOf(init));
      if c == NL {
        JoinSnoc(LinesOf(init) + [OpenOf(init)], []);
      } else {
        JoinSnoc(LinesOf(init), OpenOf(init) + [c]);
      }
      assert h == init + [c];
    }
  }

  ghost predicate NoNewlines(lines: seq<seq<u8>>) {
    forall i | 0 <= i < |lines| :: NL !in lines[i]
  }

  lemma {:induction false} LinesAppend(x: seq<u8>, y: seq<u8>)
    requires OpenOf(x) == []
    ensures LinesOf(x + y) == LinesOf(x) + LinesOf(y) && OpenOf(x + y) == OpenOf(y)
  {
    if y == [] {
      assert x + y == x;
    } else {
      assert (x + y)[..|x + y| - 1] == x + y[..|y| - 1];
      LinesAppend(x, y[..|y| - 1]);
    }
  }

  /** Lines that hold no newline are what their join splits into. */
  lemma {:induction false} SplitOfJoin(lines: seq<seq<u8>>)
    requires lines != [] && NoNewlines(lines)
    ensures LinesOf(Join(lines) + [NL]) == lines
  {
    LineEnds([], lines[0]);
    assert [] + lines[0] + [NL] == lines[0] + [NL];
    if |lines| > 1 {
      SplitOfJoin(lines[1..]);
      LinesAppend(lines[0] + [NL], Join(lines[1..]) + [NL]);
      assert Join(lines) + [NL] == lines[0] + [NL] + (Join(lines[1..]) + [NL]);
    }
  }

  lemma {:induction false} LinesHoldNoNewline(h: seq<u8>)
    ensures NoNewlines(LinesOf(h)) && NL !in OpenOf(h)
  {
    if h != [] { LinesHoldNoNewline(h[..|h| - 1]); }
  }

  lemma {:induction false} RetainedHoldsNoNewline(h: seq<u8>, caps: Caps)
    ensures NoNewlines(Retained(h, caps)) && NL !in Tail(OpenOf(h), caps.bytes)
  {
    LinesHoldNoNewline(h);
    var tails := Tails(LinesOf(h), caps.bytes);
    TrimFits(tails, caps, |Tail(OpenOf(h), caps.bytes)|);
    var kept := Retained(h, caps);
    forall i | 0 <= i < |kept| ensures NL !in kept[i] { assert kept[i] == tails[|tails| - |kept| + i]; }
  }

  /** The first newline, or -1. */
  method IndexNewline(s: seq<u8>) returns (i: int)
    ensures i == -1 ==> NL !in s
    ensures i != -1 ==> 0 <= i < |s| && s[i] == NL && NL !in s[..i]
  {
    i := 0;
    while i < |s|
      invariant 0 <= i <= |s| && NL !in s[..i]
    {
      if s[i] == NL { return; }
      i := i + 1;
    }
    i := -1;
  }

  lemma SplitLine(h: seq<u8>, rest: seq<u8>, i: nat)
    requires i < |rest| && rest[i] == NL
    ensures h + rest == h + rest[..i] + [NL] + rest[i + 1..]
  {
  }

  class RingBuffer {
    var lines: seq<seq<u8>>
    var curBytes: int
    var partial: seq<u8>
    const caps: Caps
    /** Every byte written so far. */
    ghost var history: seq<u8>

    ghost predicate Valid() reads this {
      && lines == Retained(history, caps) && curBytes == Bytes(lines)
      && partial == Tail(OpenOf(history), caps.bytes)
    }

    constructor ()
      ensures Valid() && history == [] && caps == Caps(MAX_LINES, MAX_BYTES)
    {
      lines, curBytes, partial, history := [], 0, [], [];
      caps := Caps(MAX_LINES, MAX_BYTES);
    }

    /** Write splits p into lines; afterwards the buffer is what the longer history asks for. */
    method Write(p: seq<u8>) returns (n: nat)
      requires Valid()
      modifies this
      ensures Valid() && history == old(history) + p && n == |p|
    {
      n := |p|;
      var rest := p;
      while true
        invariant Valid() && history + rest == old(history) + p
        decreases |rest|
      {
        var i := IndexNewline(rest);
        if i < 0 {
          HoldOpen(rest);
          break;
        }
        SplitLine(history, rest, i);
        EndLine(rest[..i]);
        rest := rest[i + 1..];
      }
    }

    /** Bytes up to a newline end the open line. */
    method EndLine(c: seq<u8>)
      requires Valid() && NL !in c
      modifies this
      ensures Valid() && history == old(history) + c + [NL]
    {
      RetainedLine(history, c, caps);
      LineEnds(history, c);
      var line := partial + c;
      partial := [];
      AppendLine(line);
      history := history + c + [NL];
    }

    /** Bytes without a newline stay in the open line. */
    method HoldOpen(c: seq<u8>)
      requires Valid() && NL !in c
      modifies this
      ensures Valid() && history == old(history) + c
    {
      RetainedOpen(history, c, caps);
      partial := partial + c;
      if |partial| > caps.bytes { partial := partial[|partial| - caps.bytes..]; }
      EnforceBounds();
      history := history + c;
    }

    method AppendLine(line: seq<u8>)
      requires curBytes == Bytes(lines)
      modifies this`lines, this`curBytes
      ensures lines == Trim(old(lines) + [Tail(line, caps.bytes)], caps, |partial|) && curBytes == Bytes(lines)
    {
      var kept := line;
      if |kept| > caps.bytes { kept := kept[|kept| - caps.bytes..]; }
      BytesSnoc(lines, kept);
      lines := lines + [kept];
      curBytes := curBytes + |kept|;
      EnforceBounds();
    }

    /** The eviction loop. */
    method EnforceBounds()
      requires curBytes == Bytes(lines)
      modifies this`lines, this`curBytes
      ensures lines == Trim(old(lines), caps, |partial|) && curBytes == Bytes(lines)
    {
      var extraLines := if |partial| > 0 then 1 else 0;
      while |lines| > 0 && (|lines| + extraLines > caps.lines || curBytes + |partial| > caps.bytes)
        invariant curBytes == Bytes(lines)
        invariant Trim(lines, caps, |partial|) == Trim(old(lines), caps, |partial|)
        decreases |lines|
      {
        curBytes := curBytes - |lines[0]|;
        lines := lines[1..];
      }
    }

    /** What snapshot shows: the retained lines, and the open line when it is not empty. */
    ghost function Shown(): seq<seq<u8>> reads this {
      if partial == [] then lines else lines + [partial]
    }

    method Snapshot() returns (text: seq<u8>, count: nat)
      requires Valid()
      ensures text == Join(Shown()) && count == |Shown()|
      ensures count > 0 ==> LinesOf(text + [NL]) == Shown()
      ensures Bytes(Shown()) <= caps.bytes && (caps.lines > 0 ==> count <= caps.lines)
    {
      TrimFits(Tails(LinesOf(history), caps.bytes), caps, |partial|);
      BytesSnoc(lines, partial);
      RetainedHoldsNoNewline(history, caps);
      if Shown() != [] { SplitOfJoin(Shown()); }
      if |lines| == 0 && |partial| == 0 { return [], 0; }
      var out := lines;
      if |partial| > 0 { out := out + [partial]; }
      return Join(out), |out|;
    }
  }

  function Concat(chunks: seq<seq<u8>>): seq<u8> {
    if chunks == [] then [] else Concat(chunks[..|chunks| - 1]) + chunks[|chunks| - 1]
  }

  /**
    * Of two buffers in the same state one is written any chunks one after the
    * other, the other their concatenation at once: they end in the same state
    * and show the same.
    */
  method WriteInChunks(a: RingBuffer, b: RingBuffer, chunks: seq<seq<u8>>)
    requires a != b && a.Valid() && b.Valid() && a.caps == b.caps && a.history == b.history
    modifies a, b
    ensures a.Valid() && b.Valid() && a.history == old(a.history) + Concat(chunks)
    ensures a.lines == b.lines && a.curBytes == b.curBytes && a.partial == b.partial && a.Shown() == b.Shown()
  {
    var i := 0;
    while i < |chunks|
      invariant 0 <= i <= |chunks| && a.Valid() && b.Valid() && b.history == old(b.history)
      invariant a.history == old(a.history) + Concat(chunks[..i])
    {
      var n := a.Write(chunks[i]);
      assert chunks[..i + 1][..i] == chunks[..i];
      i := i + 1;
    }
    assert chunks[..i] == chunks;
    var n := b.Write(Concat(chunks));
  }

  /** The buffer is the longest suffix of the tail-truncated lines that fits both caps beside the open line. */
  lemma HoldsLongestSuffix(r: RingBuffer, k: nat)
    requires r.Valid()
    ensures var all := Tails(LinesOf(r.history), r.caps.bytes);
            && IsSuffix(r.lines, all)
            && (r.lines != [] ==> Fits(r.lines, r.caps, |r.partial|))
            && (|r.lines| < k <= |all| ==> !Fits(all[|all| - k..], r.caps, |r.partial|))
  {
    var all := Tails(LinesOf(r.history), r.caps.bytes);
    TrimFits(all, r.caps, |r.partial|);
    if |r.lines| < k <= |all| { LongerDoesNotFit(all, r.caps, |r.partial|, k); }
  }
}
