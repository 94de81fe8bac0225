/** The reconnecting client of internal/tab/claudeagent/ptyclient.go: it joins
    DATA frames back into newline-terminated lines, each with the offset to
    resume from after it. */
module PipeClient {
  import opened Bytes
  import opened Ring

  const NEWLINE: byte := 10

  /** A complete line without its newline, and the absolute offset just after it. */
  datatype Line = Line(text: seq<byte>, end: nat)

  datatype Cut = Cut(lines: seq<Line>, rest: seq<byte>)

  /** bytes.IndexByte: the first newline, or -1. */
  function IndexNewline(b: seq<byte>): (i: int)
    ensures -1 <= i < |b|
    ensures i >= 0 ==> b[i] == NEWLINE && NEWLINE !in b[..i]
    ensures i == -1 ==> NEWLINE !in b
    decreases |b|
  {
    if b == [] then -1
    else
      var n := |b| - 1;
      var i := IndexNewline(b[..n]);
      assert b == b[..n] + [b[n]];
      if i >= 0 then assert b[..n][..i] == b[..i]; i
      else if b[n] == NEWLINE then n
      else -1
  }

  /** The complete lines of `b`, whose first byte is at offset `start`. */
  function CutLines(b: seq<byte>, start: nat): (c: Cut)
    ensures |c.rest| <= |b|
    decreases |b|
  {
    if b == [] then Cut([], [])
    else Push(CutLines(b[..|b| - 1], start), b[|b| - 1], start + |b|)
  }

  /** One more byte, after which the offset is `end`. */
  function Push(c: Cut, x: byte, end: nat): Cut {
    if x == NEWLINE then Cut(c.lines + [Line(c.rest, end)], []) else Cut(c.lines, c.rest + [x])
  }

  lemma PushAfter(lines: seq<Line>, y: Cut, x: byte, end: nat)
    ensures var z := Push(y, x, end);
            Push(Cut(lines + y.lines, y.rest), x, end) == Cut(lines + z.lines, z.rest)
  {
    Assoc(lines, y.lines, [Line(y.rest, end)]);
  }

  lemma CutSnoc(b: seq<byte>, x: byte, start: nat)
    ensures CutLines(b + [x], start) == Push(CutLines(b, start), x, start + |b| + 1)
  {
    assert (b + [x])[..|b|] == b;
  }

  function Unlines(lines: seq<Line>): seq<byte> {
    if lines == [] then [] else Unlines(lines[..|lines| - 1]) + (lines[|lines| - 1].text + [NEWLINE])
  }

  /** Each end offset is where the bytes of its line stop. */
  ghost predicate EndsRight(lines: seq<Line>, start: nat) {
    lines == [] ||
    (EndsRight(lines[..|lines| - 1], start) && lines[|lines| - 1].end == start + |Unlines(lines)|)
  }

  ghost predicate NoNewlines(c: Cut) {
    NEWLINE !in c.rest && forall k :: 0 <= k < |c.lines| ==> NEWLINE !in c.lines[k].text
  }

  /** What cutting means: putting the newlines back gives the bytes again, and
      nothing but the ends of the lines is a newline. */
  lemma CutLinesMeaning(b: seq<byte>, start: nat)
    ensures var c := CutLines(b, start);
            Unlines(c.lines) + c.rest == b && NoNewlines(c) && EndsRight(c.lines, start)
  {
    CutKeepsBytes(b, start);
    CutIsPlain(b, start);
  }

  lemma {:induction false} CutIsPlain(b: seq<byte>, start: nat)
    ensures NoNewlines(CutLines(b, start))
    decreases |b|
  {
    if b != [] {
      CutIsPlain(b[..|b| - 1], start);
    }
  }

  lemma {:induction false} CutKeepsBytes(b: seq<byte>, start: nat)
    ensures var c := CutLines(b, start);
            Unlines(c.lines) + c.rest == b && EndsRight(c.lines, start)
    decreases |b|
  {
    if b != [] {
      var b0, v := b[..|b| - 1], b[|b| - 1];
      LastOf(b);
      CutKeepsBytes(b0, start);
      var c := CutLines(b0, start);
      assert CutLines(b, start) == Push(c, v, start + |b0| + 1);
      PushKeepsBytes(c, b0, v, start);
    } else {
      PlusNil(b);
    }
  }

  lemma LastOf(b: seq<byte>)
    requires b != []
    ensures b == b[..|b| - 1] + [b[|b| - 1]]
  {
  }

  lemma PushKeepsBytes(c: Cut, b0: seq<byte>, v: byte, start: nat)
    requires Unlines(c.lines) + c.rest == b0 && EndsRight(c.lines, start)
    ensures var d := Push(c, v, start + |b0| + 1);
            Unlines(d.lines) + d.rest == b0 + [v] && EndsRight(d.lines, start)
  {
    Assoc(Unlines(c.lines), c.rest, [v]);
    if v == NEWLINE {
      var lines := c.lines + [Line(c.rest, start + |b0| + 1)];
      assert lines[..|c.lines|] == c.lines;
      PlusNil(Unlines(lines));
    }
  }

  lemma {:induction false} PlainCut(b: seq<byte>, start: nat)
    requires NEWLINE !in b
    ensures CutLines(b, start) == Cut([], b)
    decreases |b|
  {
    if b != [] {
      var n := |b| - 1;
      assert b == b[..n] + [b[n]];
      PlainCut(b[..n], start);
    }
  }

  /** Cutting `a` and then going on from its unfinished line with `b`. */
  function CutInTwo(a: seq<byte>, b: seq<byte>, start: nat): Cut {
    var x := CutLines(a, start);
    var y := CutLines(x.rest + b, start + |a| - |x.rest|);
    Cut(x.lines + y.lines, y.rest)
  }

  lemma CutInTwoIs(a: seq<byte>, b: seq<byte>, start: nat, x: Cut, c: seq<byte>, y: Cut)
    requires x == CutLines(a, start) && c == x.rest + b && y == CutLines(c, start + |a| - |x.rest|)
    ensures CutInTwo(a, b, start) == Cut(x.lines + y.lines, y.rest)
  {
  }

  lemma CutInTwoSnoc(a: seq<byte>, b: seq<byte>, v: byte, start: nat)
    ensures CutInTwo(a, b + [v], start) == Push(CutInTwo(a, b, start), v, start + |a| + |b| + 1)
  {
    var x := CutLines(a, start);
    var pos := start + |a| - |x.rest|;
    Assoc(x.rest, b, [v]);
    CutSnoc(x.rest + b, v, pos);
    PushAfter(x.lines, CutLines(x.rest + b, pos), v, start + |a| + |b| + 1);
  }

  lemma CutInTwoNil(a: seq<byte>, start: nat, x: Cut)
    requires x == CutLines(a, start)
    ensures CutInTwo(a, [], start) == x
  {
    RestHasNone(a, start, x);
    PlainCut(x.rest, start + |a| - |x.rest|);
    PlusNil(x.rest);
    PlusNil(x.lines);
    CutInTwoIs(a, [], start, x, x.rest, Cut([], x.rest));
  }

  lemma RestHasNone(b: seq<byte>, start: nat, x: Cut)
    requires x == CutLines(b, start)
    ensures NEWLINE !in x.rest
  {
    CutIsPlain(b, start);
  }

  /** Lines may be cut from the stream piece by piece. */
  lemma {:induction false} CutConcat(a: seq<byte>, b: seq<byte>, start: nat)
    ensures CutLines(a + b, start) == CutInTwo(a, b, start)
    decreases |b|
  {
    if b == [] {
      CutInTwoNil(a, start, CutLines(a, start));
      assert a + b == a;
    } else {
      var b0, v := b[..|b| - 1], b[|b| - 1];
      assert b == b0 + [v];
      CutConcat(a, b0, start);
      Assoc(a, b0, [v]);
      CutSnoc(a + b0, v, start);
      CutInTwoSnoc(a, b0, v, start);
    }
  }

  /** Cutting at the first newline. */
  lemma FirstLine(b: seq<byte>, start: nat)
    requires IndexNewline(b) >= 0
    ensures var i := IndexNewline(b);
            var tail := CutLines(b[i + 1..], start + i + 1);
            CutLines(b, start) == Cut([Line(b[..i], start + i + 1)] + tail.lines, tail.rest)
  {
    var i := IndexNewline(b);
    LineThenTail(b[..i], b[i + 1..], start);
    SplitAround(b, i);
  }

  lemma SplitAround(b: seq<byte>, i: nat)
    requires i < |b|
    ensures b == b[..i] + [b[i]] + b[i + 1..]
  {
  }

  lemma LineThenTail(text: seq<byte>, tail: seq<byte>, start: nat)
    requires NEWLINE !in text
    ensures var end := start + |text| + 1;
            var c := CutLines(tail, end);
            CutLines(text + [NEWLINE] + tail, start) == Cut([Line(text, end)] + c.lines, c.rest)
  {
    var end := start + |text| + 1;
    LineAlone(text, start);
    CutConcat(text + [NEWLINE], tail, start);
    PlusNil(tail);
    CutInTwoIs(text + [NEWLINE], tail, start, Cut([Line(text, end)], []), tail, CutLines(tail, end));
  }

  lemma LineAlone(text: seq<byte>, start: nat)
    requires NEWLINE !in text
    ensures CutLines(text + [NEWLINE], start) == Cut([Line(text, start + |text| + 1)], [])
  {
    PlainCut(text, start);
    CutSnoc(text, NEWLINE, start);
    PlusNil([Line(text, start + |text| + 1)]);
  }

  /** Where to resume once `lines` have been handled. */
  function ResumeAfter(start: nat, lines: seq<Line>): nat {
    if lines == [] then start else lines[|lines| - 1].end
  }

  lemma PushFrom(c: Cut, x: byte, end: nat, k: nat)
    requires k <= |c.lines|
    ensures var d := Push(c, x, end);
            k <= |d.lines| && Push(Cut(c.lines[k..], c.rest), x, end) == Cut(d.lines[k..], d.rest)
  {
  }

  /** Resuming after the first `k` lines gives exactly the lines that come after. */
  lemma {:induction false} ResumeAtLine(b: seq<byte>, start: nat, k: nat)
    requires k <= |CutLines(b, start).lines|
    ensures var c := CutLines(b, start);
            var at := ResumeAfter(start, c.lines[..k]);
            && start <= at <= start + |b|
            && CutLines(b[at - start..], at) == Cut(c.lines[k..], c.rest)
    decreases |b|
  {
    if b != [] {
      var n := |b| - 1;
      LastOf(b);
      if k <= |CutLines(b[..n], start).lines| {
        ResumeAtLine(b[..n], start, k);
        ResumeMore(b[..n], b[n], CutLines(b[..n], start), start, k);
      } else {
        ResumeAtEnd(b[..n], b[n], start);
      }
    }
  }

  /** The last byte was a newline, and all its lines have been handled. */
  lemma ResumeAtEnd(b: seq<byte>, x: byte, start: nat)
    requires x == NEWLINE
    ensures var c := CutLines(b + [x], start);
            && ResumeAfter(start, c.lines) == start + |b| + 1 && c.lines[..|c.lines|] == c.lines
            && (b + [x])[|b| + 1..] == [] && CutLines([], start + |b| + 1) == Cut(c.lines[|c.lines|..], c.rest)
  {
    CutSnoc(b, x, start);
  }

  /** One more byte behind `t`, which holds the lines from the `k`th on. */
  lemma PushOn(t: seq<byte>, at: nat, c: Cut, x: byte, k: nat)
    requires k <= |c.lines| && CutLines(t, at) == Cut(c.lines[k..], c.rest)
    ensures var d := Push(c, x, at + |t| + 1);
            k <= |d.lines| && d.lines[..k] == c.lines[..k] && CutLines(t + [x], at) == Cut(d.lines[k..], d.rest)
  {
    CutSnoc(t, x, at);
    PushFrom(c, x, at + |t| + 1, k);
  }

  lemma ResumeMore(b: seq<byte>, x: byte, c: Cut, start: nat, k: nat)
    requires c == CutLines(b, start) && k <= |c.lines|
    requires var at := ResumeAfter(start, c.lines[..k]);
             start <= at <= start + |b| && CutLines(b[at - start..], at) == Cut(c.lines[k..], c.rest)
    ensures var d := CutLines(b + [x], start);
            && k <= |d.lines|
            && var at := ResumeAfter(start, d.lines[..k]);
               && start <= at <= start + |b|
               && CutLines((b + [x])[at - start..], at) == Cut(d.lines[k..], d.rest)
  {
    var at := ResumeAfter(start, c.lines[..k]);
    CutSnoc(b, x, start);
    PushOn(b[at - start..], at, c, x, k);
    assert (b + [x])[at - start..] == b[at - start..] + [x];
  }

  // ------------------------------------------------ one session

  /** The bytes a session accepts when it expects offset `next`: frame by frame,
      up to the first that does not begin exactly where the ones before end. */
  function AcceptFrom(next: nat, frames: seq<Chunk>): seq<byte>
    decreases |frames|
  {
    if frames == [] || frames[0].offset != next then []
    else frames[0].data + AcceptFrom(frames[0].End(), frames[1..])
  }

  /** The first frame is the replay; wherever it begins is accepted. */
  function Accepted(frames: seq<Chunk>): seq<byte> {
    if frames == [] then [] else AcceptFrom(frames[0].offset, frames)
  }

  /** Chunk `k` begins where the one before it ends. */
  predicate Continues(frames: seq<Chunk>, k: nat)
    requires 0 < k < |frames|
  {
    frames[k].offset == frames[k - 1].End()
  }

  /** The first `n` frames join without a gap. */
  ghost predicate Gapless(frames: seq<Chunk>, n: nat) {
    n <= |frames| && forall k :: 0 < k < n ==> Continues(frames, k)
  }

  /** What is accepted is all the bytes up to the first frame that does not continue. */
  lemma {:induction false} AcceptedIsJoined(frames: seq<Chunk>, n: nat)
    requires 0 < n && Gapless(frames, n) && (n < |frames| ==> !Continues(frames, n))
    ensures Accepted(frames) == Joined(frames[..n])
    decreases |frames|
  {
    var rest := frames[1..];
    assert frames[..n] == [frames[0]] + rest[..n - 1];
    JoinedCons(frames[0], rest[..n - 1]);
    if n > 1 {
      assert Continues(frames, 1);
      forall k | 0 < k < n - 1 ensures Continues(rest, k) {
        assert Continues(frames, k + 1);
      }
      AcceptedIsJoined(rest, n - 1);
    } else {
      assert rest[..0] == [];
      assert rest != [] ==> rest[0] == frames[1] && !Continues(frames, 1);
      assert AcceptFrom(frames[0].End(), rest) == [];
    }
  }

  lemma GaplessMore(frames: seq<Chunk>, i: nat)
    requires i < |frames| && Gapless(frames, i) && (i > 0 ==> Continues(frames, i))
    ensures Gapless(frames, i + 1)
  {
  }

  lemma GapAt(frames: seq<Chunk>, i: nat)
    requires 0 < i < |frames| && !Continues(frames, i)
    ensures !Gapless(frames, |frames|)
  {
  }

  datatype Outcome = Continue | NonContiguous | HandlerError

  class PipeClient {
    /** Lines the handler will still take before it returns an error. */
    var patience: nat
    var lineBuf: seq<byte>
    var lineBufStart: nat
    var attached: bool
    var handled: seq<Line>
    ghost var from: nat
    ghost var seen: seq<byte>

    /** Every complete line seen so far has been handled. */
    ghost predicate Valid()
      reads this
    {
      && lineBufStart + |lineBuf| == from + |seen|
      && CutLines(seen, from) == Cut(handled, lineBuf)
      && (!attached ==> seen == [])
    }

    constructor (patience: nat)
      ensures Valid() && !attached && handled == [] && this.patience == patience
    {
      this.patience := patience;
      lineBuf, lineBufStart, attached, handled := [], 0, false, [];
      from, seen := 0, [];
    }

    /** One DATA frame: the first one says where the replay begins, every later
        one must continue exactly where the buffered bytes end. */
    method OnData(c: Chunk) returns (r: Outcome)
      requires Valid()
      modifies this
      ensures r == NonContiguous <==> old(attached) && c.offset != old(from + |seen|)
      ensures r == NonContiguous ==> handled == old(handled) && attached && from == old(from) && seen == old(seen)
      ensures r != NonContiguous ==>
                && attached
                && from == (if old(attached) then old(from) else c.offset)
                && seen == old(seen) + c.data
      ensures r != HandlerError ==> Valid()
      ensures old(handled) <= handled <= CutLines(seen, from).lines
      ensures |handled| + patience == old(|handled| + patience)
      ensures r == HandlerError ==> patience == 0
    {
      if !attached {
        attached := true;
        lineBufStart := c.offset;
        from := c.offset;
      } else if c.offset != lineBufStart + |lineBuf| {
        return NonContiguous;
      }
      CutConcat(seen, c.data, from);
      seen := seen + c.data;
      lineBuf := lineBuf + c.data;
      var ok := DrainLines();
      r := if ok then Continue else HandlerError;
    }

    /** Hands every complete line in the buffer to the handler. A line the
        handler refuses is not counted, so it will be delivered again. */
    method DrainLines() returns (ok: bool)
      modifies this`lineBuf, this`lineBufStart, this`handled, this`patience
      ensures var c := CutLines(old(lineBuf), old(lineBufStart));
              && (ok ==> handled == old(handled) + c.lines && lineBuf == c.rest)
              && old(handled) <= handled <= old(handled) + c.lines
      ensures ok ==> lineBufStart + |lineBuf| == old(lineBufStart + |lineBuf|)
      ensures |handled| + patience == old(|handled| + patience)
      ensures !ok ==> patience == 0
    {
      ghost var all := CutLines(lineBuf, lineBufStart);
      ghost var done: seq<Line> := [];
      while true
        invariant handled == old(handled) + done
        invariant all == Cut(done + CutLines(lineBuf, lineBufStart).lines, CutLines(lineBuf, lineBufStart).rest)
        invariant lineBufStart + |lineBuf| == old(lineBufStart + |lineBuf|)
        invariant |handled| + patience == old(|handled| + patience)
        decreases |lineBuf|
      {
        var i := IndexNewline(lineBuf);
        if i < 0 {
          PlainCut(lineBuf, lineBufStart);
          assert done + [] == done;
          return true;
        }
        if patience == 0 {
          return false;
        }
        var line := Line(lineBuf[..i], lineBufStart + i + 1);
        FirstLine(lineBuf, lineBufStart);
        Assoc(done, [line], CutLines(lineBuf[i + 1..], line.end).lines);
        done := done + [line];
        handled := handled + [line];
        patience := patience - 1;
        lineBuf := lineBuf[i + 1..];
        lineBufStart := line.end;
      }
    }

    /** A whole session over the ring frames that arrive on its connection. */
    method Run(frames: seq<Chunk>) returns (r: Outcome)
      requires Valid() && !attached && handled == []
      modifies this
      ensures frames != [] ==> handled <= CutLines(Accepted(frames), frames[0].offset).lines
      ensures frames == [] ==> handled == []
      ensures frames != [] && r != HandlerError ==> handled == CutLines(Accepted(frames), frames[0].offset).lines
      ensures r == Continue ==> Gapless(frames, |frames|)
      ensures r == NonContiguous ==> !Gapless(frames, |frames|)
      ensures |handled| + patience == old(patience)
      ensures r == HandlerError ==> patience == 0
    {
      r := Continue;
      var i := 0;
      while i < |frames|
        invariant 0 <= i <= |frames|
        invariant Valid() && (attached <==> i > 0)
        invariant i == 0 ==> handled == []
        invariant i > 0 ==> from == frames[0].offset
        invariant i > 0 ==> seen + AcceptFrom(from + |seen|, frames[i..]) == Accepted(frames)
        invariant |handled| + patience == old(patience)
        invariant r == Continue
        invariant i > 0 ==> from + |seen| == frames[i - 1].End()
        invariant Gapless(frames, i)
      {
        assert frames[i..][0] == frames[i] && frames[i..][1..] == frames[i + 1..];
        ghost var before := seen;
        r := OnData(frames[i]);
        if r == NonContiguous {
          GapAt(frames, i);
          PlusNil(seen);
          return;
        }
        Assoc(before, frames[i].data, AcceptFrom(frames[i].End(), frames[i + 1..]));
        if i == 0 {
          assert frames[0..] == frames;
        }
        GaplessMore(frames, i);
        assert seen + AcceptFrom(from + |seen|, frames[i + 1..]) == Accepted(frames);
        if r == HandlerError {
          CutConcat(seen, AcceptFrom(from + |seen|, frames[i + 1..]), from);
          return;
        }
        i := i + 1;
      }
      PlusNil(seen);
    }
  }
}
