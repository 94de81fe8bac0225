/** From ring to lines, through the wire and across reconnects. */
module Reconnect {
  import opened Bytes
  import opened Options
  import opened Ring
  import opened Delivery
  import opened DeliverySafety
  import opened PipeClient
  import P = Protocol

  // ------------------------------------------------ frames on the wire

  function Kind(st: Stream): byte {
    if st == Out then P.MSG_DATA else P.MSG_STDERR_DATA
  }

  /** `f` is how the server writes `d`: ring frames with their offset, other
      replies as they come. */
  ghost predicate Carries(f: P.Frame, d: Frame) {
    match d
    case Data(st, c, _) => c.offset < 0x8000_0000_0000_0000 && f == P.Frame(Kind(st), P.EncodeData(c.offset, c.data))
    case Reply => f.Sendable() && (f.kind == P.MSG_HELLO || f.kind == P.MSG_STATUS)
  }

  ghost predicate OnWire(frames: seq<P.Frame>, sent: seq<Frame>) {
    && |frames| == |sent|
    && forall k :: 0 <= k < |sent| ==> Carries(frames[k], sent[k])
  }

  /** The ring chunk, if any, that a client takes from a frame for stream `st`. */
  function Decoded(f: P.Frame, st: Stream): Option<Chunk> {
    var d := P.DecodeData(f.payload);
    if f.kind == Kind(st) && d.Some? && d.value.0 >= 0 then Some(Chunk(d.value.0, d.value.1)) else None
  }

  function Received(frames: seq<P.Frame>, st: Stream): seq<Chunk> {
    if frames == [] then []
    else
      var init := Received(frames[..|frames| - 1], st);
      var d := Decoded(frames[|frames| - 1], st);
      if d.Some? then init + [d.value] else init
  }

  lemma DecodedIsCarried(f: P.Frame, d: Frame, st: Stream)
    requires Carries(f, d)
    ensures Decoded(f, st) == if d.Data? && d.stream == st then Some(d.chunk) else None
  {
    if d.Data? {
      P.DataCodec(d.chunk.offset, d.chunk.data, f.payload);
    }
  }

  lemma {:induction false} ReceivedIsSent(frames: seq<P.Frame>, sent: seq<Frame>, st: Stream)
    requires OnWire(frames, sent)
    ensures Received(frames, st) == Chunks(sent, st)
    decreases |frames|
  {
    if frames != [] {
      var n := |frames| - 1;
      ReceivedIsSent(frames[..n], sent[..n], st);
      DecodedIsCarried(frames[n], sent[n], st);
    }
  }

  lemma {:induction false} ReceivedPrefix(frames: seq<P.Frame>, n: nat, st: Stream)
    requires n <= |frames|
    ensures Received(frames[..n], st) <= Received(frames, st)
    decreases |frames|
  {
    if n == |frames| {
      assert frames[..n] == frames;
    } else {
      ReceivedPrefix(frames[..|frames| - 1], n, st);
      assert frames[..|frames| - 1][..n] == frames[..n];
    }
  }

  /** What every frame of a reachable connection may be written as. */
  lemma SentIsSendable(s: State, h: nat, frames: seq<P.Frame>)
    requires DeliverySafety.Reachable(s) && h < |s.handlers| && OnWire(frames, s.handlers[h].sent)
    ensures P.AllSendable(frames)
  {
    ReachableInv(s);
    assert SentTrue(s, h);
    forall k | 0 <= k < |frames| ensures frames[k].Sendable() {
      assert Carries(frames[k], s.handlers[h].sent[k]);
    }
  }

  /** Cut the byte stream of any connection at any point: what the client decodes
      is a prefix of the chunks that were sent, and every one of them is true. */
  lemma ClientSeesTruth(s: State, h: nat, frames: seq<P.Frame>, k: nat, st: Stream)
    requires DeliverySafety.Reachable(s) && h < |s.handlers| && OnWire(frames, s.handlers[h].sent)
    requires P.AllSendable(frames) ==> k <= |P.StreamBytes(frames)|
    ensures P.AllSendable(frames)
    ensures var got := Received(P.ReadAll(P.StreamBytes(frames)[..k]).0, st);
            && got <= Chunks(s.handlers[h].sent, st)
            && AllTrue(got, s.History(st))
  {
    SentIsSendable(s, h, frames);
    P.CutStreamReadsPrefix(frames, k);
    var read := P.ReadAll(P.StreamBytes(frames)[..k]).0;
    assert read == frames[..|read|];
    ReceivedPrefix(frames, |read|, st);
    ReceivedIsSent(frames, s.handlers[h].sent, st);
    ReachableInv(s);
    assert SentTrue(s, h);
    ChunksTrue(s.handlers[h].sent, st, s.History(st));
  }

  lemma {:induction false} ChunksTrue(sent: seq<Frame>, st: Stream, history: seq<byte>)
    requires forall k :: 0 <= k < |sent| && sent[k].Data? && sent[k].stream == st ==> sent[k].chunk.TrueIn(history)
    ensures AllTrue(Chunks(sent, st), history)
    decreases |sent|
  {
    if sent != [] {
      ChunksTrue(sent[..|sent| - 1], st, history);
    }
  }

  // ------------------------------------------------ sessions

  lemma {:induction false} AcceptedIsHistory(next: nat, frames: seq<Chunk>, history: seq<byte>)
    requires AllTrue(frames, history) && next <= |history|
    ensures next + |AcceptFrom(next, frames)| <= |history|
    ensures AcceptFrom(next, frames) == history[next..next + |AcceptFrom(next, frames)|]
    decreases |frames|
  {
    if frames != [] && frames[0].offset == next {
      var mid := frames[0].End();
      assert frames[0].TrueIn(history);
      AcceptedIsHistory(mid, frames[1..], history);
      var rest := AcceptFrom(mid, frames[1..]);
      assert history[next..mid] + history[mid..mid + |rest|] == history[next..mid + |rest|];
    }
  }

  /** One connection of the client: the stdout chunks that arrived on it and the
      lines its handler took before it ended, for whatever reason. */
  datatype Session = Session(frames: seq<Chunk>, handled: seq<Line>)
  {
    /** Where the replay begins; without one, where the client stood. */
    function From(at: nat): nat {
      if frames == [] then at else frames[0].offset
    }

    /** Where the client stands afterwards. */
    function Next(at: nat): nat {
      ResumeAfter(From(at), handled)
    }
  }

  /** True chunks, and lines of what they join to, wherever the replay begins. */
  ghost predicate Served(history: seq<byte>, s: Session) {
    && AllTrue(s.frames, history)
    && (s.frames == [] ==> s.handled == [])
    && (s.frames != [] ==> s.handled <= CutLines(Accepted(s.frames), s.frames[0].offset).lines)
  }

  /** A client that stands at `at`, and no replay that begins before that. */
  ghost predicate Sessions(history: seq<byte>, at: nat, ss: seq<Session>)
    decreases |ss|
  {
    ss == [] ||
    (Served(history, ss[0]) && at <= ss[0].From(at) && Sessions(history, ss[0].Next(at), ss[1..]))
  }

  function AllHandled(ss: seq<Session>): seq<Line> {
    if ss == [] then [] else ss[0].handled + AllHandled(ss[1..])
  }

  function LastResume(at: nat, ss: seq<Session>): nat
    decreases |ss|
  {
    if ss == [] then at else LastResume(ss[0].Next(at), ss[1..])
  }

  /** The complete lines from offset `at` on. */
  function LinesFrom(history: seq<byte>, at: nat): seq<Line>
    requires at <= |history|
  {
    CutLines(history[at..], at).lines
  }

  lemma FromFits(history: seq<byte>, at: nat, s: Session)
    requires at <= |history| && Served(history, s)
    ensures s.From(at) <= |history|
  {
    if s.frames != [] {
      assert s.frames[0].TrueIn(history);
    }
  }

  lemma HandledFirst(history: seq<byte>, at: nat, s: Session)
    requires at <= |history| && Served(history, s)
    ensures s.From(at) <= |history| && s.handled <= LinesFrom(history, s.From(at))
  {
    FromFits(history, at, s);
    if s.frames != [] {
      var from := s.frames[0].offset;
      AcceptedIsHistory(from, s.frames, history);
      var got := Accepted(s.frames);
      var tail := history[from + |got|..];
      assert history[from..] == got + tail;
      CutConcat(got, tail, from);
    }
  }

  /** One session handles the next lines from where its replay begins and leaves
      exactly the others to its successor. */
  lemma OneSession(history: seq<byte>, at: nat, s: Session)
    requires at <= |history| && Served(history, s)
    ensures var from, next := s.From(at), s.Next(at);
            && from <= next <= |history|
            && LinesFrom(history, from) == s.handled + LinesFrom(history, next)
            && CutLines(history[from..], from).rest == CutLines(history[next..], next).rest
  {
    HandledFirst(history, at, s);
    var from, next := s.From(at), s.Next(at);
    var whole := history[from..];
    var c := CutLines(whole, from);
    var k := |s.handled|;
    assert s.handled == c.lines[..k];
    ResumeAtLine(whole, from, k);
    assert whole[next - from..] == history[next..];
    assert c.lines == c.lines[..k] + c.lines[k..];
  }

  /** Every session of a chain does. */
  ghost predicate HandsOver(history: seq<byte>, at: nat, ss: seq<Session>)
    decreases |ss|
  {
    ss == [] ||
    (var from, next := ss[0].From(at), ss[0].Next(at);
     && from <= |history| && next <= |history|
     && LinesFrom(history, from) == ss[0].handled + LinesFrom(history, next)
     && HandsOver(history, next, ss[1..]))
  }

  lemma {:induction false} AllHandOver(history: seq<byte>, at: nat, ss: seq<Session>)
    requires at <= |history| && Sessions(history, at, ss)
    ensures HandsOver(history, at, ss)
    decreases |ss|
  {
    if ss != [] {
      OneSession(history, at, ss[0]);
      AllHandOver(history, ss[0].Next(at), ss[1..]);
    }
  }

  // ------------------------------------------------ bytes skipped

  /** How the lines of `a + b` end, seen from `b`. */
  lemma EndOfTwo(a: seq<byte>, b: seq<byte>, start: nat)
    ensures var x, y, whole := CutLines(a, start), CutLines(b, start + |a|), CutLines(a + b, start);
            if NEWLINE in b then
              && y.lines != [] && whole.rest == y.rest
              && whole.lines == x.lines + [Line(x.rest + y.lines[0].text, y.lines[0].end)] + y.lines[1..]
            else y == Cut([], b) && whole == Cut(x.lines, x.rest + b)
  {
    if NEWLINE in b {
      LineEndsIn(a, b, start);
    } else {
      NoLineEndsIn(a, b, start);
    }
  }

  lemma LineEndsIn(a: seq<byte>, b: seq<byte>, start: nat)
    requires NEWLINE in b
    ensures var x, y, whole := CutLines(a, start), CutLines(b, start + |a|), CutLines(a + b, start);
            && y.lines != [] && whole.rest == y.rest
            && whole.lines == x.lines + [Line(x.rest + y.lines[0].text, y.lines[0].end)] + y.lines[1..]
  {
    var x, y := CutLines(a, start), CutLines(b, start + |a|);
    CutConcat(a, b, start);
    CutIsPlain(a, start);
    LongerLine(x.rest, b, start + |a| - |x.rest|);
    Assoc(x.lines, [Line(x.rest + y.lines[0].text, y.lines[0].end)], y.lines[1..]);
  }

  lemma NoLineEndsIn(a: seq<byte>, b: seq<byte>, start: nat)
    requires NEWLINE !in b
    ensures var x := CutLines(a, start);
            CutLines(b, start + |a|) == Cut([], b) && CutLines(a + b, start) == Cut(x.lines, x.rest + b)
  {
    var x := CutLines(a, start);
    CutConcat(a, b, start);
    CutIsPlain(a, start);
    PlainCut(b, start + |a|);
    PlainCut(x.rest + b, start + |a| - |x.rest|);
    PlusNil(x.lines);
  }

  /** Bytes without a newline in front lengthen the first line. */
  lemma LongerLine(text: seq<byte>, b: seq<byte>, pos: nat)
    requires NEWLINE !in text && NEWLINE in b
    ensures var y, z := CutLines(b, pos + |text|), CutLines(text + b, pos);
            && y.lines != [] && z.rest == y.rest
            && z.lines == [Line(text + y.lines[0].text, y.lines[0].end)] + y.lines[1..]
  {
    var i := IndexNewline(b);
    SplitAround(b, i);
    LongerFirst(text, b[..i], b[i + 1..], pos);
  }

  lemma LongerFirst(text: seq<byte>, head: seq<byte>, tail: seq<byte>, pos: nat)
    requires NEWLINE !in text && NEWLINE !in head
    ensures var b, end := head + [NEWLINE] + tail, pos + |text| + |head| + 1;
            var t := CutLines(tail, end);
            && CutLines(b, pos + |text|) == Cut([Line(head, end)] + t.lines, t.rest)
            && CutLines(text + b, pos) == Cut([Line(text + head, end)] + t.lines, t.rest)
  {
    LineThenTail(head, tail, pos + |text|);
    LineThenTail(text + head, tail, pos);
    Assoc(text, head, [NEWLINE]);
    Assoc(text, head + [NEWLINE], tail);
  }

  /** Resuming at `start` instead of `at`, with a complete line to come: the first line
      handled is a whole one, and so only the lines of the gap are lost, iff the gap
      ends at a line end. */
  lemma GapCutsLine(history: seq<byte>, at: nat, start: nat)
    requires at <= start <= |history| && LinesFrom(history, start) != []
    ensures var gap := CutLines(history[at..start], at);
            LinesFrom(history, at) == gap.lines + LinesFrom(history, start) <==> gap.rest == []
  {
    var a, b := history[at..start], history[start..];
    assert history[at..] == a + b;
    HasNewline(b, start);
    LineEndsIn(a, b, at);
    var x, y := CutLines(a, at), LinesFrom(history, start);
    var first := Line(x.rest + y[0].text, y[0].end);
    Assoc(x.lines, [first], y[1..]);
    FirstDiffers(x.lines, [first] + y[1..], y);
    Lengthens(x.rest, y[0].text);
  }

  lemma HasNewline(b: seq<byte>, start: nat)
    requires CutLines(b, start).lines != []
    ensures NEWLINE in b
  {
    if NEWLINE !in b {
      PlainCut(b, start);
    }
  }

  lemma Lengthens(a: seq<byte>, b: seq<byte>)
    ensures a + b == b <==> a == []
  {
    assert a == [] ==> a + b == b;
  }

  lemma FirstDiffers(lines: seq<Line>, a: seq<Line>, b: seq<Line>)
    requires a != [] && b != [] && a[1..] == b[1..]
    ensures lines + a == lines + b <==> a[0] == b[0]
  {
    assert a == [a[0]] + a[1..] && b == [b[0]] + b[1..];
    assert (lines + a)[|lines|] == a[0] && (lines + b)[|lines|] == b[0];
  }

  /** The bytes of the complete lines from `at` on. */
  function LineBytes(history: seq<byte>, at: nat): nat
    requires at <= |history|
  {
    |Unlines(LinesFrom(history, at))|
  }

  lemma LineBytesAre(history: seq<byte>, at: nat)
    requires at <= |history|
    ensures LineBytes(history, at) + |CutLines(history[at..], at).rest| == |history| - at
    ensures LineBytes(history, at) > 0 <==> NEWLINE in history[at..]
  {
    var b := history[at..];
    CutLinesMeaning(b, at);
    if NEWLINE !in b {
      PlainCut(b, at);
    } else {
      var c := CutLines(b, at);
      assert Unlines(c.lines) == [] ==> b == c.rest;
    }
  }

  /** Going on from `start` gives fewer bytes than from `at`, unless nothing lies
      between or no line ends after `at`. */
  lemma SkipCosts(history: seq<byte>, at: nat, start: nat)
    requires at <= start <= |history|
    ensures LineBytes(history, start) <= LineBytes(history, at)
    ensures LineBytes(history, start) == LineBytes(history, at) <==> at == start || NEWLINE !in history[at..]
  {
    var a, b := history[at..start], history[start..];
    assert history[at..] == a + b;
    EndOfTwo(a, b, at);
    LineBytesAre(history, at);
    LineBytesAre(history, start);
  }

  lemma {:induction false} UnlinesMore(a: seq<Line>, b: seq<Line>)
    ensures Unlines(a + b) == Unlines(a) + Unlines(b)
    decreases |b|
  {
    if b == [] {
      assert a + b == a;
    } else {
      var n := |b| - 1;
      UnlinesMore(a, b[..n]);
      assert (a + b)[..|a + b| - 1] == a + b[..n];
      Assoc(Unlines(a), Unlines(b[..n]), b[n].text + [NEWLINE]);
    }
  }

  /** How many bytes the replays skipped. */
  function Skipped(at: nat, ss: seq<Session>): int
    decreases |ss|
  {
    if ss == [] then 0 else ss[0].From(at) - at + Skipped(ss[0].Next(at), ss[1..])
  }

  /** No replay skipped a byte of a complete line. */
  ghost predicate NoLineSkipped(history: seq<byte>, at: nat, ss: seq<Session>)
    decreases |ss|
  {
    ss == [] ||
    (&& (ss[0].From(at) == at || (at <= |history| && NEWLINE !in history[at..]))
     && NoLineSkipped(history, ss[0].Next(at), ss[1..]))
  }

  lemma SessionBytes(history: seq<byte>, at: nat, s: Session)
    requires at <= |history| && Served(history, s)
    ensures s.From(at) <= s.Next(at) <= |history|
    ensures Unlines(s.handled) == history[s.From(at)..s.Next(at)]
    ensures LineBytes(history, s.From(at)) == |Unlines(s.handled)| + LineBytes(history, s.Next(at))
  {
    var from, next := s.From(at), s.Next(at);
    OneSession(history, at, s);
    HandledLength(history, from, next, s.handled);
    HandledText(history, from, next, s.handled);
  }

  lemma HandledLength(history: seq<byte>, from: nat, next: nat, handled: seq<Line>)
    requires from <= next <= |history| && LinesFrom(history, from) == handled + LinesFrom(history, next)
    requires CutLines(history[from..], from).rest == CutLines(history[next..], next).rest
    ensures |Unlines(handled)| == next - from
    ensures LineBytes(history, from) == |Unlines(handled)| + LineBytes(history, next)
  {
    UnlinesMore(handled, LinesFrom(history, next));
    LineBytesAre(history, from);
    LineBytesAre(history, next);
  }

  lemma HandledText(history: seq<byte>, from: nat, next: nat, handled: seq<Line>)
    requires from <= next <= |history| && LinesFrom(history, from) == handled + LinesFrom(history, next)
    requires |Unlines(handled)| == next - from
    ensures Unlines(handled) == history[from..next]
  {
    var more := LinesFrom(history, next);
    UnlinesMore(handled, more);
    CutKeepsBytes(history[from..], from);
    FrontOf(history, from, next, Unlines(handled), Unlines(more), CutLines(history[from..], from).rest);
  }

  lemma FrontOf(history: seq<byte>, from: nat, next: nat, u: seq<byte>, v: seq<byte>, rest: seq<byte>)
    requires from <= next <= |history| && history[from..] == u + v + rest && |u| == next - from
    ensures u == history[from..next]
  {
    assert (u + v + rest)[..|u|] == u;
    assert history[from..][..|u|] == history[from..next];
  }

  /** Over any number of sessions, whatever their replays skipped: the handled lines are
      the bytes of the history from where the client began to where it stands, less
      exactly the skipped ones; and with the lines still to come they are those of the
      history, each once and in order, iff no byte of a complete line was skipped. */
  lemma {:induction false} LinesAcrossReconnects(history: seq<byte>, at: nat, ss: seq<Session>)
    requires at <= |history| && Sessions(history, at, ss)
    ensures at <= LastResume(at, ss) <= |history|
    ensures |Unlines(AllHandled(ss))| + Skipped(at, ss) == LastResume(at, ss) - at && Skipped(at, ss) >= 0
    ensures |Unlines(AllHandled(ss))| + LineBytes(history, LastResume(at, ss)) <= LineBytes(history, at)
    ensures |Unlines(AllHandled(ss))| + LineBytes(history, LastResume(at, ss)) == LineBytes(history, at) <==>
            NoLineSkipped(history, at, ss)
    ensures LinesFrom(history, at) == AllHandled(ss) + LinesFrom(history, LastResume(at, ss)) <==>
            NoLineSkipped(history, at, ss)
    decreases |ss|
  {
    if ss != [] {
      var s, next := ss[0], ss[0].Next(at);
      SessionBytes(history, at, s);
      SkipCosts(history, at, s.From(at));
      LinesAcrossReconnects(history, next, ss[1..]);
      UnlinesMore(s.handled, AllHandled(ss[1..]));
      if LinesFrom(history, at) == AllHandled(ss) + LinesFrom(history, LastResume(at, ss)) {
        SameLines(history, at, ss);
      }
      if NoLineSkipped(history, at, ss) {
        NoneLost(history, at, ss);
      }
    } else {
      PlusNil(LinesFrom(history, at));
    }
  }

  /** The same lines have the same bytes. */
  lemma SameLines(history: seq<byte>, at: nat, ss: seq<Session>)
    requires at <= |history| && LastResume(at, ss) <= |history|
    requires LinesFrom(history, at) == AllHandled(ss) + LinesFrom(history, LastResume(at, ss))
    ensures |Unlines(AllHandled(ss))| + LineBytes(history, LastResume(at, ss)) == LineBytes(history, at)
  {
    UnlinesMore(AllHandled(ss), LinesFrom(history, LastResume(at, ss)));
  }

  lemma NoneLost(history: seq<byte>, at: nat, ss: seq<Session>)
    requires at <= |history| && ss != [] && Served(history, ss[0]) && at <= ss[0].From(at)
    requires ss[0].From(at) == at || NEWLINE !in history[at..]
    requires var next, last := ss[0].Next(at), LastResume(at, ss);
             && next <= |history| && last <= |history|
             && LinesFrom(history, next) == AllHandled(ss[1..]) + LinesFrom(history, last)
    ensures LinesFrom(history, at) == AllHandled(ss) + LinesFrom(history, LastResume(at, ss))
  {
    var from, last := ss[0].From(at), LastResume(at, ss);
    OneSession(history, at, ss[0]);
    if from != at {
      PlainCut(history[at..], at);
      PlainCut(history[from..], from);
    }
    Assoc(ss[0].handled, AllHandled(ss[1..]), LinesFrom(history, last));
  }

  // ------------------------------------------------ a client that only keeps bytes

  /** What a client that expected `next` holds after some connections: of each the
      frames up to the first gap, and it asks for the byte after them next time. */
  function Held(next: nat, visits: seq<seq<Chunk>>): seq<Chunk>
    decreases |visits|
  {
    if visits == [] then []
    else if visits[0] == [] then Held(next, visits[1..])
    else
      var got := Chunk(visits[0][0].offset, Accepted(visits[0]));
      [got] + Held(got.End(), visits[1..])
  }

  function NextAfter(next: nat, held: seq<Chunk>): nat
    decreases |held|
  {
    if held == [] then next else NextAfter(held[0].End(), held[1..])
  }

  /** True frames, and no replay that begins before the offset asked for. */
  ghost predicate Visits(history: seq<byte>, next: nat, visits: seq<seq<Chunk>>)
    decreases |visits|
  {
    if visits == [] then true
    else if visits[0] == [] then Visits(history, next, visits[1..])
    else
      && AllTrue(visits[0], history) && next <= visits[0][0].offset
      && Visits(history, visits[0][0].offset + |Accepted(visits[0])|, visits[1..])
  }

  /** The bytes skipped at the beginning of each piece. */
  function Missed(next: nat, held: seq<Chunk>): int
    decreases |held|
  {
    if held == [] then 0 else held[0].offset - next + Missed(held[0].End(), held[1..])
  }

  ghost predicate NoOverlap(next: nat, held: seq<Chunk>)
    decreases |held|
  {
    held == [] || (next <= held[0].offset && NoOverlap(held[0].End(), held[1..]))
  }

  lemma VisitIsTrue(history: seq<byte>, visit: seq<Chunk>)
    requires visit != [] && AllTrue(visit, history)
    ensures Chunk(visit[0].offset, Accepted(visit)).TrueIn(history)
  {
    assert visit[0].TrueIn(history);
    AcceptedIsHistory(visit[0].offset, visit, history);
  }

  /** Over any number of connections, gaps and evictions such a client holds true
      bytes only, none twice; the bytes it does not hold are exactly those skipped by
      the replays; and if no replay skipped any, what it holds is the history. */
  lemma {:induction false} HeldIsTrueOnce(history: seq<byte>, next: nat, visits: seq<seq<Chunk>>)
    requires next <= |history| && Visits(history, next, visits)
    ensures var held := Held(next, visits);
            && AllTrue(held, history) && NoOverlap(next, held)
            && next <= NextAfter(next, held) <= |history|
            && 0 <= Missed(next, held)
            && |Joined(held)| + Missed(next, held) == NextAfter(next, held) - next
            && (Missed(next, held) == 0 ==> Joined(held) == history[next..NextAfter(next, held)])
    decreases |visits|
  {
    if visits != [] {
      if visits[0] == [] {
        HeldIsTrueOnce(history, next, visits[1..]);
      } else {
        var got := Chunk(visits[0][0].offset, Accepted(visits[0]));
        VisitIsTrue(history, visits[0]);
        HeldIsTrueOnce(history, got.End(), visits[1..]);
        HeldCons(history, next, got, Held(got.End(), visits[1..]));
      }
    }
  }

  lemma HeldCons(history: seq<byte>, next: nat, got: Chunk, rest: seq<Chunk>)
    requires got.TrueIn(history) && next <= got.offset
    requires AllTrue(rest, history) && NoOverlap(got.End(), rest)
    requires got.End() <= NextAfter(got.End(), rest) <= |history|
    requires 0 <= Missed(got.End(), rest)
    requires |Joined(rest)| + Missed(got.End(), rest) == NextAfter(got.End(), rest) - got.End()
    requires Missed(got.End(), rest) == 0 ==> Joined(rest) == history[got.End()..NextAfter(got.End(), rest)]
    ensures var held := [got] + rest;
            && AllTrue(held, history) && NoOverlap(next, held)
            && next <= NextAfter(next, held) <= |history|
            && 0 <= Missed(next, held)
            && |Joined(held)| + Missed(next, held) == NextAfter(next, held) - next
            && (Missed(next, held) == 0 ==> Joined(held) == history[next..NextAfter(next, held)])
  {
    var held := [got] + rest;
    assert held[1..] == rest && held[0] == got;
    JoinedCons(got, rest);
    if Missed(next, held) == 0 {
      var end := NextAfter(got.End(), rest);
      assert history[got.offset..got.End()] + history[got.End()..end] == history[got.offset..end];
    }
  }
}
