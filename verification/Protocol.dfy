/** The length-prefixed frame protocol of internal/ptyhost/protocol.go: frames on
    a byte stream, and the binary payloads they carry. */
module Protocol {
  import opened Bytes
  import opened Options

  const MSG_HELLO: byte := 1
  const MSG_ATTACH: byte := 2
  const MSG_DATA: byte := 3
  const MSG_INPUT: byte := 4
  const MSG_RESIZE: byte := 5
  const MSG_STATUS: byte := 7
  const MSG_SHUTDOWN: byte := 8
  const MSG_STDERR_DATA: byte := 9

  const MAX_FRAME_SIZE: nat := 0x100_0000  // 16 MiB
  const FRAME_HEADER_LEN: nat := 4

  /** What goes in front of a payload, when both have `n` bytes with the type. */
  function Header(kind: byte, n: nat): (h: seq<byte>)
    requires n <= MAX_FRAME_SIZE
    ensures |h| == FRAME_HEADER_LEN + 1
  {
    Widths();
    PutBE(n, FRAME_HEADER_LEN) + [kind]
  }

  /** One message: its type byte and its payload. Any type byte may be sent. */
  datatype Frame = Frame(kind: byte, payload: seq<byte>)
  {
    /** What WriteFrame accepts. */
    predicate Sendable() {
      |payload| <= MAX_FRAME_SIZE - 1
    }

    /** The frame on the wire. */
    function Wire(): (w: seq<byte>)
      requires Sendable()
      ensures |w| == FRAME_HEADER_LEN + 1 + |payload|
    {
      Header(kind, |payload| + 1) + payload
    }
  }

  ghost predicate AllSendable(frames: seq<Frame>) {
    forall i :: 0 <= i < |frames| ==> frames[i].Sendable()
  }

  function StreamBytes(frames: seq<Frame>): (b: seq<byte>)
    requires AllSendable(frames)
  {
    if frames == [] then []
    else
      StreamBytes(frames[..|frames| - 1]) + frames[|frames| - 1].Wire()
  }

  lemma FourBytes(n: nat)
    requires n < 0x1_0000_0000
    ensures n < Pow256(4)
    ensures PutBE(n, 4) ==
            [(n / 0x100_0000) as byte, (n / 0x1_0000 % 256) as byte, (n / 256 % 256) as byte, (n % 256) as byte]
  {
    Widths();
    Fewer();
    var w := 4;
    PutBEDigits(n, w, 0);
    PutBEDigits(n, w, 1);
    PutBEDigits(n, w, 2);
    PutBEDigits(n, w, 3);
  }

  lemma Fewer()
    ensures Pow256(0) == 1 && Pow256(1) == 256 && Pow256(3) == 0x100_0000
  {
    assert Pow256(1) == 256 && Pow256(2) == 0x1_0000;
  }

  /** On the wire: the length of type and payload in four bytes, the most significant
      first, the type byte, the payload. */
  lemma WireLayout(f: Frame)
    requires f.Sendable()
    ensures var n := |f.payload| + 1;
            f.Wire() == [(n / 0x100_0000) as byte, (n / 0x1_0000 % 256) as byte, (n / 256 % 256) as byte,
                         (n % 256) as byte, f.kind] + f.payload
  {
    FourBytes(|f.payload| + 1);
  }

  // ---------------------------------------------------------------- writing

  function Min(a: nat, b: nat): (m: nat) {
    if a < b then a else b
  }

  /** What a connection with room for `room` bytes takes of `p`. */
  function Taken(p: seq<byte>, room: nat): (t: seq<byte>)
    ensures t <= p
  {
    p[..Min(|p|, room)]
  }

  /** `torn` is a proper beginning of frame `f` on the wire. */
  ghost predicate BeginsIn(torn: seq<byte>, f: Frame) {
    f.Sendable() && torn <= f.Wire() && |torn| < |f.Wire()|
  }

  /** The writing end of a connection: it takes `room` more bytes and then
      fails every write. What it took is exactly a run of whole frames,
      followed only on a broken connection by the beginning of one more. */
  class Conn {
    var sent: seq<byte>
    var room: nat
    ghost var frames: seq<Frame>
    ghost var torn: seq<byte>

    ghost predicate Valid()
      reads this
    {
      && AllSendable(frames)
      && sent == StreamBytes(frames) + torn
      && (torn != [] ==> room == 0 && exists f: Frame :: BeginsIn(torn, f))
    }

    constructor (room: nat)
      ensures Valid()
      ensures sent == [] && frames == [] && torn == [] && this.room == room
    {
      sent, frames, torn := [], [], [];
      this.room := room;
    }

    method Write(p: seq<byte>) returns (ok: bool)
      modifies this`sent, this`room
      ensures ok == (|p| <= old(room))
      ensures sent == old(sent) + Taken(p, old(room))
      ensures room == old(room) - Min(|p|, old(room))
    {
      var n := Min(|p|, room);
      ok := |p| <= room;
      sent := sent + p[..n];
      room := room - n;
    }
  }

  datatype WriteError = Sent | TooLarge(n: nat) | Broken

  /** One call under writeMu. Callers may come in any order and with any
      payload: `w.Valid()` is all they rely on and all they keep. */
  method WriteFrame(w: Conn, kind: byte, payload: seq<byte>) returns (e: WriteError)
    requires w.Valid()
    modifies w
    ensures w.Valid()
    ensures e.TooLarge? <==> !Frame(kind, payload).Sendable()
    ensures e.TooLarge? ==> w.sent == old(w.sent) && w.room == old(w.room)
    ensures !e.TooLarge? ==> var b := Frame(kind, payload).Wire();
              && (e.Sent? <==> |b| <= old(w.room))
              && w.sent == old(w.sent) + Taken(b, old(w.room))
              && w.room == old(w.room) - Min(|b|, old(w.room))
    ensures w.frames == if e.Sent? then old(w.frames) + [Frame(kind, payload)] else old(w.frames)
    ensures e.Broken? ==> w.room == 0
  {
    if |payload| > MAX_FRAME_SIZE - 1 {
      return TooLarge(|payload|);
    }
    var hdr := Header(kind, |payload| + 1);
    ghost var f := Frame(kind, payload);
    ghost var before, room := w.sent, w.room;
    Pieces(before, hdr, payload, room);
    assert f.Wire() == hdr + payload;
    var ok := w.Write(hdr);
    if ok && |payload| > 0 {
      ok := w.Write(payload);
    }
    assert w.sent == before + Taken(f.Wire(), room);
    if ok {
      assert w.torn == [] && Taken(f.Wire(), room) == f.Wire();
      WholeStep(w.frames, f, before);
      w.frames := w.frames + [f];
      e := Sent;
    } else {
      ghost var part := Taken(f.Wire(), room);
      TornStep(w.frames, w.torn, f, before, part);
      w.torn := w.torn + part;
      e := Broken;
    }
  }

  /** Writing `a` and then, if it all went through, `b` leaves what writing
      `a + b` in one go would. */
  lemma Pieces(before: seq<byte>, a: seq<byte>, b: seq<byte>, room: nat)
    ensures |a| <= room ==> Taken(a, room) == a
    ensures |a| <= room ==> before + a + Taken(b, room - |a|) == before + Taken(a + b, room)
    ensures |a| > room ==> Taken(a, room) == Taken(a + b, room)
    ensures b == [] ==> a + b == a
  {
    if |a| <= room {
      assert Taken(a + b, room) == a + Taken(b, room - |a|);
    }
  }

  lemma WholeStep(frames: seq<Frame>, f: Frame, before: seq<byte>)
    requires AllSendable(frames) && f.Sendable()
    requires before == StreamBytes(frames) + []
    ensures AllSendable(frames + [f])
    ensures before + f.Wire() == StreamBytes(frames + [f]) + []
  {
    assert (frames + [f])[..|frames|] == frames;
    assert before == StreamBytes(frames);
  }

  /** Bookkeeping of a write that broke the connection inside frame `f`. */
  lemma TornStep(frames: seq<Frame>, torn: seq<byte>, f: Frame, before: seq<byte>, part: seq<byte>)
    requires AllSendable(frames) && f.Sendable()
    requires before == StreamBytes(frames) + torn
    requires torn != [] ==> part == []
    requires part <= f.Wire() && |part| < |f.Wire()|
    ensures torn == [] ==> BeginsIn(torn + part, f)
    ensures before + part == StreamBytes(frames) + (torn + part)
    ensures torn != [] ==> torn + part == torn
  {
    Assoc(StreamBytes(frames), torn, part);
    if torn == [] {
      assert torn + part == part;
    }
  }

  // ---------------------------------------------------------------- reading

  datatype ReadError = EOF | UnexpectedEOF | InvalidLength(n: nat) | BodyError(cause: ReadError)

  /** `errors.Is(err, io.EOF)`. */
  predicate IsEOF(e: ReadError) {
    e == EOF || e == BodyError(EOF)
  }

  datatype ReadResult = Got(frame: Frame, rest: seq<byte>) | Failed(err: ReadError)

  /** What one ReadFrame makes of the unread bytes `s` of a connection that
      the peer then closes. */
  function ParseFrame(s: seq<byte>): (r: ReadResult)
    ensures r.Got? ==> r.frame.Sendable() && |r.rest| < |s|
  {
    if s == [] then Failed(EOF)
    else if |s| < FRAME_HEADER_LEN then Failed(UnexpectedEOF)
    else
      var length := GetBE(s[..FRAME_HEADER_LEN]);
      var after := s[FRAME_HEADER_LEN..];
      if length == 0 || length > MAX_FRAME_SIZE then Failed(InvalidLength(length))
      else if after == [] then Failed(BodyError(EOF))
      else if |after| < length then Failed(BodyError(UnexpectedEOF))
      else Got(Frame(after[0], after[1..length]), after[length..])
  }

  /** The reading end: the bytes that will still arrive before the peer's close. */
  class Reader {
    var unread: seq<byte>

    constructor (bytes: seq<byte>)
      ensures unread == bytes
    {
      unread := bytes;
    }

    /** io.ReadFull: fills an n-byte buffer or says how it ran out. */
    method ReadFull(n: nat) returns (buf: seq<byte>, err: Option<ReadError>)
      modifies this
      ensures err.None? <==> n <= |old(unread)|
      ensures err.None? ==> buf == old(unread)[..n] && unread == old(unread)[n..]
      ensures err.Some? ==> unread == [] && err.value == if old(unread) == [] then EOF else UnexpectedEOF
    {
      if n <= |unread| {
        buf, err := unread[..n], None;
        unread := unread[n..];
      } else {
        err := Some(if unread == [] then EOF else UnexpectedEOF);
        buf := unread;
        unread := [];
      }
    }

    method ReadFrame() returns (r: ReadResult)
      modifies this
      ensures r == ParseFrame(old(unread))
      ensures r.Got? ==> unread == r.rest
    {
      var hdr, err := ReadFull(FRAME_HEADER_LEN);
      if err.Some? {
        return Failed(err.value);
      }
      var length := GetBE(hdr);
      if length == 0 || length > MAX_FRAME_SIZE {
        return Failed(InvalidLength(length));
      }
      var body, berr := ReadFull(length);
      if berr.Some? {
        return Failed(BodyError(berr.value));
      }
      r := Got(Frame(body[0], body[1..]), unread);
    }
  }

  /** Repeated ReadFrame until the first error. */
  function ReadAll(s: seq<byte>): (r: (seq<Frame>, ReadError))
    decreases |s|
  {
    match ParseFrame(s)
    case Failed(e) => ([], e)
    case Got(f, rest) =>
      var (fs, e) := ReadAll(rest);
      ([f] + fs, e)
  }

  /** A length of zero or of more than 16 MiB is refused, whatever follows. */
  lemma LengthRefused(s: seq<byte>)
    requires |s| >= 4
    ensures var n := GetBE(s[..4]);
            ParseFrame(s) == Failed(InvalidLength(n)) <==> n == 0 || n > 16 * 1024 * 1024
  {
  }

  lemma ParseWire(f: Frame, tail: seq<byte>)
    requires f.Sendable()
    ensures ParseFrame(f.Wire() + tail) == Got(f, tail)
  {
    Widths();
    var hdr, body := PutBE(|f.payload| + 1, FRAME_HEADER_LEN), [f.kind] + f.payload;
    GetPutBE(|f.payload| + 1, FRAME_HEADER_LEN);
    assert f.Wire() == hdr + body;
    ParsePieces(hdr, body, tail);
  }

  lemma ParsePieces(hdr: seq<byte>, body: seq<byte>, tail: seq<byte>)
    requires |hdr| == FRAME_HEADER_LEN && GetBE(hdr) == |body| && 0 < |body| <= MAX_FRAME_SIZE
    ensures ParseFrame(hdr + body + tail) == Got(Frame(body[0], body[1..]), tail)
  {
    var s := hdr + body + tail;
    assert s[..FRAME_HEADER_LEN] == hdr;
    assert s[FRAME_HEADER_LEN..] == body + tail;
  }

  /** Only what Wire prints is ever accepted. */
  lemma ParseIsWire(s: seq<byte>)
    requires ParseFrame(s).Got?
    ensures var r := ParseFrame(s); s == r.frame.Wire() + r.rest
  {
    var hdr := s[..FRAME_HEADER_LEN];
    var after := s[FRAME_HEADER_LEN..];
    var length := GetBE(hdr);
    PutGetBE(hdr);
    assert after == [after[0]] + after[1..length] + after[length..];
    assert s == hdr + after;
  }

  lemma {:induction false} StreamCons(f: Frame, fs: seq<Frame>)
    requires f.Sendable() && AllSendable(fs)
    ensures AllSendable([f] + fs)
    ensures StreamBytes([f] + fs) == f.Wire() + StreamBytes(fs)
    decreases |fs|
  {
    var all := [f] + fs;
    if fs == [] {
      assert all[..0] == [];
    } else {
      var n := |fs| - 1;
      StreamCons(f, fs[..n]);
      assert all[..n + 1] == [f] + fs[..n] && all[n + 1] == fs[n];
      Assoc(f.Wire(), StreamBytes(fs[..n]), fs[n].Wire());
    }
  }

  /** Reading what was written gives back exactly the frames, in order. */
  lemma {:induction false} ReadBack(fs: seq<Frame>, tail: seq<byte>)
    requires AllSendable(fs)
    ensures ReadAll(StreamBytes(fs) + tail) == (fs + ReadAll(tail).0, ReadAll(tail).1)
    decreases |fs|
  {
    if fs == [] {
      assert [] + tail == tail;
      assert fs + ReadAll(tail).0 == ReadAll(tail).0;
    } else {
      var rest := fs[1..];
      assert fs == [fs[0]] + rest;
      StreamCons(fs[0], rest);
      Assoc(fs[0].Wire(), StreamBytes(rest), tail);
      ParseWire(fs[0], StreamBytes(rest) + tail);
      ReadBack(rest, tail);
      Assoc([fs[0]], rest, ReadAll(tail).0);
    }
  }

  /** The converse: whatever frames a reader got out of any bytes at all, those
      bytes begin with exactly these frames as written. */
  lemma {:induction false} ReadIsWritten(s: seq<byte>)
    ensures var fs := ReadAll(s).0; AllSendable(fs) && StreamBytes(fs) <= s
    decreases |s|
  {
    var r := ParseFrame(s);
    if r.Got? {
      ParseIsWire(s);
      ReadIsWritten(r.rest);
      StreamCons(r.frame, ReadAll(r.rest).0);
    }
  }

  /** The error a stream cut `c` bytes into a frame ends with. */
  function CutError(c: nat): ReadError {
    if c == 0 then EOF
    else if c < FRAME_HEADER_LEN then UnexpectedEOF
    else if c == FRAME_HEADER_LEN then BodyError(EOF)
    else BodyError(UnexpectedEOF)
  }

  lemma ParseCut(f: Frame, c: nat)
    requires f.Sendable() && c < |f.Wire()|
    ensures ParseFrame(f.Wire()[..c]) == Failed(CutError(c))
  {
    Widths();
    var s := f.Wire()[..c];
    if c >= FRAME_HEADER_LEN {
      GetPutBE(|f.payload| + 1, FRAME_HEADER_LEN);
      assert s[..FRAME_HEADER_LEN] == PutBE(|f.payload| + 1, FRAME_HEADER_LEN);
    }
  }

  /** A stream of whole frames broken off inside one more frame: the reader gets
      the whole frames and then an error, which is io.EOF exactly when the break
      is at the frame boundary or right after the 4-byte length. */
  lemma TornStreamReads(fs: seq<Frame>, next: Frame, c: nat)
    requires AllSendable(fs) && next.Sendable() && c < |next.Wire()|
    ensures ReadAll(StreamBytes(fs) + next.Wire()[..c]) == (fs, CutError(c))
    ensures IsEOF(ReadAll(StreamBytes(fs) + next.Wire()[..c]).1) <==> c == 0 || c == FRAME_HEADER_LEN
  {
    ReadBack(fs, next.Wire()[..c]);
    ParseCut(next, c);
    assert fs + [] == fs;
  }

  /** Which frame a cut after `k` bytes falls into. */
  lemma {:induction false} LocateCut(fs: seq<Frame>, k: nat) returns (i: nat, c: nat)
    requires AllSendable(fs) && k < |StreamBytes(fs)|
    ensures i < |fs| && c < |fs[i].Wire()|
    ensures StreamBytes(fs)[..k] == StreamBytes(fs[..i]) + fs[i].Wire()[..c]
    decreases |fs|
  {
    var n := |fs| - 1;
    var init := fs[..n];
    if k < |StreamBytes(init)| {
      i, c := LocateCut(init, k);
      assert init[..i] == fs[..i];
      assert StreamBytes(fs)[..k] == StreamBytes(init)[..k];
    } else {
      i, c := n, k - |StreamBytes(init)|;
    }
  }

  /** A stream cut anywhere yields a prefix of the frames, never a wrong one,
      followed by an error. */
  lemma CutStreamReadsPrefix(fs: seq<Frame>, k: nat)
    requires AllSendable(fs) && k <= |StreamBytes(fs)|
    ensures ReadAll(StreamBytes(fs)[..k]).0 <= fs
    ensures k == |StreamBytes(fs)| ==> ReadAll(StreamBytes(fs)[..k]) == (fs, EOF)
  {
    if k < |StreamBytes(fs)| {
      var i, c := LocateCut(fs, k);
      TornStreamReads(fs[..i], fs[i], c);
    } else {
      assert StreamBytes(fs)[..k] == StreamBytes(fs) + [];
      ReadBack(fs, []);
      assert fs + [] == fs;
    }
  }

  /** Everything a peer can read from a connection, at any time and cut at any
      point, is a prefix of the frames whose WriteFrame succeeded. */
  lemma ConnReadsPrefix(w: Conn, k: nat)
    requires w.Valid() && k <= |w.sent|
    ensures ReadAll(w.sent[..k]).0 <= w.frames
    ensures k == |w.sent| ==> ReadAll(w.sent[..k]).0 == w.frames
  {
    var whole := StreamBytes(w.frames);
    if k <= |whole| {
      assert w.sent[..k] == whole[..k];
      CutStreamReadsPrefix(w.frames, k);
    } else {
      var f: Frame :| BeginsIn(w.torn, f);
      var c := k - |whole|;
      assert w.sent[..k] == whole + f.Wire()[..c];
      TornStreamReads(w.frames, f, c);
    }
  }

  // ---------------------------------------------------------------- payloads

  function EncodeOffset(offset: int64): (b: seq<byte>)
    ensures |b| == 8
  {
    Widths();
    PutBE(ToUint64(offset), 8)
  }

  function DecodeOffset(b: seq<byte>): (offset: int64)
    requires |b| == 8
  {
    Widths();
    FromUint64(GetBE(b))
  }

  function EncodeAttach(offset: int64): seq<byte> {
    EncodeOffset(offset)
  }

  function DecodeAttach(payload: seq<byte>): Option<int64> {
    if |payload| != 8 then None else Some(DecodeOffset(payload))
  }

  function EncodeAck(offset: int64): seq<byte> {
    EncodeOffset(offset)
  }

  function DecodeAck(payload: seq<byte>): Option<int64> {
    if |payload| != 8 then None else Some(DecodeOffset(payload))
  }

  function EncodeData(offset: int64, data: seq<byte>): seq<byte> {
    EncodeOffset(offset) + data
  }

  function DecodeData(payload: seq<byte>): Option<(int64, seq<byte>)> {
    if |payload| < 8 then None else Some((DecodeOffset(payload[..8]), payload[8..]))
  }

  function EncodeResize(cols: uint16, rows: uint16): seq<byte> {
    Widths();
    PutBE(cols, 2) + PutBE(rows, 2)
  }

  function DecodeResize(payload: seq<byte>): Option<(uint16, uint16)> {
    Widths();
    if |payload| != 4 then None else Some((GetBE(payload[..2]), GetBE(payload[2..])))
  }

  lemma OffsetRoundTrip(offset: int64)
    ensures DecodeOffset(EncodeOffset(offset)) == offset
  {
    Widths();
    GetPutBE(ToUint64(offset), 8);
  }

  lemma OffsetBytesRoundTrip(b: seq<byte>)
    requires |b| == 8
    ensures EncodeOffset(DecodeOffset(b)) == b
  {
    Widths();
    PutGetBE(b);
  }

  /** An offset in two's complement, the most significant byte first. */
  lemma OffsetLayout(offset: int64, i: nat)
    requires i < 8
    ensures var u := if offset < 0 then offset + 0x1_0000_0000_0000_0000 else offset;
            EncodeOffset(offset)[i] as int == u / Pow256(7 - i) % 256
  {
    Widths();
    PutBEDigits(ToUint64(offset), 8, i);
  }

  /** Columns before rows. */
  lemma ResizeLayout(cols: uint16, rows: uint16)
    ensures EncodeResize(cols, rows) ==
            [(cols / 256) as byte, (cols % 256) as byte, (rows / 256) as byte, (rows % 256) as byte]
  {
    TwoBytes(cols);
    TwoBytes(rows);
  }

  lemma TwoBytes(n: uint16)
    ensures n < Pow256(2) && PutBE(n, 2) == [(n / 256) as byte, (n % 256) as byte]
  {
    Widths();
    Fewer();
    var w := 2;
    PutBEDigits(n, w, 0);
    PutBEDigits(n, w, 1);
  }

  /** ATTACH and ACK payloads: a bijection between int64 (negative offsets
      included) and 8-byte strings; every other length is refused. */
  lemma AttachCodec(offset: int64, payload: seq<byte>)
    ensures DecodeAttach(payload) == Some(offset) <==> payload == EncodeAttach(offset)
    ensures DecodeAck(payload) == Some(offset) <==> payload == EncodeAck(offset)
    ensures DecodeAttach(payload).None? <==> |payload| != 8
    ensures DecodeAck(payload).None? <==> |payload| != 8
  {
    OffsetRoundTrip(offset);
    if |payload| == 8 {
      OffsetBytesRoundTrip(payload);
    }
  }

  /** DATA payloads: a bijection between (offset, bytes) and strings of at least 8 bytes. */
  lemma DataCodec(offset: int64, data: seq<byte>, payload: seq<byte>)
    ensures DecodeData(payload) == Some((offset, data)) <==> payload == EncodeData(offset, data)
    ensures DecodeData(payload).None? <==> |payload| < 8
  {
    OffsetRoundTrip(offset);
    var b := EncodeData(offset, data);
    assert b[..8] == EncodeOffset(offset) && b[8..] == data;
    if |payload| >= 8 {
      OffsetBytesRoundTrip(payload[..8]);
      assert payload == payload[..8] + payload[8..];
    }
  }

  /** RESIZE payloads: a bijection between pairs of uint16 and 4-byte strings. */
  lemma ResizeCodec(cols: uint16, rows: uint16, payload: seq<byte>)
    ensures DecodeResize(payload) == Some((cols, rows)) <==> payload == EncodeResize(cols, rows)
    ensures DecodeResize(payload).None? <==> |payload| != 4
  {
    Widths();
    GetPutBE(cols, 2);
    GetPutBE(rows, 2);
    var b := EncodeResize(cols, rows);
    assert b[..2] == PutBE(cols, 2) && b[2..] == PutBE(rows, 2);
    if |payload| == 4 {
      PutGetBE(payload[..2]);
      PutGetBE(payload[2..]);
      assert payload == payload[..2] + payload[2..];
    }
  }

  /** The longest run of ring bytes that one DATA frame can carry. */
  const MAX_DATA: nat := MAX_FRAME_SIZE - 9

  lemma DataFrameSendable(kind: byte, offset: int64, data: seq<byte>)
    ensures Frame(kind, EncodeData(offset, data)).Sendable() <==> |data| <= MAX_DATA
  {
  }
}
