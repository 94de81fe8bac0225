/** handleConn of internal/ptyhost/server.go as its own goroutine runs it: the
    read-dispatch loop over a real ring, reader and connection, with the deferred
    clean-up. What other goroutines do in between is the subject of Delivery. */
module Handler {
  import opened Bytes
  import opened Options
  import opened Ring
  import opened Protocol

  /** The frame that answers the ATTACH of one stream. */
  function ReplayFrame(kind: byte, capacity: nat, history: seq<byte>, offset: int): Frame
    requires |history| < TWO_63
  {
    var c := Replay(capacity, history, offset);
    Frame(kind, EncodeData(c.offset, c.data))
  }

  /** The payload decodes to bytes that were written at the offset it names. */
  ghost predicate Truthful(payload: seq<byte>, history: seq<byte>) {
    var d := DecodeData(payload);
    d.Some? && d.value.0 >= 0 && Chunk(d.value.0, d.value.1).TrueIn(history)
  }

  /** What a handler may write: its two fixed replies and true ring bytes. */
  ghost predicate Answer(f: Frame, out: seq<byte>, err: seq<byte>) {
    || f.kind == MSG_HELLO || f.kind == MSG_STATUS
    || (f.kind == MSG_DATA && Truthful(f.payload, out))
    || (f.kind == MSG_STDERR_DATA && Truthful(f.payload, err))
  }

  ghost predicate Answers(said: seq<Frame>, out: seq<byte>, err: seq<byte>)
    decreases |said|
  {
    said == [] || (Answers(said[..|said| - 1], out, err) && Answer(said[|said| - 1], out, err))
  }

  lemma {:induction false} AnswersMore(a: seq<Frame>, b: seq<Frame>, out: seq<byte>, err: seq<byte>)
    requires Answers(a, out, err) && Answers(b, out, err)
    ensures Answers(a + b, out, err)
    decreases |b|
  {
    if b == [] {
      assert a + b == a;
    } else {
      AnswersMore(a, b[..|b| - 1], out, err);
      assert (a + b)[..|a + b| - 1] == a + b[..|b| - 1];
    }
  }

  lemma ReplayIsTruthful(kind: byte, capacity: nat, history: seq<byte>, offset: int)
    requires |history| < TWO_63
    ensures Truthful(ReplayFrame(kind, capacity, history, offset).payload, history)
  {
    var c := Replay(capacity, history, offset);
    DataCodec(c.offset, c.data, EncodeData(c.offset, c.data));
  }

  lemma OneAnswer(f: Frame, out: seq<byte>, err: seq<byte>)
    requires Answer(f, out, err)
    ensures Answers([f], out, err)
  {
    assert [f][..0] == [];
  }

  // ------------------------------------------------ what gets through

  /** A frame is not too large, and there is room for it. */
  predicate Fits(room: nat, f: Frame) {
    f.Sendable() && |f.Wire()| <= room
  }

  /** The room there is after an attempt to write it. */
  function Rest(room: nat, f: Frame): nat {
    if !f.Sendable() then room else if |f.Wire()| <= room then room - |f.Wire()| else 0
  }

  /** What a connection with room for `room` bytes carries of `frames`, written one after
      the other: all that are not too large, up to the first it has no room for. */
  function Delivered(room: nat, frames: seq<Frame>): seq<Frame>
    decreases |frames|
  {
    if frames == [] then []
    else if !frames[0].Sendable() then Delivered(room, frames[1..])
    else if |frames[0].Wire()| > room then []
    else [frames[0]] + Delivered(room - |frames[0].Wire()|, frames[1..])
  }

  /** And the room it has then. */
  function RoomLeft(room: nat, frames: seq<Frame>): nat
    decreases |frames|
  {
    if frames == [] then room
    else if !frames[0].Sendable() then RoomLeft(room, frames[1..])
    else if |frames[0].Wire()| > room then 0
    else RoomLeft(room - |frames[0].Wire()|, frames[1..])
  }

  lemma {:induction false} NoRoom(frames: seq<Frame>)
    ensures Delivered(0, frames) == [] && RoomLeft(0, frames) == 0
    decreases |frames|
  {
    if frames != [] && !frames[0].Sendable() {
      NoRoom(frames[1..]);
    }
  }

  /** Writing on. */
  lemma {:induction false} DeliveredMore(room: nat, a: seq<Frame>, b: seq<Frame>)
    ensures Delivered(room, a + b) == Delivered(room, a) + Delivered(RoomLeft(room, a), b)
    ensures RoomLeft(room, a + b) == RoomLeft(RoomLeft(room, a), b)
    decreases |a|
  {
    if a == [] {
      assert a + b == b;
    } else {
      assert (a + b)[1..] == a[1..] + b && (a + b)[0] == a[0];
      if !a[0].Sendable() {
        DeliveredMore(room, a[1..], b);
      } else if |a[0].Wire()| > room {
        NoRoom(b);
      } else {
        DeliveredMore(room - |a[0].Wire()|, a[1..], b);
        Assoc([a[0]], Delivered(room - |a[0].Wire()|, a[1..]), Delivered(RoomLeft(room, a), b));
      }
    }
  }

  /** One frame gets through iff it is not too large and there is room for it. */
  lemma OneDelivered(room: nat, f: Frame)
    ensures Delivered(room, [f]) == if Fits(room, f) then [f] else []
    ensures RoomLeft(room, [f]) == Rest(room, f)
  {
    assert [f][1..] == [];
  }

  // ------------------------------------------------ what a client is told

  /** What the answers depend on. */
  datatype View = View(
    pipe: bool, outCap: nat, out: seq<byte>, errCap: nat, err: seq<byte>, hello: seq<byte>, status: seq<byte>)

  ghost predicate SmallView(v: View) {
    |v.out| < TWO_63 && |v.err| < TWO_63
  }

  /** An ATTACH whose payload has eight bytes. */
  predicate IsAttach(f: Frame) {
    f.kind == MSG_ATTACH && DecodeAttach(f.payload).Some?
  }

  /** The frames that answer `f`. */
  function Wants(v: View, f: Frame): seq<Frame>
    requires |v.out| < TWO_63 && |v.err| < TWO_63
  {
    if f.kind == MSG_HELLO then [Frame(MSG_HELLO, v.hello)]
    else if f.kind == MSG_STATUS && f.payload == [] then [Frame(MSG_STATUS, v.status)]
    else if IsAttach(f) then AttachAnswer(v.pipe, v.outCap, v.out, v.errCap, v.err, DecodeAttach(f.payload).value)
    else []
  }

  /** An ATTACH is answered with what the ring retains from the offset asked for, an
      evicted offset moved up to the oldest byte and a future one down to the end, and in
      pipe mode with all that is retained of stderr. */
  lemma AttachWants(v: View, f: Frame)
    requires SmallView(v) && IsAttach(f)
    ensures var asked := DecodeAttach(f.payload).value;
            var oldest := if |v.out| < v.outCap then 0 else |v.out| - v.outCap;
            var start := if asked < oldest then oldest else if asked > |v.out| then |v.out| else asked;
            var errStart := if |v.err| < v.errCap then 0 else |v.err| - v.errCap;
            && |Wants(v, f)| == (if v.pipe then 2 else 1)
            && Wants(v, f)[0] == Frame(MSG_DATA, EncodeData(start, v.out[start..]))
            && (v.pipe ==> Wants(v, f)[1] == Frame(MSG_STDERR_DATA, EncodeData(errStart, v.err[errStart..])))
  {
  }

  function AllWants(v: View, frames: seq<Frame>): seq<Frame>
    requires |v.out| < TWO_63 && |v.err| < TWO_63
  {
    if frames == [] then [] else AllWants(v, frames[..|frames| - 1]) + Wants(v, frames[|frames| - 1])
  }

  /** An ATTACH with an answer that cannot all be written. */
  predicate Refused(v: View, room: nat, f: Frame)
    requires |v.out| < TWO_63 && |v.err| < TWO_63
  {
    IsAttach(f) && Delivered(room, Wants(v, f)) != Wants(v, f)
  }

  lemma DataFits(room: nat, kind: byte, start: nat, data: seq<byte>)
    requires start < TWO_63
    ensures Fits(room, Frame(kind, EncodeData(start, data))) <==> |data| <= 0x100_0000 - 9 && |data| + 13 <= room
  {
  }

  lemma {:induction false} TwoDelivered(room: nat, f: Frame, g: Frame)
    ensures Delivered(room, [f, g]) == [f, g] <==> Fits(room, f) && Fits(Rest(room, f), g)
  {
    OneDelivered(room, f);
    OneDelivered(Rest(room, f), g);
    DeliveredMore(room, [f], [g]);
    assert [f] + [g] == [f, g];
  }

  /** It is refused iff one of the replays has more than 2^24 - 9 bytes, or the
      connection has no room for it and the 13 bytes in front of it. */
  lemma RefusedMeans(v: View, room: nat, f: Frame)
    requires SmallView(v) && IsAttach(f)
    ensures var asked := DecodeAttach(f.payload).value;
            var out := |Replay(v.outCap, v.out, asked).data|;
            var err := |Replay(v.errCap, v.err, -1).data|;
            Refused(v, room, f) <==>
              || out > 0x100_0000 - 9 || out + 13 > room
              || (v.pipe && (err > 0x100_0000 - 9 || out + 13 + err + 13 > room))
  {
    var a := Replay(v.outCap, v.out, DecodeAttach(f.payload).value);
    var b := Replay(v.errCap, v.err, -1);
    DataFits(room, MSG_DATA, a.offset, a.data);
    var first := Frame(MSG_DATA, EncodeData(a.offset, a.data));
    if v.pipe {
      DataFits(Rest(room, first), MSG_STDERR_DATA, b.offset, b.data);
      TwoDelivered(room, first, Frame(MSG_STDERR_DATA, EncodeData(b.offset, b.data)));
    } else {
      OneDelivered(room, first);
    }
  }

  /** The loop ends with frame `k`. */
  predicate Stops(v: View, room: nat, frames: seq<Frame>, k: nat)
    requires |v.out| < TWO_63 && |v.err| < TWO_63 && k < |frames|
  {
    frames[k].kind == MSG_SHUTDOWN || Refused(v, RoomLeft(room, AllWants(v, frames[..k])), frames[k])
  }

  /** One stream of a handler: its ring, and the subscription it holds there, if any. */
  class Slot {
    const ring: Ring
    const kind: byte
    var sub: Subscription?
    ghost const others: set<Subscription>

    /** The map holds the subscriptions of other handlers and this open one. */
    ghost predicate Valid()
      reads this, ring, ring.buf, sub
    {
      && ring.Valid() && |ring.history| < TWO_63
      && ring.subs == others + Own()
      && Own() !! others
      && (sub != null ==> !sub.done)
    }

    ghost function Own(): set<Subscription>
      reads this
    {
      if sub == null then {} else {sub}
    }

    constructor (ring: Ring, kind: byte)
      requires ring.Valid() && |ring.history| < TWO_63
      ensures Valid() && this.ring == ring && this.kind == kind && sub == null && others == ring.subs
    {
      this.ring, this.kind, sub, others := ring, kind, null, ring.subs;
    }

    method Unsubscribe()
      requires Valid()
      modifies this`sub, ring`subs, Own()
      ensures Valid() && sub == null && ring.subs == others
      ensures old(sub) != null ==> old(sub).done
    {
      if sub != null {
        ring.Unsubscribe(sub);
        sub := null;
      }
    }

    /** The ATTACH of this stream: leave the old subscription, take a replay and a
        new subscription at one instant, send the replay. */
    method Attach(offset: int, conn: Conn) returns (sent: bool, ghost said: seq<Frame>)
      requires Valid() && conn.Valid()
      modifies this`sub, ring`subs, Own(), conn
      ensures Valid() && conn.Valid() && sub != null && fresh(sub) && sub.ch == []
      ensures old(sub) != null ==> old(sub).done
      ensures sent ==> |Replay(ring.buf.Length, ring.history, offset).data| <= MAX_DATA
      ensures said == if sent then [ReplayFrame(kind, ring.buf.Length, ring.history, offset)] else []
      ensures conn.frames == old(conn.frames) + said
      ensures var f := ReplayFrame(kind, ring.buf.Length, ring.history, offset);
              (sent <==> Fits(old(conn.room), f)) && conn.room == Rest(old(conn.room), f)
      ensures sent ==> Truthful(said[0].payload, ring.history)
    {
      ReplayIsTruthful(kind, ring.buf.Length, ring.history, offset);
      var data, start := Resubscribe(offset);
      sent, said := SendData(start, data, conn);
    }

    method Resubscribe(offset: int) returns (data: seq<byte>, start: nat)
      requires Valid()
      modifies this`sub, ring`subs, Own()
      ensures Valid() && sub != null && fresh(sub) && sub.ch == []
      ensures old(sub) != null ==> old(sub).done
      ensures Chunk(start, data) == Replay(ring.buf.Length, ring.history, offset)
    {
      Unsubscribe();
      data, start, sub := ring.SnapshotAndSubscribe(offset);
    }

    method SendData(start: nat, data: seq<byte>, conn: Conn) returns (sent: bool, ghost said: seq<Frame>)
      requires conn.Valid() && start < TWO_63
      modifies conn
      ensures conn.Valid()
      ensures sent ==> |data| <= MAX_DATA
      ensures said == if sent then [Frame(kind, EncodeData(start, data))] else []
      ensures conn.frames == old(conn.frames) + said
      ensures var f := Frame(kind, EncodeData(start, data));
              (sent <==> Fits(old(conn.room), f)) && conn.room == Rest(old(conn.room), f)
    {
      var e := WriteFrame(conn, kind, EncodeData(start, data));
      DataFrameSendable(kind, start, data);
      sent := e.Sent?;
      said := if sent then [Frame(kind, EncodeData(start, data))] else [];
    }
  }

  /** What a served ATTACH puts on the connection. */
  function AttachAnswer(pipe: bool, outCap: nat, out: seq<byte>, errCap: nat, err: seq<byte>, offset: int): seq<Frame>
    requires |out| < TWO_63 && |err| < TWO_63
  {
    [ReplayFrame(MSG_DATA, outCap, out, offset)] + if pipe then [ReplayFrame(MSG_STDERR_DATA, errCap, err, -1)] else []
  }

  /** The two replays, the second one tried only if the first got through. */
  ghost predicate Tried(
    room: nat, pipe: bool, f: Frame, g: Frame, first: seq<Frame>, second: seq<Frame>, left: nat)
  {
    && first == (if Fits(room, f) then [f] else [])
    && second == (if first != [] && pipe && Fits(Rest(room, f), g) then [g] else [])
    && left == if first != [] && pipe then Rest(Rest(room, f), g) else Rest(room, f)
  }

  lemma AttachOutcome(pipe: bool, room: nat, f: Frame, g: Frame, first: seq<Frame>, second: seq<Frame>, left: nat)
    requires Tried(room, pipe, f, g, first, second, left)
    ensures var wants, served := [f] + (if pipe then [g] else []), first != [] && (pipe ==> second != []);
            && (served <==> Delivered(room, wants) == wants)
            && (served ==> first + second == wants)
            && (served ==> RoomLeft(room, wants) == left)
            && (!served ==> first + second <= wants && first + second != wants)
  {
    OneDelivered(room, f);
    if pipe {
      OneDelivered(Rest(room, f), g);
      DeliveredMore(room, [f], [g]);
    } else {
      PlusNil([f]);
    }
  }

  lemma BothAnswer(first: seq<Frame>, second: seq<Frame>, out: seq<byte>, err: seq<byte>)
    requires |first| <= 1 && (first != [] ==> first[0].kind == MSG_DATA && Truthful(first[0].payload, out))
    requires |second| <= 1 && (second != [] ==> second[0].kind == MSG_STDERR_DATA && Truthful(second[0].payload, err))
    ensures Answers(first + second, out, err)
  {
    if first != [] {
      OneAnswer(first[0], out, err);
      assert first == [first[0]];
    }
    if second != [] {
      OneAnswer(second[0], out, err);
      assert second == [second[0]];
    }
    AnswersMore(first, second, out, err);
  }

  class Handler {
    const out: Slot
    const err: Slot
    const conn: Conn
    const pipe: bool
    const hello: seq<byte>
    const status: seq<byte>

    ghost predicate Valid()
      reads this, conn, out, out.ring, out.ring.buf, out.sub, err, err.ring, err.ring.buf, err.sub
    {
      && out.Valid() && err.Valid() && conn.Valid()
      && out.kind == MSG_DATA && err.kind == MSG_STDERR_DATA
      && out != err && out.ring != err.ring && out.Own() !! err.Own()
    }

    constructor (out: Slot, err: Slot, conn: Conn, pipe: bool, hello: seq<byte>, status: seq<byte>)
      requires out.Valid() && err.Valid() && conn.Valid() && out != err && out.ring != err.ring
      requires out.kind == MSG_DATA && err.kind == MSG_STDERR_DATA && out.sub == null && err.sub == null
      ensures Valid() && this.out == out && this.err == err && this.conn == conn && this.pipe == pipe
    {
      this.out, this.err, this.conn, this.pipe := out, err, conn, pipe;
      this.hello, this.status := hello, status;
    }

    /** What the answers depend on here. */
    ghost function Sees(): (v: View)
      reads out.ring`history, err.ring`history
    {
      View(pipe, out.ring.buf.Length, out.ring.history, err.ring.buf.Length, err.ring.history, hello, status)
    }

    ghost function OutFrame(offset: int): Frame
      requires |out.ring.history| < TWO_63
      reads out.ring`history
    {
      ReplayFrame(MSG_DATA, out.ring.buf.Length, out.ring.history, offset)
    }

    ghost function ErrFrame(): Frame
      requires |err.ring.history| < TWO_63
      reads err.ring`history
    {
      ReplayFrame(MSG_STDERR_DATA, err.ring.buf.Length, err.ring.history, -1)
    }

    method AttachErr() returns (sent: bool, ghost said: seq<Frame>)
      requires Valid()
      modifies err`sub, err.ring`subs, conn, err.Own()
      ensures Valid() && fresh(err.Own())
      ensures said == if sent then [ErrFrame()] else []
      ensures (sent <==> Fits(old(conn.room), ErrFrame())) && conn.room == Rest(old(conn.room), ErrFrame())
      ensures conn.frames == old(conn.frames) + said
      ensures sent ==> Truthful(said[0].payload, err.ring.history)
    {
      sent, said := err.Attach(-1, conn);
    }

    method AttachOut(offset: int) returns (sent: bool, ghost said: seq<Frame>)
      requires Valid()
      modifies out`sub, out.ring`subs, conn, out.Own()
      ensures Valid() && fresh(out.Own())
      ensures said == if sent then [OutFrame(offset)] else []
      ensures (sent <==> Fits(old(conn.room), OutFrame(offset))) && conn.room == Rest(old(conn.room), OutFrame(offset))
      ensures conn.frames == old(conn.frames) + said
      ensures sent ==> Truthful(said[0].payload, out.ring.history)
    {
      sent, said := out.Attach(offset, conn);
    }

    /** The two halves of an ATTACH, the second one only in pipe mode and after the first. */
    method AttachBoth(offset: int) returns (sent: bool, ghost first: seq<Frame>, ghost second: seq<Frame>)
      requires Valid()
      modifies out`sub, err`sub, out.ring`subs, err.ring`subs, conn, out.Own(), err.Own()
      ensures Valid() && fresh(out.Own()) && (err.sub != old(err.sub) ==> fresh(err.Own()))
      ensures conn.frames == old(conn.frames) + first + second
      ensures sent <==> first != [] && (pipe ==> second != [])
      ensures Tried(old(conn.room), pipe, OutFrame(offset), ErrFrame(), first, second, conn.room)
    {
      sent, first := AttachOut(offset);
      if !sent || !pipe {
        PlusNil(conn.frames);
        return sent, first, [];
      }
      sent, second := AttachErr();
    }

    /** An ATTACH: stdout from the offset asked for and, in pipe mode, all of stderr;
        the handler leaves if one of them cannot be sent. */
    method Attach(offset: int) returns (leave: bool, ghost said: seq<Frame>)
      requires Valid()
      modifies out`sub, err`sub, out.ring`subs, err.ring`subs, conn, out.Own(), err.Own()
      ensures Valid() && fresh(out.Own()) && (err.sub != old(err.sub) ==> fresh(err.Own()))
      ensures conn.frames == old(conn.frames) + said && Answers(said, out.ring.history, err.ring.history)
      ensures !leave ==>
                said == AttachAnswer(pipe, out.ring.buf.Length, out.ring.history, err.ring.buf.Length, err.ring.history,
                                     offset)
      ensures var wants := AttachAnswer(pipe, out.ring.buf.Length, out.ring.history, err.ring.buf.Length,
                                        err.ring.history, offset);
              && (leave <==> Delivered(old(conn.room), wants) != wants)
              && (leave ==> said <= wants && said != wants)
              && (!leave ==> conn.room == RoomLeft(old(conn.room), wants))
    {
      ghost var before, room := conn.frames, conn.room;
      ghost var first, second;
      var sent;
      sent, first, second := AttachBoth(offset);
      Assoc(before, first, second);
      ReplayIsTruthful(MSG_DATA, out.ring.buf.Length, out.ring.history, offset);
      ReplayIsTruthful(MSG_STDERR_DATA, err.ring.buf.Length, err.ring.history, -1);
      BothAnswer(first, second, out.ring.history, err.ring.history);
      AttachOutcome(pipe, room, OutFrame(offset), ErrFrame(), first, second, conn.room);
      leave, said := !sent, first + second;
    }

    /** A fixed reply; whether it could be sent does not matter. */
    method Respond(kind: byte, payload: seq<byte>) returns (ghost said: seq<Frame>)
      requires Valid() && (kind == MSG_HELLO || kind == MSG_STATUS)
      modifies conn
      ensures Valid()
      ensures conn.frames == old(conn.frames) + said && Answers(said, out.ring.history, err.ring.history)
      ensures said == [] || said == [Frame(kind, payload)]
      ensures said == [] <==> !Fits(old(conn.room), Frame(kind, payload))
      ensures conn.room == Rest(old(conn.room), Frame(kind, payload))
    {
      OneAnswer(Frame(kind, payload), out.ring.history, err.ring.history);
      var e := WriteFrame(conn, kind, payload);
      said := if e.Sent? then [Frame(kind, payload)] else [];
    }

    method OnRequest(f: Frame) returns (ghost said: seq<Frame>)
      requires Valid() && (f.kind == MSG_HELLO || (f.kind == MSG_STATUS && f.payload == []))
      modifies conn
      ensures Valid()
      ensures conn.frames == old(conn.frames) + said && Answers(said, out.ring.history, err.ring.history)
      ensures Dispatched(Sees(), old(conn.room), f, said, false, false, conn.room)
    {
      ghost var room := conn.room;
      said := Respond(f.kind, if f.kind == MSG_HELLO then hello else status);
      ReplyDispatched(Sees(), room, f, Frame(f.kind, if f.kind == MSG_HELLO then hello else status), said, conn.room);
    }

    method OnAttach(f: Frame) returns (leave: bool, ghost said: seq<Frame>)
      requires Valid() && f.kind == MSG_ATTACH
      modifies out`sub, err`sub, out.ring`subs, err.ring`subs, conn, out.Own(), err.Own()
      ensures Valid()
      ensures (out.sub != old(out.sub) ==> fresh(out.Own())) && (err.sub != old(err.sub) ==> fresh(err.Own()))
      ensures conn.frames == old(conn.frames) + said && Answers(said, out.ring.history, err.ring.history)
      ensures Dispatched(Sees(), old(conn.room), f, said, false, leave, conn.room)
    {
      ghost var room := conn.room;
      var offset := DecodeAttach(f.payload);
      if offset.None? {
        QuietDispatched(Sees(), room, f);
        PlusNil(conn.frames);
        return false, [];
      }
      leave, said := Attach(offset.value);
      AttachDispatched(Sees(), room, f, said, leave, conn.room);
    }

    /** One frame of the client: whether the handler leaves, whether it asked for a
        shutdown, what it passed on to the child, and the terminal size it asked for. */
    method Dispatch(f: Frame)
      returns (leave: bool, shutdown: bool, input: seq<byte>, size: Option<(uint16, uint16)>, ghost said: seq<Frame>)
      requires Valid()
      modifies out`sub, err`sub, out.ring`subs, err.ring`subs, conn, out.Own(), err.Own()
      ensures Valid()
      ensures (out.sub != old(out.sub) ==> fresh(out.Own())) && (err.sub != old(err.sub) ==> fresh(err.Own()))
      ensures conn.frames == old(conn.frames) + said && Answers(said, out.ring.history, err.ring.history)
      ensures input == (if f.kind == MSG_INPUT then f.payload else [])
      ensures size == if f.kind == MSG_RESIZE then DecodeResize(f.payload) else None
      ensures Dispatched(Sees(), old(conn.room), f, said, shutdown, leave, conn.room)
    {
      leave, shutdown, input, size, said := false, false, [], None, [];
      if f.kind == MSG_HELLO {
        said := OnRequest(f);
      } else if f.kind == MSG_ATTACH {
        leave, said := OnAttach(f);
      } else if f.kind == MSG_STATUS && f.payload == [] {
        said := OnRequest(f);
      } else {
        QuietDispatched(Sees(), conn.room, f);
        PlusNil(conn.frames);
        if f.kind == MSG_INPUT {
          input := f.payload;
        } else if f.kind == MSG_RESIZE {
          size := DecodeResize(f.payload);
        } else if f.kind == MSG_SHUTDOWN {
          leave, shutdown := true, true;
        }
      }
    }

    /** ReadFrame and what follows from it; `got` is the frame, if there was one. */
    method ReadOne(reader: Reader)
      returns (leave: bool, shutdown: bool, input: seq<byte>, ghost got: seq<Frame>, ghost said: seq<Frame>)
      requires Valid()
      modifies out`sub, err`sub, out.ring`subs, err.ring`subs, conn, reader, out.Own(), err.Own()
      ensures Valid()
      ensures (out.sub != old(out.sub) ==> fresh(out.Own())) && (err.sub != old(err.sub) ==> fresh(err.Own()))
      ensures conn.frames == old(conn.frames) + said && Answers(said, out.ring.history, err.ring.history)
      ensures |got| <= 1 && input == InputsOf(got)
      ensures ReadAll(old(reader.unread)).0 == got + if got == [] then [] else ReadAll(reader.unread).0
      ensures got == [] ==> leave && !shutdown
      ensures got != [] ==> |reader.unread| < |old(reader.unread)|
      ensures got == [] ==> ReadAll(old(reader.unread)).0 == [] && said == [] && conn.room == old(conn.room)
      ensures got != [] ==> Dispatched(Sees(), old(conn.room), got[0], said, shutdown, leave, conn.room)
    {
      var r := reader.ReadFrame();
      if r.Failed? {
        return true, false, [], [], [];
      }
      got := [r.frame];
      OneInput(r.frame);
      var size;
      leave, shutdown, input, size, said := Dispatch(r.frame);
    }

    /** The deferred clean-up. */
    method Leave()
      requires Valid()
      modifies out`sub, err`sub, out.ring`subs, err.ring`subs, out.Own(), err.Own()
      ensures Valid() && out.sub == null && err.sub == null
      ensures out.ring.subs == out.others && err.ring.subs == err.others
      ensures old(out.sub) != null ==> old(out.sub).done
      ensures old(err.sub) != null ==> old(err.sub).done
    {
      out.Unsubscribe();
      err.Unsubscribe();
    }

    /** The read-dispatch loop. */
    method Serve(reader: Reader)
      returns (shutdown: bool, input: seq<byte>, ghost handled: seq<Frame>, ghost said: seq<Frame>)
      requires Valid() && out.sub == null && err.sub == null
      modifies out`sub, err`sub, out.ring`subs, err.ring`subs, conn, reader
      ensures Valid() && fresh(out.Own()) && fresh(err.Own())
      ensures conn.frames == old(conn.frames) + said && Answers(said, out.ring.history, err.ring.history)
      ensures Handled(Sees(), old(conn.room), ReadAll(old(reader.unread)).0, handled, said)
      ensures input == InputsOf(handled)
      ensures shutdown <==> handled != [] && handled[|handled| - 1].kind == MSG_SHUTDOWN
    {
      shutdown, input, handled, said := false, [], [], [];
      var leave := false;
      ghost var all, room, v := ReadAll(reader.unread).0, conn.room, Sees();
      while !leave
        invariant Valid() && fresh(out.Own()) && fresh(err.Own()) && Sees() == v
        invariant conn.frames == old(conn.frames) + said && Answers(said, out.ring.history, err.ring.history)
        invariant leave || all == handled + ReadAll(reader.unread).0
        invariant Turn(v, room, all, Talk(handled, said, input, shutdown), leave, conn.room)
        decreases !leave, |reader.unread|
      {
        var more;
        ghost var got, now, before;
        before := conn.room;
        leave, shutdown, more, got, now := ReadOne(reader);
        LoopTurn(
          v, room, all, old(conn.frames), Talk(handled, said, input, false), before, got,
          if got == [] then [] else ReadAll(reader.unread).0, now, more, shutdown, leave, conn.room);
        handled, said := handled + got, said + now;
        input := input + more;
      }
    }

    /** The whole life of a connection whose client sends these bytes: whatever they
        are, the maps end up as they were, every answer is a fixed reply or true
        ring bytes, and the child gets the input frames read, in order. The handler
        reads on until a read fails, a SHUTDOWN, or an ATTACH it cannot answer, and all
        that fits the connection is answered. */
    method HandleConn(reader: Reader)
      returns (shutdown: bool, input: seq<byte>, ghost handled: seq<Frame>, ghost said: seq<Frame>)
      requires Valid() && out.sub == null && err.sub == null
      modifies out`sub, err`sub, out.ring`subs, err.ring`subs, conn, reader
      ensures Valid() && out.ring.subs == old(out.ring.subs) && err.ring.subs == old(err.ring.subs)
      ensures conn.frames == old(conn.frames) + said && Answers(said, out.ring.history, err.ring.history)
      ensures var all, v, room := ReadAll(old(reader.unread)).0, Sees(), old(conn.room);
              && handled <= all
              && (handled == all || (handled != [] && Stops(v, room, handled, |handled| - 1)))
              && (forall k :: 0 <= k < |handled| - 1 ==> !Stops(v, room, handled, k))
              && Said(v, room, handled, said)
      ensures input == InputsOf(handled)
      ensures shutdown <==> handled != [] && handled[|handled| - 1].kind == MSG_SHUTDOWN
    {
      shutdown, input, handled, said := Serve(reader);
      Leave();
    }
  }

  // ------------------------------------------------ the loop, turn by turn

  /** What was said: all that was wanted and fits, but for a last ATTACH that could not be
      answered, of whose answer only a part was sent. */
  ghost predicate Said(v: View, room: nat, handled: seq<Frame>, said: seq<Frame>)
    requires SmallView(v)
  {
    var n := |handled| - 1;
    if n >= 0 && Refused(v, RoomLeft(room, AllWants(v, handled[..n])), handled[n])
    then exists part :: part <= Wants(v, handled[n]) && part != Wants(v, handled[n])
                        && said == Delivered(room, AllWants(v, handled[..n])) + part
    else said == Delivered(room, AllWants(v, handled))
  }

  ghost predicate Handled(v: View, room: nat, all: seq<Frame>, handled: seq<Frame>, said: seq<Frame>)
    requires SmallView(v)
  {
    && handled <= all
    && (handled == all || (handled != [] && Stops(v, room, handled, |handled| - 1)))
    && (forall k :: 0 <= k < |handled| - 1 ==> !Stops(v, room, handled, k))
    && Said(v, room, handled, said)
  }

  ghost predicate GoesOn(v: View, room: nat, handled: seq<Frame>, said: seq<Frame>, left: nat)
    requires SmallView(v)
  {
    && (forall k :: 0 <= k < |handled| ==> !Stops(v, room, handled, k))
    && said == Delivered(room, AllWants(v, handled)) && left == RoomLeft(room, AllWants(v, handled))
  }

  lemma StopsBefore(v: View, room: nat, handled: seq<Frame>, f: Frame, k: nat)
    requires SmallView(v) && k < |handled|
    ensures Stops(v, room, handled + [f], k) == Stops(v, room, handled, k)
  {
    assert (handled + [f])[..k] == handled[..k];
  }

  lemma LastWants(v: View, handled: seq<Frame>, f: Frame)
    requires SmallView(v)
    ensures AllWants(v, handled + [f]) == AllWants(v, handled) + Wants(v, f)
    ensures (handled + [f])[..|handled|] == handled
  {
    assert (handled + [f])[..|handled|] == handled;
  }

  /** Nothing more was read. */
  lemma NothingRead(v: View, room: nat, all: seq<Frame>, handled: seq<Frame>, said: seq<Frame>, left: nat)
    requires SmallView(v) && GoesOn(v, room, handled, said, left) && all == handled
    ensures Handled(v, room, all, handled, said)
    ensures handled != [] ==> handled[|handled| - 1].kind != MSG_SHUTDOWN
  {
    var n := |handled| - 1;
    if n >= 0 {
      assert !Stops(v, room, handled, n);
    }
  }

  /** A frame was read and answered, as far as it fits. */
  lemma FrameRead(
      v: View, room: nat, all: seq<Frame>, handled: seq<Frame>, said: seq<Frame>, before: nat,
      f: Frame, now: seq<Frame>, leave: bool, left: nat)
    requires SmallView(v) && GoesOn(v, room, handled, said, before) && handled + [f] <= all
    requires leave <==> f.kind == MSG_SHUTDOWN || Refused(v, before, f)
    requires !Refused(v, before, f) ==> now == Delivered(before, Wants(v, f)) && left == RoomLeft(before, Wants(v, f))
    requires Refused(v, before, f) ==> now <= Wants(v, f) && now != Wants(v, f)
    ensures if leave then Handled(v, room, all, handled + [f], said + now)
            else GoesOn(v, room, handled + [f], said + now, left)
  {
    var longer := handled + [f];
    LastWants(v, handled, f);
    DeliveredMore(room, AllWants(v, handled), Wants(v, f));
    forall k | 0 <= k < |handled| ensures !Stops(v, room, longer, k) {
      StopsBefore(v, room, handled, f, k);
    }
  }

  /** What a handler has done so far. */
  datatype Talk = Talk(handled: seq<Frame>, said: seq<Frame>, input: seq<byte>, shutdown: bool)

  /** After a turn of the loop. */
  ghost predicate Turn(v: View, room: nat, all: seq<Frame>, k: Talk, leave: bool, left: nat)
    requires SmallView(v)
  {
    && k.input == InputsOf(k.handled)
    && (if leave then
          && Handled(v, room, all, k.handled, k.said)
          && (k.shutdown <==> k.handled != [] && k.handled[|k.handled| - 1].kind == MSG_SHUTDOWN)
        else GoesOn(v, room, k.handled, k.said, left) && !k.shutdown)
  }

  /** What Dispatch makes of a frame. */
  ghost predicate Dispatched(v: View, before: nat, f: Frame, now: seq<Frame>, shutdown: bool, leave: bool, left: nat)
    requires SmallView(v)
  {
    && (shutdown <==> f.kind == MSG_SHUTDOWN)
    && (leave <==> f.kind == MSG_SHUTDOWN || Refused(v, before, f))
    && (!Refused(v, before, f) ==> now == Delivered(before, Wants(v, f)) && left == RoomLeft(before, Wants(v, f)))
    && (Refused(v, before, f) ==> now <= Wants(v, f) && now != Wants(v, f))
  }

  /** Frame by frame: each HELLO and each empty STATUS is answered when its reply fits, a
      served ATTACH with both replays, and nothing else is answered. */
  lemma DispatchMeans(v: View, before: nat, f: Frame, now: seq<Frame>, shutdown: bool, leave: bool, left: nat)
    requires SmallView(v) && Dispatched(v, before, f, now, shutdown, leave, left)
    ensures f.kind == MSG_HELLO ==>
              now == if Fits(before, Frame(MSG_HELLO, v.hello)) then [Frame(MSG_HELLO, v.hello)] else []
    ensures f.kind == MSG_STATUS ==>
              now == if f.payload == [] && Fits(before, Frame(MSG_STATUS, v.status)) then [Frame(MSG_STATUS, v.status)]
                     else []
    ensures f.kind == MSG_ATTACH && DecodeAttach(f.payload).Some? && !leave ==>
              now == AttachAnswer(v.pipe, v.outCap, v.out, v.errCap, v.err, DecodeAttach(f.payload).value)
    ensures now != [] ==> f.kind == MSG_HELLO || f.kind == MSG_STATUS || f.kind == MSG_ATTACH
    ensures leave ==> f.kind == MSG_SHUTDOWN || (f.kind == MSG_ATTACH && DecodeAttach(f.payload).Some?)
    ensures shutdown ==> leave
  {
    OneDelivered(before, Frame(MSG_HELLO, v.hello));
    OneDelivered(before, Frame(MSG_STATUS, v.status));
  }

  lemma OneInput(f: Frame)
    ensures InputsOf([f]) == if f.kind == MSG_INPUT then f.payload else []
  {
    assert [f][..0] == [];
  }

  lemma QuietDispatched(v: View, before: nat, f: Frame)
    requires SmallView(v)
    ensures Wants(v, f) == [] ==>
              Dispatched(v, before, f, [], f.kind == MSG_SHUTDOWN, f.kind == MSG_SHUTDOWN, before)
  {
  }

  lemma ReplyDispatched(v: View, before: nat, f: Frame, reply: Frame, now: seq<Frame>, left: nat)
    requires SmallView(v) && f.kind != MSG_SHUTDOWN && !IsAttach(f) && Wants(v, f) == [reply]
    requires now == (if Fits(before, reply) then [reply] else []) && left == Rest(before, reply)
    ensures Dispatched(v, before, f, now, false, false, left)
  {
    OneDelivered(before, reply);
  }

  lemma AttachDispatched(v: View, before: nat, f: Frame, now: seq<Frame>, leave: bool, left: nat)
    requires SmallView(v) && IsAttach(f)
    requires leave <==> Delivered(before, Wants(v, f)) != Wants(v, f)
    requires leave ==> now <= Wants(v, f) && now != Wants(v, f)
    requires !leave ==> now == Wants(v, f) && left == RoomLeft(before, Wants(v, f))
    ensures Dispatched(v, before, f, now, false, leave, left)
  {
  }

  lemma NextTurn(
      v: View, room: nat, all: seq<Frame>, k: Talk, before: nat, got: seq<Frame>, now: seq<Frame>,
      more: seq<byte>, shutdown: bool, leave: bool, left: nat)
    requires SmallView(v) && Turn(v, room, all, k, false, before)
    requires |got| <= 1 && k.handled + got <= all && more == InputsOf(got)
    requires got == [] ==> all == k.handled && now == [] && leave && !shutdown
    requires got != [] ==> Dispatched(v, before, got[0], now, shutdown, leave, left)
    ensures Turn(v, room, all, Talk(k.handled + got, k.said + now, k.input + more, shutdown), leave, left)
  {
    InputsMore(k.handled, got);
    if got == [] {
      PlusNil(k.handled);
      PlusNil(k.said);
      NothingRead(v, room, all, k.handled, k.said, before);
    } else {
      assert got == [got[0]];
      FrameRead(v, room, all, k.handled, k.said, before, got[0], now, leave, left);
    }
  }

  /** All there is to a turn of the loop. */
  lemma LoopTurn(
      v: View, room: nat, all: seq<Frame>, sent: seq<Frame>, k: Talk, before: nat, got: seq<Frame>, rest: seq<Frame>,
      now: seq<Frame>, more: seq<byte>, shutdown: bool, leave: bool, left: nat)
    requires SmallView(v) && Turn(v, room, all, k, false, before)
    requires |got| <= 1 && all == k.handled + (got + rest) && more == InputsOf(got)
    requires Answers(k.said, v.out, v.err) && Answers(now, v.out, v.err)
    requires got == [] ==> rest == [] && now == [] && leave && !shutdown
    requires got != [] ==> Dispatched(v, before, got[0], now, shutdown, leave, left)
    ensures Turn(v, room, all, Talk(k.handled + got, k.said + now, k.input + more, shutdown), leave, left)
    ensures all == k.handled + got + rest
    ensures Answers(k.said + now, v.out, v.err) && sent + k.said + now == sent + (k.said + now)
  {
    OneTurn(all, k.handled, got, rest);
    OneMore(sent, k.said, now, v.out, v.err);
    if got == [] {
      PlusNil(k.handled);
    }
    NextTurn(v, room, all, k, before, got, now, more, shutdown, leave, left);
  }

  /** Everything a run of frames passes on to the child. */
  function InputsOf(frames: seq<Frame>): seq<byte> {
    if frames == [] then []
    else
      var f := frames[|frames| - 1];
      InputsOf(frames[..|frames| - 1]) + if f.kind == MSG_INPUT then f.payload else []
  }

  lemma OneMore(frames: seq<Frame>, said: seq<Frame>, now: seq<Frame>, out: seq<byte>, err: seq<byte>)
    requires Answers(said, out, err) && Answers(now, out, err)
    ensures Answers(said + now, out, err)
    ensures frames + said + now == frames + (said + now)
  {
    AnswersMore(said, now, out, err);
    Assoc(frames, said, now);
  }

  lemma InputsMore(handled: seq<Frame>, got: seq<Frame>)
    requires |got| <= 1
    ensures InputsOf(handled + got) == InputsOf(handled) + InputsOf(got)
  {
    if got == [] {
      assert handled + got == handled;
    } else {
      assert (handled + got)[..|handled|] == handled;
      assert got[..0] == [];
    }
  }

  lemma OneTurn(all: seq<Frame>, handled: seq<Frame>, got: seq<Frame>, rest: seq<Frame>)
    requires |got| <= 1 && all == handled + (got + rest)
    ensures InputsOf(handled + got) == InputsOf(handled) + InputsOf(got)
    ensures all == (handled + got) + rest && handled + got <= all
  {
    InputsMore(handled, got);
    Assoc(handled, got, rest);
  }
}
