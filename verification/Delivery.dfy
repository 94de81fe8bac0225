/** How ring output reaches clients: the connection handlers and pump goroutines
    of internal/ptyhost/server.go, interleaved with ring writes. One action is
    one lock section, one channel operation or one frame under writeMu. */
module Delivery {
  import opened Bytes
  import opened Options
  import opened Ring
  import Protocol

  /** The two rings: stdout (or the merged terminal output) and stderr. */
  datatype Stream = Out | Err

  /** A frame written to a connection: DATA or STDERR_DATA, or any other reply. `sender`
      records the subscription a ring chunk was sent for; it is not on the wire. */
  datatype Frame = Data(stream: Stream, chunk: Chunk, sender: nat) | Reply

  datatype Pump = NotStarted | Waiting | Holding(chunk: Chunk) | Stopped

  /** A Subscription with its pump. `asked`, `replay`, `replayed`, `log`, `emitted`
      and `lost` record its past: the offset of its ATTACH, the replay taken when it
      was registered and whether that was sent, every chunk its channel accepted, how
      many of those were sent, and how many bytes the full channel lost. */
  datatype Sub = Sub(
    stream: Stream, owner: nat, asked: int,
    queue: seq<Chunk>, registered: bool, closes: nat, pump: Pump,
    replay: Chunk, replayed: bool, log: seq<Chunk>, emitted: nat, lost: nat)

  /** Where a handler is in its read-dispatch loop. An ATTACH goes through
      Detaching, Closing, Snapshotting, Replaying and Launching for stdout and,
      in pipe mode, once more for stderr; the deferred clean-up goes through the
      Leaving states. */
  datatype Pc =
    | Starting | Reading | Replying | Typing
    | Detaching(stream: Stream, offset: int)
    | Closing(stream: Stream, offset: int)
    | Snapshotting(stream: Stream, offset: int)
    | Replaying(stream: Stream)
    | Launching(stream: Stream)
    | LeavingDetach(stream: Stream)
    | LeavingClose(stream: Stream)
    | LeavingConn
    | Gone

  /** A connection: up, given up by the peer, whose last frames can still be read, or
      closed by this side. */
  datatype Link = Up | PeerGone | Closed

  /** `out` and `err` are the local variables sub and errSub; `outs` and `errs`
      count the subscriptions the handler has ever taken. */
  datatype Handler = Handler(
    pc: Pc, out: Option<nat>, err: Option<nat>, link: Link, sent: seq<Frame>,
    outs: nat, errs: nat)
  {
    function Slot(st: Stream): Option<nat> {
      if st == Out then out else err
    }

    function WithSlot(st: Stream, slot: Option<nat>): Handler {
      if st == Out then this.(out := slot) else this.(err := slot)
    }

    function Taken(st: Stream): nat {
      if st == Out then outs else errs
    }

    function Counted(st: Stream): Handler {
      if st == Out then this.(outs := outs + 1) else this.(errs := errs + 1)
    }
  }

  datatype State = State(
    capacity: nat, pipe: bool, out: seq<byte>, err: seq<byte>,
    handlers: seq<Handler>, subs: seq<Sub>)
  {
    function History(st: Stream): seq<byte> {
      if st == Out then out else err
    }

    function WithHandler(h: nat, hd: Handler): State
      requires h < |handlers|
    {
      this.(handlers := handlers[h := hd])
    }

    function WithSub(i: nat, sub: Sub): State
      requires i < |subs|
    {
      this.(subs := subs[i := sub])
    }
  }

  datatype Message = Attach(offset: int) | Request | Input | Shutdown | Ignored

  datatype Action =
    | Write(stream: Stream, bytes: seq<byte>)
    | Accept
    | Receive(h: nat, msg: Message)
    | ReadError(h: nat)
    | PeerLeaves(h: nat)
    | Disconnect(h: nat)
    | Step(h: nat)
    | Dequeue(i: nat)
    | Emit(i: nat)
    | Quit(i: nat)

  predicate Init(s: State) {
    s.capacity > 0 && s.out == [] && s.err == [] && s.handlers == [] && s.subs == []
  }

  /** Local variables point at subscriptions that exist, and are set where the
      code uses them. */
  predicate WellFormed(s: State) {
    && (forall i :: 0 <= i < |s.subs| ==> s.subs[i].owner < |s.handlers|)
    && (forall h :: 0 <= h < |s.handlers| ==> HandlerFormed(s.handlers[h], |s.subs|))
  }

  predicate HandlerFormed(hd: Handler, subs: nat) {
    && (hd.out.Some? ==> hd.out.value < subs)
    && (hd.err.Some? ==> hd.err.value < subs)
    && ((hd.pc.Closing? || hd.pc.Replaying? || hd.pc.Launching? || hd.pc.LeavingClose?) ==> hd.Slot(hd.pc.stream).Some?)
  }

  predicate Enabled(s: State, a: Action) {
    match a
    case Write(_, _) => true
    case Accept => true
    case Receive(h, _) => h < |s.handlers| && s.handlers[h].pc == Reading && s.handlers[h].link != Closed
    case ReadError(h) => h < |s.handlers| && s.handlers[h].pc == Reading
    case PeerLeaves(h) => h < |s.handlers|
    case Disconnect(h) => h < |s.handlers|
    case Step(h) => h < |s.handlers| && s.handlers[h].pc != Reading && s.handlers[h].pc != Gone
    case Dequeue(i) => i < |s.subs| && s.subs[i].pump == Waiting && s.subs[i].queue != []
    case Emit(i) => i < |s.subs| && s.subs[i].pump.Holding?
    case Quit(i) => i < |s.subs| && s.subs[i].pump == Waiting && s.subs[i].closes > 0
  }

  function Apply(s: State, a: Action): (t: State)
    requires WellFormed(s) && Enabled(s, a)
  {
    match a
    case Write(st, p) => RingWrite(s, st, p)
    case Accept => s.(handlers := s.handlers + [Handler(Starting, None, None, Up, [], 0, 0)])
    case Receive(h, msg) => s.WithHandler(h, Dispatch(s.handlers[h], msg))
    case ReadError(h) => s.WithHandler(h, s.handlers[h].(pc := LeavingDetach(Out)))
    case PeerLeaves(h) => s.WithHandler(h, Left(s.handlers[h]))
    case Disconnect(h) => s.WithHandler(h, s.handlers[h].(link := Closed))
    case Step(h) => HandlerStep(s, h)
    case Dequeue(i) =>
      var sub := s.subs[i];
      s.WithSub(i, sub.(pump := Holding(sub.queue[0]), queue := sub.queue[1..]))
    case Emit(i) => EmitStep(s, i)
    case Quit(i) => s.WithSub(i, s.subs[i].(pump := Stopped))
  }

  /** Ring.Write: the chunk goes to the ring and is offered to every registered
      subscription. */
  function RingWrite(s: State, st: Stream, p: seq<byte>): (t: State) {
    var c := Chunk(|s.History(st)|, p);
    var subs := seq(|s.subs|, i requires 0 <= i < |s.subs| =>
      if s.subs[i].registered && s.subs[i].stream == st && p != [] then Offered(s.subs[i], c) else s.subs[i]);
    var t := s.(subs := subs);
    if st == Out then t.(out := s.out + p) else t.(err := s.err + p)
  }

  function Offered(sub: Sub, c: Chunk): Sub {
    if |sub.queue| < CHANNEL_SLOTS
    then sub.(queue := Offer(sub.queue, c), log := sub.log + [c])
    else sub.(lost := sub.lost + |c.data|)
  }

  function Dispatch(hd: Handler, msg: Message): Handler {
    match msg
    case Attach(offset) => hd.(pc := Detaching(Out, offset))
    case Request => hd.(pc := Replying)
    case Input => hd.(pc := Typing)
    case Shutdown => hd.(pc := LeavingDetach(Out))
    case Ignored => hd
  }

  function Left(hd: Handler): Handler {
    if hd.link == Up then hd.(link := PeerGone) else hd
  }

  /** writeFrame succeeds on an open connection with a payload that fits. */
  predicate Writable(hd: Handler, c: Chunk) {
    hd.link == Up && |c.data| <= Protocol.MAX_DATA
  }

  function HandlerStep(s: State, h: nat): (t: State)
    requires WellFormed(s) && Enabled(s, Step(h))
  {
    var hd := s.handlers[h];
    assert HandlerFormed(hd, |s.subs|);
    match hd.pc
    case Starting => s.WithHandler(h, hd.(pc := Reading))
    case Reading => s
    case Replying =>
      s.WithHandler(h, hd.(pc := Reading, sent := if hd.link == Up then hd.sent + [Reply] else hd.sent))
    case Typing => s.WithHandler(h, hd.(pc := Reading))
    case Detaching(st, offset) =>
      if hd.Slot(st).None? then s.WithHandler(h, hd.(pc := Snapshotting(st, offset)))
      else Unregister(s, hd.Slot(st).value).WithHandler(h, hd.(pc := Closing(st, offset)))
    case Closing(st, offset) =>
      CloseDone(s, hd.Slot(st).value).WithHandler(h, hd.WithSlot(st, None).(pc := Snapshotting(st, offset)))
    case Snapshotting(st, offset) =>
      var r := Replay(s.capacity, s.History(st), offset);
      var sub := Sub(st, h, offset, [], true, 0, NotStarted, r, false, [], 0, 0);
      s.(subs := s.subs + [sub]).WithHandler(h,
        hd.WithSlot(st, Some(|s.subs|)).Counted(st).(pc := Replaying(st)))
    case Replaying(st) =>
      var i := hd.Slot(st).value;
      if Writable(hd, s.subs[i].replay) then
        s.WithSub(i, s.subs[i].(replayed := true))
         .WithHandler(h, hd.(pc := Launching(st), sent := hd.sent + [Data(st, s.subs[i].replay, i)]))
      else s.WithHandler(h, hd.(pc := LeavingDetach(Out)))
    case Launching(st) =>
      s.WithSub(hd.Slot(st).value, s.subs[hd.Slot(st).value].(pump := Waiting))
       .WithHandler(h, hd.(pc := if st == Out && s.pipe then Detaching(Err, -1) else Reading))
    case LeavingDetach(st) =>
      if hd.Slot(st).None? then s.WithHandler(h, hd.(pc := AfterLeaving(st)))
      else Unregister(s, hd.Slot(st).value).WithHandler(h, hd.(pc := LeavingClose(st)))
    case LeavingClose(st) =>
      CloseDone(s, hd.Slot(st).value).WithHandler(h, hd.WithSlot(st, None).(pc := AfterLeaving(st)))
    case LeavingConn => s.WithHandler(h, hd.(pc := Gone, link := Closed))
    case Gone => s
  }

  function AfterLeaving(st: Stream): Pc {
    if st == Out then LeavingDetach(Err) else LeavingConn
  }

  /** The two halves of Unsubscribe: leave the map under the lock, then close Done. */
  function Unregister(s: State, i: nat): State
    requires i < |s.subs|
  {
    s.WithSub(i, s.subs[i].(registered := false))
  }

  function CloseDone(s: State, i: nat): State
    requires i < |s.subs|
  {
    s.WithSub(i, s.subs[i].(closes := s.subs[i].closes + 1))
  }

  function EmitStep(s: State, i: nat): (t: State)
    requires WellFormed(s) && Enabled(s, Emit(i))
  {
    if Writable(s.handlers[s.subs[i].owner], s.subs[i].pump.chunk) then Emitted(s, i)
    else s.WithSub(i, s.subs[i].(pump := Stopped))
  }

  function Emitted(s: State, i: nat): (t: State)
    requires WellFormed(s) && Enabled(s, Emit(i))
  {
    var sub := s.subs[i];
    var hd := s.handlers[sub.owner];
    s.WithSub(i, sub.(pump := Waiting, emitted := sub.emitted + 1))
     .WithHandler(sub.owner, hd.(sent := hd.sent + [Data(sub.stream, sub.pump.chunk, i)]))
  }

  /** A run: the state after performing `as` one after the other, if each was
      enabled in its turn. */
  ghost predicate Runs(s: State, actions: seq<Action>, t: State)
    decreases |actions|
  {
    if actions == [] then s == t
    else
      && WellFormed(s)
      && Enabled(s, actions[0])
      && Runs(Apply(s, actions[0]), actions[1..], t)
  }
}
