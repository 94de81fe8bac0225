/** Server.Run of internal/ptyhost/server.go from the moment the child has been
    spawned: the main goroutine, the acceptor, the child waiter, the output
    pumps and, through Delivery, every connection handler and its pumps. One
    action is one blocking operation or one lock section of one goroutine. */
module Lifecycle {
  import opened Bytes
  import opened Options
  import D = Delivery
  import Output

  /** Why Run is on its way out. */
  datatype Why = Undecided | ByLinger | ByShutdown | ByContext | ByListenError

  /** Where the main goroutine is: in Selecting it waits in its select loop,
      Swapping to Spawning are replaceConn, Terminating to AwaitingExit are
      terminateChild and the receive from childExited, and StoppingAccept to
      WaitingAll are teardown. */
  datatype Pc =
    | Listening | Selecting
    | Swapping | ClosingPrev | Spawning
    | Terminating | Grace | AwaitingExit
    | StoppingAccept | ClosingListener | TakingActive | ClosingActive | WaitingAll
    | Returned

  /** The main goroutine: `conn` and `closing` are the connections replaceConn and
      closeActiveConn hold, the arms say which channels its select still reads,
      and `stops` counts how often stopAccept was closed. */
  datatype Main = Main(
    pc: Pc, why: Why, conn: nat, closing: Option<nat>, active: Option<nat>, listening: bool,
    acceptErr: bool, acceptErrArm: bool, exitArm: bool, linger: bool, shutdownReq: bool, stops: nat)

  datatype Acceptor = NoAcceptor | Accepting | Handing | Dropping | Failing | AcceptorDone

  datatype WaiterPc = Draining | Reaping | Recording | ClosingPty | Announcing | WaiterLeaving | WaiterDone

  /** The child and waitChild: `reaps` counts the calls of cmd.Wait, `announced`
      how often childExited was closed. */
  datatype Child = Child(
    waiter: WaiterPc, alive: bool, exited: bool, reaps: nat, timedOut: bool, killed: bool, announced: nat)

  datatype SourcePc = Pumping | Storing(chunk: seq<byte>) | Finishing | SourceLeaving | SourceDone

  /** One output of the child with the pumpToRing goroutine that reads it:
      `written` is all the child ever wrote, `pending` what is still in the pipe.
      `drained` is the pump's stdioDone.Done(); `clean` says that it stopped
      because it saw the end of the stream. */
  datatype Source = Source(
    pc: SourcePc, written: seq<byte>, pending: seq<byte>,
    writeOpen: bool, readOpen: bool, drained: bool, clean: bool)

  datatype State = State(
    d: D.State, main: Main, acceptor: Acceptor, child: Child, out: Source, err: Source, wg: int)
  {
    function Src(st: D.Stream): Source {
      if st == D.Out then out else err
    }

    function WithSrc(st: D.Stream, src: Source): State {
      if st == D.Out then this.(out := src) else this.(err := src)
    }
  }

  datatype Action =
    // the environment
    | ChildWrites(st: D.Stream, bytes: seq<byte>)
    | ChildCloses(st: D.Stream)
    | ChildExits
    | PeerDisconnects(h: nat)
    | InputTaken(h: nat)
    // the main goroutine
    | ListenOk | ListenFails
    | TakeConn | TakeAcceptErr | SeeExit | LingerOver | TakeShutdown | Cancelled
    | GraceOver
    | MainStep
    // the acceptor
    | AcceptConn | AcceptFails | SeeStop | AcceptorStep
    // the child waiter
    | DrainDone | DrainTimesOut | WaiterStep
    // the output pumps
    | ReadSome(st: D.Stream, n: nat) | ReadEnd(st: D.Stream) | SourceStep(st: D.Stream)
    // handlers and their pumps
    | Handle(a: D.Action)

  const FRESH_SOURCE := Source(Pumping, [], [], true, true, false, false)
  const NO_SOURCE := Source(SourceDone, [], [], false, false, false, false)

  predicate Init(s: State) {
    && D.Init(s.d)
    && s.main == Main(Listening, Undecided, 0, None, None, false, false, true, true, false, false, 0)
    && s.acceptor == NoAcceptor
    && s.child == Child(if s.d.pipe then Draining else Reaping, true, false, 0, false, false, 0)
    && s.out == FRESH_SOURCE
    && s.err == (if s.d.pipe then FRESH_SOURCE else NO_SOURCE)
    && s.wg == (if s.d.pipe then 3 else 2)
  }

  predicate Ended(pc: SourcePc) {
    pc == Finishing || pc == SourceLeaving || pc == SourceDone
  }

  predicate Enabled(s: State, a: Action)
    requires D.WellFormed(s.d)
  {
    match a
    case ChildWrites(st, _) => s.Src(st).writeOpen
    case ChildCloses(st) => s.Src(st).writeOpen
    case ChildExits => !s.child.exited
    case PeerDisconnects(h) => h < |s.d.handlers|
    case InputTaken(h) => h < |s.d.handlers| && s.d.handlers[h].pc == D.Typing
    case ListenOk => s.main.pc == Listening
    case ListenFails => s.main.pc == Listening
    case TakeConn => s.main.pc == Selecting && s.acceptor == Handing
    case TakeAcceptErr => s.main.pc == Selecting && s.main.acceptErr && s.main.acceptErrArm
    case SeeExit => s.main.pc == Selecting && s.main.exitArm && s.child.announced > 0
    case LingerOver => s.main.pc == Selecting && s.main.linger
    case TakeShutdown => s.main.pc == Selecting && s.main.shutdownReq
    case Cancelled => s.main.pc == Selecting
    case GraceOver => s.main.pc == Grace
    case MainStep => MainReady(s)
    case AcceptConn => s.acceptor == Accepting && s.main.listening
    case AcceptFails => s.acceptor == Accepting
    case SeeStop => s.acceptor == Handing && s.main.stops > 0
    case AcceptorStep => s.acceptor == Dropping || s.acceptor == Failing
    case DrainDone => s.child.waiter == Draining && s.out.drained && s.err.drained
    case DrainTimesOut => s.child.waiter == Draining
    case WaiterStep =>
      && s.child.waiter != Draining && s.child.waiter != WaiterDone
      && (s.child.waiter == Reaping ==> s.child.exited)
    case ReadSome(st, n) =>
      && s.Src(st).pc == Pumping && s.Src(st).readOpen
      && 0 < n <= |s.Src(st).pending| && n <= Output.READ_SIZE
    case ReadEnd(st) =>
      s.Src(st).pc == Pumping && (!s.Src(st).readOpen || (s.Src(st).pending == [] && !s.Src(st).writeOpen))
    case SourceStep(st) => s.Src(st).pc.Storing? || s.Src(st).pc == Finishing || s.Src(st).pc == SourceLeaving
    case Handle(a) =>
      && D.Enabled(s.d, a)
      && !a.Write? && !a.Accept? && !a.PeerLeaves? && !a.Disconnect?
      && (a.Step? ==> s.d.handlers[a.h].pc != D.Starting && (s.d.handlers[a.h].pc == D.Typing ==> !s.out.readOpen))
  }

  /** MainStep is the next operation of the main goroutine where it has only one. */
  predicate MainReady(s: State) {
    match s.main.pc
    case Listening => false
    case Selecting => false
    case Swapping => true
    case ClosingPrev => s.main.closing.Some? ==> s.main.closing.value < |s.d.handlers|
    case Spawning => s.main.conn < |s.d.handlers| && s.d.handlers[s.main.conn].pc == D.Starting
    case Terminating => true
    case Grace => s.child.announced > 0
    case AwaitingExit => s.child.announced > 0
    case StoppingAccept => true
    case ClosingListener => true
    case TakingActive => true
    case ClosingActive => s.main.closing.Some? ==> s.main.closing.value < |s.d.handlers|
    case WaitingAll => s.wg == 0
    case Returned => false
  }

  /** An action moves one goroutine of Run and may act on rings and connections. */
  function Apply(s: State, a: Action): (t: State)
    requires D.WellFormed(s.d) && Enabled(s, a)
  {
    Control(s, a).(d := Through(s.d, Effect(s, a)))
  }

  function Through(d: D.State, b: Option<D.Action>): D.State
    requires D.WellFormed(d) && (b.Some? ==> D.Enabled(d, b.value))
  {
    if b.None? then d else D.Apply(d, b.value)
  }

  /** What an action does to rings, connections and subscriptions. */
  function Effect(s: State, a: Action): (b: Option<D.Action>)
    requires D.WellFormed(s.d) && Enabled(s, a)
    ensures b.Some? ==> D.Enabled(s.d, b.value)
  {
    match a
    case PeerDisconnects(h) => Some(D.PeerLeaves(h))
    case InputTaken(h) => Some(D.Step(h))
    case MainStep => MainEffect(s)
    case SourceStep(st) =>
      if s.Src(st).pc.Storing? then Some(D.Write(st, s.Src(st).pc.chunk)) else None
    case Handle(b) => Some(b)
    case _ => None
  }

  /** replaceConn installs the new connection, closes the one before it and starts
      the handler; closeActiveConn closes the last one. */
  function MainEffect(s: State): (b: Option<D.Action>)
    requires D.WellFormed(s.d) && MainReady(s)
    ensures b.Some? ==> D.Enabled(s.d, b.value)
  {
    match s.main.pc
    case Swapping => Some(D.Accept)
    case Spawning => Some(D.Step(s.main.conn))
    case ClosingPrev => Closed(s.main.closing)
    case ClosingActive => Closed(s.main.closing)
    case _ => None
  }

  function Closed(conn: Option<nat>): Option<D.Action> {
    if conn.None? then None else Some(D.Disconnect(conn.value))
  }

  /** What an action does to the goroutines of Run and the fields they share. */
  function Control(s: State, a: Action): (t: State)
    requires D.WellFormed(s.d) && Enabled(s, a)
  {
    match a
    case ChildWrites(st, bytes) =>
      var src := s.Src(st);
      s.WithSrc(st, src.(written := src.written + bytes, pending := src.pending + bytes))
    case ChildCloses(st) => s.WithSrc(st, s.Src(st).(writeOpen := false))
    case ChildExits => s.(child := s.child.(exited := true))
    case PeerDisconnects(_) => s
    case InputTaken(_) => s
    case ListenOk => s.(main := s.main.(pc := Selecting, listening := true), acceptor := Accepting, wg := s.wg + 1)
    case ListenFails => s.(main := s.main.(pc := Terminating, why := ByListenError))
    case TakeConn => s.(main := s.main.(pc := Swapping), acceptor := Accepting)
    case TakeAcceptErr => s.(main := s.main.(acceptErr := false, acceptErrArm := false))
    case SeeExit => s.(main := s.main.(exitArm := false, linger := true))
    case LingerOver => s.(main := s.main.(pc := StoppingAccept, why := ByLinger))
    case TakeShutdown => s.(main := s.main.(pc := Terminating, why := ByShutdown, shutdownReq := false))
    case Cancelled => s.(main := s.main.(pc := Terminating, why := ByContext))
    case GraceOver => s.(main := s.main.(pc := AwaitingExit), child := s.child.(killed := true))
    case MainStep => MainControl(s)
    case AcceptConn => s.(acceptor := Handing)
    case AcceptFails => s.(acceptor := Failing)
    case SeeStop => s.(acceptor := Dropping)
    case AcceptorStep =>
      s.(acceptor := AcceptorDone, wg := s.wg - 1,
         main := s.main.(acceptErr := s.main.acceptErr || s.acceptor == Failing))
    case DrainDone => s.(child := s.child.(waiter := Reaping))
    case DrainTimesOut => s.(child := s.child.(waiter := Reaping, timedOut := true))
    case WaiterStep => WaiterControl(s)
    case ReadSome(st, n) =>
      var src := s.Src(st);
      s.WithSrc(st, src.(pc := Storing(src.pending[..n]), pending := src.pending[n..]))
    case ReadEnd(st) =>
      var src := s.Src(st);
      s.WithSrc(st, src.(pc := Finishing, clean := src.pending == [] && !src.writeOpen))
    case SourceStep(st) => SourceControl(s, st)
    case Handle(b) =>
      s.(wg := s.wg + WgChange(s.d, b),
         main := s.main.(shutdownReq := s.main.shutdownReq || (b.Receive? && b.msg == D.Shutdown)))
  }

  function MainControl(s: State): (t: State)
    requires MainReady(s)
  {
    var m := s.main;
    match m.pc
    case Swapping =>
      s.(main := m.(pc := ClosingPrev, conn := |s.d.handlers|, closing := m.active, active := Some(|s.d.handlers|)))
    case ClosingPrev => s.(main := m.(pc := Spawning, closing := None))
    case Spawning => s.(main := m.(pc := Selecting), wg := s.wg + 1)
    case Terminating => s.(main := m.(pc := if s.child.alive then Grace else AwaitingExit))
    case Grace => s.(main := m.(pc := AwaitingExit))
    case AwaitingExit => s.(main := m.(pc := if m.why == ByListenError then WaitingAll else StoppingAccept))
    case StoppingAccept => s.(main := m.(pc := ClosingListener, stops := m.stops + 1))
    case ClosingListener => s.(main := m.(pc := TakingActive, listening := false))
    case TakingActive => s.(main := m.(pc := ClosingActive, closing := m.active, active := None))
    case ClosingActive => s.(main := m.(pc := WaitingAll, closing := None))
    case WaitingAll => s.(main := m.(pc := Returned))
    case _ => s
  }

  /** cmd.Wait closes the pipes in pipe mode; in terminal mode the waiter closes
      the terminal itself. */
  function WaiterControl(s: State): (t: State) {
    var c := s.child;
    match c.waiter
    case Reaping =>
      var t := s.(child := c.(waiter := Recording, reaps := c.reaps + 1));
      if s.d.pipe then t.(out := s.out.(readOpen := false), err := s.err.(readOpen := false)) else t
    case Recording => s.(child := c.(waiter := ClosingPty, alive := false))
    case ClosingPty =>
      var t := s.(child := c.(waiter := Announcing));
      if s.d.pipe then t else t.(out := s.out.(readOpen := false))
    case Announcing => s.(child := c.(waiter := WaiterLeaving, announced := c.announced + 1))
    case WaiterLeaving => s.(child := c.(waiter := WaiterDone), wg := s.wg - 1)
    case _ => s
  }

  function SourceControl(s: State, st: D.Stream): (t: State) {
    var src := s.Src(st);
    match src.pc
    case Storing(_) => s.WithSrc(st, src.(pc := Pumping))
    case Finishing => s.WithSrc(st, src.(pc := SourceLeaving, drained := true))
    case SourceLeaving => s.WithSrc(st, src.(pc := SourceDone)).(wg := s.wg - 1)
    case _ => s
  }

  /** The wg.Add of startPump, and the wg.Done of a handler or pump that returns. */
  function WgChange(d: D.State, a: D.Action): int
    requires D.WellFormed(d) && D.Enabled(d, a)
  {
    match a
    case Step(h) =>
      if d.handlers[h].pc.Launching? then 1
      else if d.handlers[h].pc == D.LeavingConn then -1
      else 0
    case Emit(i) =>
      if D.Writable(d.handlers[d.subs[i].owner], d.subs[i].pump.chunk) then 0 else -1
    case Quit(_) => -1
    case _ => 0
  }

  /** A run: the state after performing `actions` one after the other, if each was
      enabled in its turn. */
  ghost predicate Runs(s: State, actions: seq<Action>, t: State)
    decreases |actions|
  {
    if actions == [] then s == t
    else
      && D.WellFormed(s.d)
      && Enabled(s, actions[0])
      && Runs(Apply(s, actions[0]), actions[1..], t)
  }
}
