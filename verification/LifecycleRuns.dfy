/** Every action of Run's goroutines keeps the lifecycle invariant, and seen from
    the rings and connections every run is a run of Delivery. */
module LifecycleRuns {
  import opened Bytes
  import opened Options
  import opened Lifecycle
  import opened LifecycleSafety
  import opened Sums
  import D = Delivery
  import S = DeliverySafety

  lemma DeliveryKept(s: State, a: Action)
    requires S.Inv(s.d) && Enabled(s, a)
    ensures S.Inv(Through(s.d, Effect(s, a)))
  {
    var b := Effect(s, a);
    if b.Some? {
      S.ApplyKeeps(s.d, b.value);
    }
  }

  // ------------------------------------------------ the WaitGroup count

  /** How many goroutines of the delivery part an action adds. */
  function Added(d: D.State, b: D.Action): int
    requires D.WellFormed(d) && D.Enabled(d, b)
  {
    if b.Step? && d.handlers[b.h].pc == D.Starting then 1 else WgChange(d, b)
  }

  lemma WriteCounts(d: D.State, st: D.Stream, p: seq<byte>)
    ensures LiveIn(D.RingWrite(d, st, p)) == LiveIn(d)
  {
    SumSame(d.subs, D.RingWrite(d, st, p).subs, PumpCount);
  }

  lemma LinkCounts(d: D.State, b: D.Action)
    requires D.WellFormed(d) && D.Enabled(d, b) && (b.PeerLeaves? || b.Disconnect?)
    ensures LiveIn(D.Apply(d, b)) == LiveIn(d)
  {
    CountHandler(d, b.h, D.Apply(d, b).handlers[b.h]);
  }

  lemma OtherCounts(d: D.State, b: D.Action)
    requires D.WellFormed(d) && D.Enabled(d, b)
    requires b.Write? || b.Accept? || b.PeerLeaves? || b.Disconnect? || (b.Step? && d.handlers[b.h].pc == D.Starting)
    ensures LiveIn(D.Apply(d, b)) == LiveIn(d) + Added(d, b)
  {
    match b
    case Write(st, p) => WriteCounts(d, st, p);
    case Accept => SumAppend(d.handlers, D.Apply(d, D.Accept).handlers[|d.handlers|], HandlerCount);
    case PeerLeaves(_) => LinkCounts(d, b);
    case Disconnect(_) => LinkCounts(d, b);
    case Step(h) => QuietCounts(d, h);
  }

  lemma DeliveryCounts(d: D.State, b: D.Action)
    requires S.Inv(d) && D.Enabled(d, b)
    ensures LiveIn(D.Apply(d, b)) == LiveIn(d) + Added(d, b)
  {
    match b
    case Step(h) =>
      if d.handlers[h].pc == D.Starting {
        OtherCounts(d, b);
      } else {
        StepCounts(d, h);
      }
    case Emit(i) => EmitCounts(d, i);
    case Receive(_, _) => HandleCounts(d, b);
    case ReadError(_) => HandleCounts(d, b);
    case Dequeue(_) => HandleCounts(d, b);
    case Quit(_) => HandleCounts(d, b);
    case _ => OtherCounts(d, b);
  }

  // ------------------------------------------------ handlers and their pumps

  /** The part of the invariant that is about Run itself. */
  ghost predicate Kept(s: State) {
    WaiterInv(s) && SourcesInv(s) && MainInv(s) && ConnInv(s)
  }

  lemma HandledKeeps(s: State, t: State)
    requires WaiterInv(s) && SourcesInv(s) && ConnInv(s) && HandleFrame(s.d, t.d)
    requires t == s.(d := t.d, wg := t.wg, main := s.main.(shutdownReq := t.main.shutdownReq))
    ensures WaiterInv(t) && SourcesInv(t) && ConnInv(t)
  {
  }

  lemma HandledMain(s: State, t: State)
    requires MainInv(s) && (s.main.pc == Returned ==> t.wg == 0)
    requires t == s.(d := t.d, wg := t.wg, main := s.main.(shutdownReq := t.main.shutdownReq))
    ensures MainInv(t)
  {
  }

  /** At zero no goroutine is left that could call wg.Add or wg.Done. */
  lemma QuietAtZero(s: State, a: D.Action)
    requires D.WellFormed(s.d) && Enabled(s, Handle(a)) && Live(s) == 0
    ensures WgChange(s.d, a) == 0
  {
    match a
    case Step(h) => if s.d.handlers[h].pc != D.Gone { SumAtLeast(s.d.handlers, h, HandlerCount); }
    case Emit(i) => SumAtLeast(s.d.subs, i, PumpCount);
    case Quit(i) => SumAtLeast(s.d.subs, i, PumpCount);
    case _ =>
  }

  lemma HandleKept(s: State, a: D.Action, e: D.State)
    requires Inv(s) && Enabled(s, Handle(a)) && HandleFrame(s.d, e)
    ensures Kept(Control(s, Handle(a)).(d := e))
  {
    if s.main.pc == Returned {
      QuietAtZero(s, a);
    }
    var t := Control(s, Handle(a)).(d := e);
    HandledKeeps(s, t);
    HandledMain(s, t);
  }

  // ------------------------------------------------ the child's output

  /** What no move of a source undoes. */
  predicate SourceMove(src: Source, src': Source) {
    && src'.readOpen == src.readOpen
    && (src'.writeOpen ==> src.writeOpen)
    && (src.clean ==> src'.clean)
    && (src.pc == SourceDone ==> src'.pc == SourceDone)
  }

  lemma SourceKeeps(s: State, st: D.Stream, src: Source)
    requires Kept(s)
    requires SourceMove(s.Src(st), src) && SourceInv(src, s.d.History(st))
    ensures Kept(s.WithSrc(st, src))
  {
    match st
    case Out =>
    case Err =>
  }

  lemma WritesMove(src: Source, history: seq<byte>, bytes: seq<byte>)
    requires SourceInv(src, history) && src.writeOpen
    ensures SourceInv(src.(written := src.written + bytes, pending := src.pending + bytes), history)
  {
    Assoc(history + InHand(src), src.pending, bytes);
  }

  lemma ReadMove(src: Source, history: seq<byte>, n: nat)
    requires SourceInv(src, history) && src.pc == Pumping && n <= |src.pending|
    ensures SourceInv(src.(pc := Storing(src.pending[..n]), pending := src.pending[n..]), history)
  {
    assert src.pending == src.pending[..n] + src.pending[n..];
    PlusNil(history);
    Assoc(history, src.pending[..n], src.pending[n..]);
  }

  lemma EndMove(src: Source, history: seq<byte>)
    requires SourceInv(src, history) && src.pc == Pumping
    requires !src.readOpen || (src.pending == [] && !src.writeOpen)
    ensures SourceInv(src.(pc := Finishing, clean := src.pending == [] && !src.writeOpen), history)
  {
  }

  lemma StoreMove(src: Source, history: seq<byte>, chunk: seq<byte>)
    requires SourceInv(src, history) && src.pc == Storing(chunk)
    ensures SourceInv(src.(pc := Pumping), history + chunk)
  {
    PlusNil(history + chunk);
  }

  lemma SourceActionKept(s: State, a: Action)
    requires D.WellFormed(s.d) && Kept(s) && Enabled(s, a)
    requires a.ChildWrites? || a.ChildCloses? || a.ReadSome? || a.ReadEnd?
    ensures Kept(Control(s, a))
  {
    var st := a.st;
    var src, history := s.Src(st), s.d.History(st);
    SourceKnown(s, st);
    match a
    case ChildWrites(_, bytes) =>
      WritesMove(src, history, bytes);
      SourceKeeps(s, st, src.(written := src.written + bytes, pending := src.pending + bytes));
    case ChildCloses(_) => SourceKeeps(s, st, src.(writeOpen := false));
    case ReadSome(_, n) =>
      ReadMove(src, history, n);
      SourceKeeps(s, st, src.(pc := Storing(src.pending[..n]), pending := src.pending[n..]));
    case ReadEnd(_) =>
      EndMove(src, history);
      SourceKeeps(s, st, src.(pc := Finishing, clean := src.pending == [] && !src.writeOpen));
  }

  lemma SourceKnown(s: State, st: D.Stream)
    requires SourcesInv(s)
    ensures SourceInv(s.Src(st), s.d.History(st))
  {
    match st
    case Out =>
    case Err =>
  }

  lemma StoreKept(s: State, st: D.Stream, chunk: seq<byte>, e: D.State)
    requires Kept(s) && s.Src(st).pc == Storing(chunk) && e == D.RingWrite(s.d, st, chunk)
    ensures Kept(SourceControl(s, st).(d := e))
  {
    SourceKnown(s, st);
    StoreMove(s.Src(st), s.d.History(st), chunk);
    match st
    case Out =>
    case Err =>
  }

  lemma LeaveKept(s: State, st: D.Stream)
    requires Kept(s) && s.Src(st).pc == SourceLeaving && s.main.pc != Returned
    ensures Kept(SourceControl(s, st))
  {
    match st
    case Out =>
    case Err =>
  }

  lemma FinishKept(s: State, st: D.Stream)
    requires Kept(s) && s.Src(st).pc == Finishing
    ensures Kept(SourceControl(s, st))
  {
    SourceKnown(s, st);
    SourceKeeps(s, st, s.Src(st).(pc := SourceLeaving, drained := true));
  }

  // ------------------------------------------------ everything else

  predicate OfSource(a: Action) {
    a.ChildWrites? || a.ChildCloses? || a.ReadSome? || a.ReadEnd? || a.SourceStep?
  }

  predicate OfPeer(a: Action) {
    a.Handle? || a.PeerDisconnects? || a.InputTaken?
  }

  predicate Choice(a: Action) {
    || a.ListenOk? || a.ListenFails? || a.TakeConn? || a.TakeAcceptErr? || a.SeeExit? || a.LingerOver?
    || a.TakeShutdown? || a.Cancelled? || a.GraceOver?
  }

  predicate Aside(a: Action) {
    || a.ChildExits? || a.AcceptConn? || a.AcceptFails? || a.SeeStop? || a.AcceptorStep?
    || a.DrainDone? || a.DrainTimesOut?
  }

  lemma ChoiceLoop(s: State, a: Action)
    requires D.WellFormed(s.d) && Choice(a) && Enabled(s, a) && LoopInv(s.main)
    ensures LoopInv(Control(s, a).main)
  {
  }

  lemma ChoiceMain(s: State, a: Action)
    requires D.WellFormed(s.d) && Choice(a) && Enabled(s, a) && MainInv(s)
    ensures MainInv(Control(s, a))
  {
    ChoiceLoop(s, a);
  }

  lemma ChoiceOutput(s: State, a: Action)
    requires D.WellFormed(s.d) && Choice(a) && Enabled(s, a) && WaiterInv(s) && SourcesInv(s)
    ensures WaiterInv(Control(s, a)) && SourcesInv(Control(s, a))
  {
  }

  lemma ChoiceConn(s: State, a: Action)
    requires D.WellFormed(s.d) && Choice(a) && Enabled(s, a) && ConnInv(s)
    ensures ConnInv(Control(s, a))
  {
  }

  lemma ChoiceKept(s: State, a: Action)
    requires D.WellFormed(s.d) && Choice(a) && Enabled(s, a) && Kept(s)
    ensures Kept(Control(s, a))
  {
    ChoiceMain(s, a);
    ChoiceOutput(s, a);
    ChoiceConn(s, a);
  }

  lemma AsideMain(s: State, a: Action)
    requires D.WellFormed(s.d) && Aside(a) && Enabled(s, a) && MainInv(s) && s.wg == Live(s)
    ensures MainInv(Control(s, a))
  {
  }

  lemma AsideConn(s: State, a: Action)
    requires D.WellFormed(s.d) && Aside(a) && Enabled(s, a) && ConnInv(s)
    ensures ConnInv(Control(s, a))
  {
  }

  lemma AsideOutput(s: State, a: Action)
    requires D.WellFormed(s.d) && Aside(a) && Enabled(s, a) && WaiterInv(s) && SourcesInv(s)
    ensures WaiterInv(Control(s, a)) && SourcesInv(Control(s, a))
  {
  }

  lemma AsideKept(s: State, a: Action)
    requires D.WellFormed(s.d) && Aside(a) && Enabled(s, a) && Kept(s) && s.wg == Live(s)
    ensures Kept(Control(s, a))
  {
    AsideMain(s, a);
    AsideConn(s, a);
    AsideOutput(s, a);
  }

  lemma ReadEndsClose(s: State, t: State)
    requires SourcesInv(s) && t.d == s.d
    requires t.out == s.out.(readOpen := t.out.readOpen) && (t.out.readOpen ==> s.out.readOpen)
    requires t.err == s.err.(readOpen := t.err.readOpen) && (t.err.readOpen ==> s.err.readOpen)
    ensures SourcesInv(t)
  {
  }

  lemma WaiterStepWaiter(s: State)
    requires D.WellFormed(s.d) && Enabled(s, WaiterStep) && WaiterInv(s)
    ensures WaiterInv(WaiterControl(s))
  {
  }

  lemma WaiterStepMain(s: State)
    requires D.WellFormed(s.d) && Enabled(s, WaiterStep) && WaiterInv(s) && MainInv(s) && s.wg == Live(s)
    ensures MainInv(WaiterControl(s))
  {
  }

  lemma WaiterStepConn(s: State)
    requires D.WellFormed(s.d) && Enabled(s, WaiterStep) && ConnInv(s)
    ensures ConnInv(WaiterControl(s))
  {
  }

  lemma WaiterStepKept(s: State)
    requires D.WellFormed(s.d) && Enabled(s, WaiterStep) && Kept(s) && s.wg == Live(s)
    ensures Kept(WaiterControl(s))
  {
    WaiterStepWaiter(s);
    WaiterStepMain(s);
    WaiterStepConn(s);
    ReadEndsClose(s, WaiterControl(s));
  }

  // ------------------------------------------------ the main goroutine

  lemma MainLoop(s: State)
    requires MainReady(s) && LoopInv(s.main)
    ensures LoopInv(MainControl(s).main)
  {
  }

  lemma MainMain(s: State)
    requires MainReady(s) && WaiterInv(s) && MainInv(s)
    ensures MainInv(MainControl(s))
  {
    MainLoop(s);
  }

  /** What the main goroutine's effect leaves alone. */
  predicate SameOutput(d: D.State, e: D.State) {
    e.pipe == d.pipe && e.out == d.out && e.err == d.err
  }

  lemma MainOutput(s: State)
    requires MainReady(s) && WaiterInv(s) && SourcesInv(s)
    ensures WaiterInv(MainControl(s)) && SourcesInv(MainControl(s)) && MainControl(s).d == s.d
  {
  }

  lemma DeliveryAside(c: State, e: D.State)
    requires WaiterInv(c) && SourcesInv(c) && MainInv(c) && SameOutput(c.d, e)
    ensures var t := c.(d := e); WaiterInv(t) && SourcesInv(t) && MainInv(t)
  {
  }

  lemma MainRest(s: State, e: D.State)
    requires MainReady(s) && Kept(s) && SameOutput(s.d, e)
    ensures var t := MainControl(s).(d := e); WaiterInv(t) && SourcesInv(t) && MainInv(t)
  {
    MainMain(s);
    MainOutput(s);
    DeliveryAside(MainControl(s), e);
  }

  lemma SwapConn(s: State, e: D.State)
    requires D.WellFormed(s.d) && Kept(s) && s.main.pc == Swapping && e == D.Apply(s.d, D.Accept)
    ensures ConnInv(MainControl(s).(d := e))
  {
  }

  lemma CloseConn(s: State, h: nat, e: D.State)
    requires D.WellFormed(s.d) && Kept(s) && h < |s.d.handlers| && e == D.Apply(s.d, D.Disconnect(h))
    requires s.main.pc == ClosingPrev || s.main.pc == ClosingActive
    requires s.main.closing == Some(h)
    ensures ConnInv(MainControl(s).(d := e))
  {
  }

  lemma SpawnConn(s: State, e: D.State)
    requires D.WellFormed(s.d) && Kept(s) && s.main.pc == Spawning && MainReady(s)
    requires e == D.HandlerStep(s.d, s.main.conn)
    ensures ConnInv(MainControl(s).(d := e))
  {
  }

  lemma QuietConn(s: State)
    requires D.WellFormed(s.d) && Kept(s) && MainReady(s) && MainEffect(s).None?
    ensures ConnInv(MainControl(s))
  {
  }

  lemma MainStepKept(s: State)
    requires D.WellFormed(s.d) && Kept(s) && MainReady(s)
    ensures Kept(MainControl(s).(d := Through(s.d, MainEffect(s))))
  {
    var e := Through(s.d, MainEffect(s));
    MainRest(s, e);
    match MainEffect(s)
    case None => QuietConn(s);
    case Some(b) =>
      match b
      case Accept => SwapConn(s, e);
      case Disconnect(h) => CloseConn(s, h, e);
      case Step(_) => SpawnConn(s, e);
  }

  // ------------------------------------------------ the count, once more

  /** The goroutines that are neither handlers nor their pumps. */
  function LiveOthers(s: State): nat {
    One(s.acceptor != NoAcceptor && s.acceptor != AcceptorDone)
    + One(s.child.waiter != WaiterDone) + One(s.out.pc != SourceDone) + One(s.err.pc != SourceDone)
  }

  /** How many goroutines the effect of an action adds to handlers and pumps. */
  function EffectAdds(d: D.State, b: Option<D.Action>): int
    requires D.WellFormed(d) && (b.Some? ==> D.Enabled(d, b.value))
  {
    if b.None? then 0 else Added(d, b.value)
  }

  lemma EffectCounts(d: D.State, b: Option<D.Action>)
    requires S.Inv(d) && (b.Some? ==> D.Enabled(d, b.value))
    ensures LiveIn(Through(d, b)) == LiveIn(d) + EffectAdds(d, b)
  {
    if b.Some? {
      DeliveryCounts(d, b.value);
    }
  }

  /** The count moves by the goroutines an action adds and ends. */
  predicate CountsRight(s: State, a: Action)
    requires D.WellFormed(s.d) && Enabled(s, a)
  {
    var t := Control(s, a);
    t.wg - LiveOthers(t) == s.wg - LiveOthers(s) + EffectAdds(s.d, Effect(s, a))
  }

  lemma SourceOthers(s: State, st: D.Stream)
    requires D.WellFormed(s.d) && Enabled(s, SourceStep(st))
    ensures CountsRight(s, SourceStep(st))
  {
    match st
    case Out =>
    case Err =>
  }

  lemma SourceMoves(s: State, a: Action)
    requires D.WellFormed(s.d) && Enabled(s, a)
    requires a.ChildWrites? || a.ChildCloses? || a.ReadSome? || a.ReadEnd?
    ensures CountsRight(s, a)
  {
    match a.st
    case Out =>
    case Err =>
  }

  lemma MainCounts(s: State)
    requires D.WellFormed(s.d) && MainReady(s)
    ensures CountsRight(s, MainStep)
  {
  }

  lemma WaiterCounts(s: State)
    requires D.WellFormed(s.d) && Enabled(s, WaiterStep)
    ensures CountsRight(s, WaiterStep)
  {
  }

  lemma ChoiceCounts(s: State, a: Action)
    requires D.WellFormed(s.d) && MainInv(s) && Enabled(s, a) && Choice(a)
    ensures CountsRight(s, a)
  {
  }

  lemma AsideCounts(s: State, a: Action)
    requires D.WellFormed(s.d) && Enabled(s, a) && Aside(a)
    ensures CountsRight(s, a)
  {
  }

  lemma PeerCounts(s: State, a: Action)
    requires D.WellFormed(s.d) && Enabled(s, a) && OfPeer(a)
    ensures CountsRight(s, a)
  {
  }

  lemma ControlCounts(s: State, a: Action)
    requires D.WellFormed(s.d) && MainInv(s) && Enabled(s, a)
    ensures CountsRight(s, a)
  {
    if a.SourceStep? {
      SourceOthers(s, a.st);
    } else if OfSource(a) {
      SourceMoves(s, a);
    } else if OfPeer(a) {
      PeerCounts(s, a);
    } else if Choice(a) {
      ChoiceCounts(s, a);
    } else if a.MainStep? {
      MainCounts(s);
    } else if a.WaiterStep? {
      WaiterCounts(s);
    } else {
      AsideCounts(s, a);
    }
  }

  // ------------------------------------------------ every step, every run

  lemma SourceStepKept(s: State, st: D.Stream, e: D.State)
    requires Inv(s) && Enabled(s, SourceStep(st)) && e == Through(s.d, Effect(s, SourceStep(st)))
    ensures Kept(SourceControl(s, st).(d := e))
  {
    match s.Src(st).pc
    case Storing(chunk) => StoreKept(s, st, chunk, e);
    case Finishing => FinishKept(s, st);
    case SourceLeaving => LeaveKept(s, st);
  }

  lemma OutputKeepsDelivery(s: State, a: Action)
    requires D.WellFormed(s.d) && OfSource(a) && !a.SourceStep? && Enabled(s, a)
    ensures Control(s, a).d == s.d
  {
    match a.st
    case Out =>
    case Err =>
  }

  lemma Rejoined(c: State, e: D.State)
    requires Kept(c) && c.d == e
    ensures Kept(c.(d := e))
  {
    assert c.(d := e) == c;
  }

  lemma OfSourceKept(s: State, a: Action, e: D.State)
    requires Inv(s) && OfSource(a) && Enabled(s, a) && e == Through(s.d, Effect(s, a))
    ensures Kept(Control(s, a).(d := e))
  {
    if a.SourceStep? {
      SourceStepKept(s, a.st, e);
    } else {
      SourceActionKept(s, a);
      OutputKeepsDelivery(s, a);
      Rejoined(Control(s, a), e);
    }
  }

  lemma OfPeerKept(s: State, a: Action, e: D.State)
    requires Inv(s) && OfPeer(a) && Enabled(s, a) && HandleFrame(s.d, e)
    ensures Kept(Control(s, a).(d := e))
  {
    match a
    case Handle(b) => HandleKept(s, b, e);
    case PeerDisconnects(_) => HandledKeeps(s, s.(d := e));
    case InputTaken(_) => HandledKeeps(s, s.(d := e));
  }

  lemma OfPeerFrame(s: State, a: Action)
    requires Inv(s) && OfPeer(a) && Enabled(s, a)
    ensures HandleFrame(s.d, Through(s.d, Effect(s, a)))
  {
    match a
    case Handle(b) => HandledFrame(s.d, b);
    case PeerDisconnects(h) => HandledFrame(s.d, D.PeerLeaves(h));
    case InputTaken(h) => StepFrame(s.d, h);
  }

  lemma OfRunKept(s: State, a: Action)
    requires Inv(s) && !OfSource(a) && !OfPeer(a) && !a.MainStep? && Enabled(s, a)
    ensures Kept(Control(s, a))
  {
    if a.WaiterStep? {
      WaiterStepKept(s);
    } else if Choice(a) {
      ChoiceKept(s, a);
    } else {
      AsideKept(s, a);
    }
  }

  lemma ControlKeepsDelivery(s: State, a: Action)
    requires D.WellFormed(s.d) && !OfSource(a) && Enabled(s, a)
    ensures Control(s, a).d == s.d
  {
  }

  lemma StepKept(s: State, a: Action, e: D.State)
    requires Inv(s) && Enabled(s, a) && e == Through(s.d, Effect(s, a))
    ensures Kept(Control(s, a).(d := e))
  {
    if OfSource(a) {
      OfSourceKept(s, a, e);
    } else if OfPeer(a) {
      OfPeerFrame(s, a);
      OfPeerKept(s, a, e);
    } else if a.MainStep? {
      MainStepKept(s);
    } else {
      OfRunKept(s, a);
      ControlKeepsDelivery(s, a);
      assert Control(s, a).(d := e) == Control(s, a);
    }
  }

  lemma Assembled(c: State, e: D.State)
    requires Kept(c.(d := e)) && S.Inv(e) && c.wg == LiveOthers(c) + LiveIn(e)
    ensures Inv(c.(d := e))
  {
  }

  lemma CountKept(s: State, a: Action, e: D.State)
    requires Inv(s) && Enabled(s, a) && e == Through(s.d, Effect(s, a))
    ensures Control(s, a).wg == LiveOthers(Control(s, a)) + LiveIn(e)
  {
    EffectCounts(s.d, Effect(s, a));
    ControlCounts(s, a);
  }

  /** Every action keeps the invariant. */
  lemma ApplyKeeps(s: State, a: Action)
    requires Inv(s) && Enabled(s, a)
    ensures Inv(Apply(s, a))
  {
    var e := Through(s.d, Effect(s, a));
    StepKept(s, a, e);
    DeliveryKept(s, a);
    CountKept(s, a, e);
    Assembled(Control(s, a), e);
  }

  lemma {:induction false} RunKeeps(s: State, actions: seq<Action>, t: State)
    requires Inv(s) && Runs(s, actions, t)
    ensures Inv(t)
    decreases |actions|
  {
    if actions != [] {
      ApplyKeeps(s, actions[0]);
      RunKeeps(Apply(s, actions[0]), actions[1..], t);
    }
  }

  /** A state some run of the server ends in. */
  ghost predicate Reachable(t: State) {
    exists s, actions :: Init(s) && Runs(s, actions, t)
  }

  lemma ReachableInv(t: State)
    requires Reachable(t)
    ensures Inv(t)
  {
    var s, actions :| Init(s) && Runs(s, actions, t);
    InitInv(s);
    RunKeeps(s, actions, t);
  }

  // ------------------------------------------------ down to the delivery part

  /** What a run of the server does to rings and connections. */
  ghost function Effects(s: State, actions: seq<Action>, t: State): (es: seq<D.Action>)
    requires Runs(s, actions, t)
    decreases |actions|
  {
    if actions == [] then []
    else
      var b := Effect(s, actions[0]);
      (if b.None? then [] else [b.value]) + Effects(Apply(s, actions[0]), actions[1..], t)
  }

  lemma {:induction false} RunIsDeliveryRun(s: State, actions: seq<Action>, t: State)
    requires Runs(s, actions, t)
    ensures D.Runs(s.d, Effects(s, actions, t), t.d)
    decreases |actions|
  {
    if actions != [] {
      var b := Effect(s, actions[0]);
      var rest := Effects(Apply(s, actions[0]), actions[1..], t);
      RunIsDeliveryRun(Apply(s, actions[0]), actions[1..], t);
      if b.Some? {
        var es := [b.value] + rest;
        assert es[1..] == rest;
      } else {
        assert [] + rest == rest;
      }
    }
  }

  /** All that holds of every reachable delivery state holds of every state of the
      whole server, in any interleaving with its teardown. */
  lemma ReachableDelivery(t: State)
    requires Reachable(t)
    ensures S.Reachable(t.d)
  {
    var s, actions :| Init(s) && Runs(s, actions, t);
    RunIsDeliveryRun(s, actions, t);
  }
}
