/** What every interleaving of Run's goroutines keeps. */
module LifecycleSafety {
  import opened Bytes
  import opened Options
  import opened Lifecycle
  import opened Sums
  import D = Delivery
  import S = DeliverySafety

  // ------------------------------------------------ counting goroutines

  function One(b: bool): nat {
    if b then 1 else 0
  }

  predicate HandlerLive(hd: D.Handler) {
    hd.pc != D.Starting && hd.pc != D.Gone
  }

  predicate PumpLive(sub: D.Sub) {
    sub.pump == D.Waiting || sub.pump.Holding?
  }

  function HandlerCount(hd: D.Handler): nat {
    One(HandlerLive(hd))
  }

  function PumpCount(sub: D.Sub): nat {
    One(PumpLive(sub))
  }

  function LiveIn(d: D.State): nat {
    Sum(d.handlers, HandlerCount) + Sum(d.subs, PumpCount)
  }

  /** The goroutines that have still to call wg.Done. */
  function Live(s: State): nat {
    LiveIn(s.d)
    + One(s.acceptor != NoAcceptor && s.acceptor != AcceptorDone)
    + One(s.child.waiter != WaiterDone) + One(s.out.pc != SourceDone) + One(s.err.pc != SourceDone)
  }

  lemma CountHandler(d: D.State, h: nat, hd: D.Handler)
    requires h < |d.handlers|
    ensures LiveIn(d.WithHandler(h, hd)) + One(HandlerLive(d.handlers[h])) == LiveIn(d) + One(HandlerLive(hd))
  {
    SumUpdate(d.handlers, h, hd, HandlerCount);
  }

  lemma CountSub(d: D.State, i: nat, sub: D.Sub)
    requires i < |d.subs|
    ensures LiveIn(d.WithSub(i, sub)) + One(PumpLive(d.subs[i])) == LiveIn(d) + One(PumpLive(sub))
  {
    SumUpdate(d.subs, i, sub, PumpCount);
  }

  /** wg.Add and wg.Done are called exactly when a handler or pump starts or ends. */
  lemma HandleCounts(d: D.State, a: D.Action)
    requires D.WellFormed(d) && D.Enabled(d, a)
    requires a.Receive? || a.ReadError? || a.Dequeue? || a.Quit?
    ensures LiveIn(D.Apply(d, a)) == LiveIn(d) + WgChange(d, a)
  {
    var e := D.Apply(d, a);
    match a
    case Receive(h, _) => CountHandler(d, h, e.handlers[h]);
    case ReadError(h) => CountHandler(d, h, e.handlers[h]);
    case Dequeue(i) => CountSub(d, i, e.subs[i]);
    case Quit(i) => CountSub(d, i, e.subs[i]);
  }

  lemma EmitCounts(d: D.State, i: nat)
    requires D.WellFormed(d) && D.Enabled(d, D.Emit(i))
    ensures LiveIn(D.EmitStep(d, i)) == LiveIn(d) + WgChange(d, D.Emit(i))
  {
    var sub := d.subs[i];
    var hd := d.handlers[sub.owner];
    if D.Writable(hd, sub.pump.chunk) {
      var sub' := sub.(pump := D.Waiting, emitted := sub.emitted + 1);
      CountSub(d, i, sub');
      CountHandler(d.WithSub(i, sub'), sub.owner, hd.(sent := hd.sent + [D.Data(sub.stream, sub.pump.chunk, i)]));
    } else {
      CountSub(d, i, sub.(pump := D.Stopped));
    }
  }

  lemma CountBoth(d: D.State, i: nat, sub: D.Sub, h: nat, hd: D.Handler)
    requires i < |d.subs| && h < |d.handlers|
    requires HandlerLive(hd) == HandlerLive(d.handlers[h])
    ensures LiveIn(d.WithSub(i, sub).WithHandler(h, hd)) + One(PumpLive(d.subs[i])) == LiveIn(d) + One(PumpLive(sub))
  {
    CountSub(d, i, sub);
    CountHandler(d.WithSub(i, sub), h, hd);
  }

  lemma DetachCounts(d: D.State, h: nat)
    requires D.WellFormed(d) && h < |d.handlers|
    requires d.handlers[h].pc.Detaching? || d.handlers[h].pc.LeavingDetach?
    ensures LiveIn(D.HandlerStep(d, h)) == LiveIn(d)
  {
    var hd := d.handlers[h];
    var hd' := D.HandlerStep(d, h).handlers[h];
    match hd.Slot(hd.pc.stream)
    case None => CountHandler(d, h, hd');
    case Some(i) => CountBoth(d, i, d.subs[i].(registered := false), h, hd');
  }

  lemma CloseCounts(d: D.State, h: nat)
    requires D.WellFormed(d) && h < |d.handlers| && D.HandlerFormed(d.handlers[h], |d.subs|)
    requires d.handlers[h].pc.Closing? || d.handlers[h].pc.LeavingClose?
    ensures LiveIn(D.HandlerStep(d, h)) == LiveIn(d)
  {
    var hd := d.handlers[h];
    var e := D.HandlerStep(d, h);
    var i := hd.Slot(hd.pc.stream).value;
    CountBoth(d, i, e.subs[i], h, e.handlers[h]);
  }

  lemma AttachCounts(d: D.State, h: nat)
    requires D.WellFormed(d) && h < |d.handlers|
    requires d.handlers[h].pc.Replaying? || d.handlers[h].pc.Launching?
    requires D.HandlerFormed(d.handlers[h], |d.subs|)
    requires d.subs[d.handlers[h].Slot(d.handlers[h].pc.stream).value].pump == D.NotStarted
    ensures LiveIn(D.HandlerStep(d, h)) == LiveIn(d) + One(d.handlers[h].pc.Launching?)
  {
    var hd := d.handlers[h];
    var e := D.HandlerStep(d, h);
    var i := hd.Slot(hd.pc.stream).value;
    assert d.WithSub(i, d.subs[i]) == d;
    CountBoth(d, i, e.subs[i], h, e.handlers[h]);
  }

  lemma SnapshotCounts(d: D.State, h: nat)
    requires D.WellFormed(d) && h < |d.handlers| && d.handlers[h].pc.Snapshotting?
    ensures LiveIn(D.HandlerStep(d, h)) == LiveIn(d)
  {
    var e := D.HandlerStep(d, h);
    SumUpdate(d.handlers, h, e.handlers[h], HandlerCount);
    SumAppend(d.subs, e.subs[|d.subs|], PumpCount);
  }

  lemma QuietCounts(d: D.State, h: nat)
    requires D.WellFormed(d) && h < |d.handlers|
    requires var pc := d.handlers[h].pc; pc == D.Starting || pc == D.Replying || pc == D.Typing || pc == D.LeavingConn
    ensures LiveIn(D.HandlerStep(d, h)) ==
            LiveIn(d) + One(d.handlers[h].pc == D.Starting) - One(d.handlers[h].pc == D.LeavingConn)
  {
    CountHandler(d, h, D.HandlerStep(d, h).handlers[h]);
  }

  lemma StepCounts(d: D.State, h: nat)
    requires S.Inv(d) && D.Enabled(d, D.Step(h)) && d.handlers[h].pc != D.Starting
    ensures LiveIn(D.HandlerStep(d, h)) == LiveIn(d) + WgChange(d, D.Step(h))
  {
    S.LinksFrom(d, h);
    match d.handlers[h].pc
    case Snapshotting(_, _) => SnapshotCounts(d, h);
    case Replaying(_) => AttachCounts(d, h);
    case Launching(_) => AttachCounts(d, h);
    case Replying => QuietCounts(d, h);
    case Typing => QuietCounts(d, h);
    case LeavingConn => QuietCounts(d, h);
    case Detaching(_, _) => DetachCounts(d, h);
    case LeavingDetach(_) => DetachCounts(d, h);
    case Closing(_, _) => CloseCounts(d, h);
    case LeavingClose(_) => CloseCounts(d, h);
  }

  // ------------------------------------------------ the invariant

  /** Teardown has begun, or Run is past it. */
  predicate Leaving(pc: Pc) {
    pc == StoppingAccept || pc == ClosingListener || pc == TakingActive || pc == ClosingActive
    || pc == WaitingAll || pc == Returned
  }

  predicate Stopping(pc: Pc) {
    pc == Terminating || pc == Grace || pc == AwaitingExit
  }

  predicate Replacing(pc: Pc) {
    pc == ClosingPrev || pc == Spawning
  }

  predicate NoActive(m: Main) {
    m.pc == Listening || m.why == ByListenError || m.pc == ClosingActive || m.pc == WaitingAll || m.pc == Returned
  }

  predicate Reaped(w: WaiterPc) {
    w != Draining && w != Reaping
  }

  /** The waiter's flags follow its position: one Wait, one close of childExited. */
  ghost predicate ChildInv(c: Child) {
    && c.announced == One(c.waiter == WaiterLeaving || c.waiter == WaiterDone)
    && c.reaps == One(Reaped(c.waiter))
    && (c.reaps > 0 ==> c.exited)
    && (c.alive <==> c.waiter == Draining || c.waiter == Reaping || c.waiter == Recording)
    && (c.timedOut ==> c.waiter != Draining)
  }

  /** The read ends close after the child was reaped and before childExited does,
      and without a time-out only after both pumps saw the end. */
  ghost predicate EndsInv(pipe: bool, c: Child, out: Source, err: Source) {
    && (if pipe then
          (out.readOpen <==> c.reaps == 0) && (err.readOpen <==> c.reaps == 0)
        else
          && c.waiter != Draining
          && (out.readOpen <==> c.waiter == Reaping || c.waiter == Recording || c.waiter == ClosingPty)
          && err.pc == SourceDone && !err.readOpen && !err.writeOpen)
    && (pipe && !c.timedOut && c.waiter != Draining ==> out.clean && err.clean)
  }

  ghost predicate WaiterInv(s: State) {
    ChildInv(s.child) && EndsInv(s.d.pipe, s.child, s.out, s.err)
  }

  function InHand(src: Source): seq<byte> {
    if src.pc.Storing? then src.pc.chunk else []
  }

  /** What the child wrote is what the ring has had, what the pump holds and what
      is still in the pipe, in that order. */
  ghost predicate SourceInv(src: Source, history: seq<byte>) {
    && src.written == history + InHand(src) + src.pending
    && (src.clean ==> Ended(src.pc) && src.pending == [] && !src.writeOpen)
    && (Ended(src.pc) && src.readOpen ==> src.clean)
    && (src.drained ==> Ended(src.pc))
  }

  ghost predicate SourcesInv(s: State) {
    SourceInv(s.out, s.d.out) && SourceInv(s.err, s.d.err)
  }

  /** The main goroutine's flags follow its position: one close of stopAccept, the
      listener closed after it, and no connection left to close at the end. */
  ghost predicate LoopInv(m: Main) {
    && m.stops == One(Leaving(m.pc) && m.pc != StoppingAccept && m.why != ByListenError)
    && (m.listening <==>
          && m.why != ByListenError && m.pc != Listening
          && (!Leaving(m.pc) || m.pc == StoppingAccept || m.pc == ClosingListener))
    && (m.why == Undecided <==> m.pc == Listening || m.pc == Selecting || m.pc == Swapping || Replacing(m.pc))
    && (m.why == ByListenError ==> Stopping(m.pc) || m.pc == WaitingAll || m.pc == Returned)
    && (m.closing.Some? ==> m.pc == ClosingPrev || m.pc == ClosingActive)
    && (Replacing(m.pc) ==> m.active == Some(m.conn))
    && (NoActive(m) ==> m.active == None)
  }

  /** The main goroutine against the others: teardown only after childExited was
      closed, and Run returns at a count of zero. */
  ghost predicate MainInv(s: State) {
    && LoopInv(s.main)
    && (s.acceptor == NoAcceptor <==> s.main.pc == Listening || s.main.why == ByListenError)
    && (s.main.linger || Leaving(s.main.pc) ==> s.child.announced > 0)
    && (s.main.pc == AwaitingExit ==> s.child.killed || !s.child.alive || s.child.announced > 0)
    && (s.main.pc == Returned ==> s.wg == 0)
  }

  /** The connections that may still be open: the active one, and the one the main
      goroutine is about to close. */
  ghost predicate MayBeOpen(m: Main, h: nat) {
    m.active == Some(h) || m.closing == Some(h)
  }

  ghost predicate ConnInv(s: State) {
    && (forall h :: 0 <= h < |s.d.handlers| && s.d.handlers[h].link != D.Closed ==> MayBeOpen(s.main, h))
    && (forall h :: 0 <= h < |s.d.handlers| ==>
          (s.d.handlers[h].pc == D.Starting <==> Replacing(s.main.pc) && s.main.conn == h))
    && (s.main.active.Some? ==> s.main.active.value < |s.d.handlers|)
    && (s.main.closing.Some? ==> s.main.closing.value < |s.d.handlers|)
    && (s.acceptor == NoAcceptor ==> s.d.handlers == [] && s.main.active == None)
  }

  ghost predicate Inv(s: State) {
    && S.Inv(s.d)
    && s.wg == Live(s)
    && WaiterInv(s) && SourcesInv(s) && MainInv(s) && ConnInv(s)
  }

  lemma InitInv(s: State)
    requires Init(s)
    ensures Inv(s)
  {
    S.InitInv(s.d);
  }

  // ------------------------------------------------ frames

  /** What a step of a handler or pump leaves alone. */
  ghost predicate HandleFrame(d: D.State, e: D.State) {
    && e.capacity == d.capacity && e.pipe == d.pipe && e.out == d.out && e.err == d.err
    && |e.handlers| == |d.handlers|
    && forall h :: 0 <= h < |d.handlers| ==>
         && (d.handlers[h].link == D.Closed ==> e.handlers[h].link == D.Closed)
         && (e.handlers[h].pc == D.Starting <==> d.handlers[h].pc == D.Starting)
  }

  lemma StepFrame(d: D.State, h: nat)
    requires D.WellFormed(d) && D.Enabled(d, D.Step(h)) && d.handlers[h].pc != D.Starting
    ensures HandleFrame(d, D.HandlerStep(d, h))
  {
    assert D.HandlerFormed(d.handlers[h], |d.subs|);
  }

  lemma HandledFrame(d: D.State, a: D.Action)
    requires D.WellFormed(d) && D.Enabled(d, a)
    requires !a.Write? && !a.Accept? && (a.Step? ==> d.handlers[a.h].pc != D.Starting)
    ensures HandleFrame(d, D.Apply(d, a))
  {
    match a
    case Step(h) => StepFrame(d, h);
    case _ =>
  }
}
