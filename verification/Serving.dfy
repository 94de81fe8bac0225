/** What Run does until it is told to stop: it takes every connection that comes in, serves
    the latest one and closes the one before, and it stops, and kills the child, for no
    other reason than the ones it was given. */
module Serving {
  import opened Options
  import opened Lifecycle
  import opened LifecycleSafety
  import opened LifecycleRuns
  import opened Shutdown
  import opened Summons
  import D = Delivery

  function Count(actions: seq<Action>, a: Action): nat {
    if actions == [] then 0
    else Count(actions[..|actions| - 1], a) + if actions[|actions| - 1] == a then 1 else 0
  }

  lemma CountAppend(past: seq<Action>, b: Action, a: Action)
    ensures Count(past + [b], a) == Count(past, a) + if b == a then 1 else 0
  {
    assert (past + [b])[..|past|] == past;
  }

  // ------------------------------------------------ reasons

  /** Some client sent a SHUTDOWN. */
  ghost predicate Asked(past: seq<Action>) {
    exists h :: Handle(D.Receive(h, D.Shutdown)) in past
  }

  /** The end of the select loop, one way or another. */
  predicate Ends(a: Action) {
    a == ListenFails || a == LingerOver || a == TakeShutdown || a == Cancelled
  }

  ghost predicate ReasonInv(s: State, past: seq<Action>) {
    && (s.child.exited ==> ChildExits in past)
    && (s.main.shutdownReq || TakeShutdown in past ==> Asked(past))
    && (InLoop(s.main.pc) <==> forall i :: 0 <= i < |past| ==> !Ends(past[i]))
    && (s.main.why == ByLinger <==> LingerOver in past)
    && (s.main.why == ByLinger ==> s.child.exited)
    && (Stopping(s.main.pc) ==> s.main.why != ByLinger)
    && (s.child.killed ==> s.main.why != ByLinger && !InLoop(s.main.pc))
  }

  lemma MoreAsked(past: seq<Action>, a: Action)
    ensures Asked(past) ==> Asked(past + [a])
    ensures a.Handle? && a.a.Receive? && a.a.msg == D.Shutdown ==> Asked(past + [a])
  {
    if Asked(past) {
      var h :| Handle(D.Receive(h, D.Shutdown)) in past;
      assert Handle(D.Receive(h, D.Shutdown)) in past + [a];
    }
    if a.Handle? && a.a.Receive? && a.a.msg == D.Shutdown {
      assert Handle(D.Receive(a.a.h, D.Shutdown)) in past + [a];
    }
  }

  /** The reasons, but for what the past says: what one action does to them. */
  predicate ReasonMove(s: State, a: Action, c: State) {
    && (c.child.exited <==> s.child.exited || a == ChildExits)
    && (c.main.shutdownReq ==> s.main.shutdownReq || (a.Handle? && a.a.Receive? && a.a.msg == D.Shutdown))
    && (a == TakeShutdown ==> s.main.shutdownReq)
    && (InLoop(c.main.pc) <==> InLoop(s.main.pc) && !Ends(a))
    && (c.main.why == ByLinger <==> s.main.why == ByLinger || a == LingerOver)
    && (a == LingerOver ==> s.child.exited)
    && (Stopping(c.main.pc) ==> c.main.why != ByLinger)
    && (c.child.killed ==> s.child.killed || (Stopping(s.main.pc) && !InLoop(c.main.pc)))
    && (c.child.killed ==> c.main.why != ByLinger)
  }

  /** What the invariants say of main's reasons. */
  predicate Reasons(m: Main, c: Child) {
    && (m.linger ==> c.exited)
    && (m.why == Undecided <==> InLoop(m.pc))
    && (Stopping(m.pc) || c.killed ==> m.why != ByLinger && !InLoop(m.pc))
  }

  lemma ReasonsHold(s: State, past: seq<Action>)
    requires ChildInv(s.child) && MainInv(s) && ReasonInv(s, past)
    ensures Reasons(s.main, s.child)
  {
  }

  lemma StepReason(s: State)
    requires MainReady(s) && Reasons(s.main, s.child)
    ensures ReasonMove(s, MainStep, MainControl(s))
  {
  }

  lemma EndReason(s: State, a: Action)
    requires D.WellFormed(s.d) && Enabled(s, a) && Ends(a) && Reasons(s.main, s.child)
    ensures ReasonMove(s, a, Control(s, a))
  {
  }

  lemma LoopReason(s: State, a: Action)
    requires D.WellFormed(s.d) && Enabled(s, a) && Choice(a) && !Ends(a) && Reasons(s.main, s.child)
    requires a == SeeExit ==> s.child.exited
    ensures ReasonMove(s, a, Control(s, a))
  {
  }

  lemma OtherReason(s: State, a: Action)
    requires D.WellFormed(s.d) && Enabled(s, a) && !OfMain(a) && Reasons(s.main, s.child)
    ensures ReasonMove(s, a, Control(s, a))
  {
    if OfSource(a) {
      DueOutput(s, a);
    } else if a.Handle? {
      HandleReason(s, a.a);
    }
  }

  lemma HandleReason(s: State, b: D.Action)
    requires D.WellFormed(s.d) && Enabled(s, Handle(b)) && Reasons(s.main, s.child)
    ensures ReasonMove(s, Handle(b), Control(s, Handle(b)))
  {
  }

  lemma ReasonStep(s: State, past: seq<Action>, a: Action)
    requires Inv(s) && ReasonInv(s, past) && Enabled(s, a)
    ensures ReasonInv(Apply(s, a), past + [a])
  {
    ReasonsHold(s, past);
    if a.MainStep? {
      StepReason(s);
    } else if Ends(a) {
      EndReason(s, a);
    } else if Choice(a) {
      LoopReason(s, a);
    } else {
      OtherReason(s, a);
    }
    MoreAsked(past, a);
    ReasonKept(s, past, a, Control(s, a));
  }

  lemma ReasonKept(s: State, past: seq<Action>, a: Action, c: State)
    requires ReasonInv(s, past) && ReasonMove(s, a, c)
    requires Asked(past) ==> Asked(past + [a])
    requires a.Handle? && a.a.Receive? && a.a.msg == D.Shutdown ==> Asked(past + [a])
    ensures ReasonInv(c, past + [a])
  {
    var all := past + [a];
    assert all[|past|] == a;
    assert forall i :: 0 <= i < |past| ==> all[i] == past[i];
  }

  // ------------------------------------------------ connections

  /** The latest connection is closed by nobody but its own handler. */
  predicate LatestOpen(d: D.State) {
    d.handlers != [] ==>
      var last := d.handlers[|d.handlers| - 1];
      last.link == D.Closed ==> last.pc == D.Gone
  }

  predicate LatestActive(s: State) {
    s.main.active == if s.d.handlers == [] then None else Some(|s.d.handlers| - 1)
  }

  ghost predicate ServeInv(s: State, past: seq<Action>) {
    InLoop(s.main.pc) ==>
      && |s.d.handlers| + One(s.main.pc == Swapping) == Count(past, TakeConn)
      && Count(past, AcceptConn) == Count(past, TakeConn) + One(s.acceptor == Handing)
      && (s.main.pc != Listening && AcceptFails !in past ==> s.acceptor == Accepting || s.acceptor == Handing)
      && LatestActive(s) && LatestOpen(s.d)
      && (s.main.pc == ClosingPrev && s.main.closing.Some? ==> s.main.closing.value < |s.d.handlers| - 1)
  }

  /** What Serves needs of a step that leaves main alone. */
  predicate Steady(s: State, a: Action, c: State, e: D.State) {
    && c.main == s.main.(shutdownReq := c.main.shutdownReq, acceptErr := c.main.acceptErr)
    && AllStay(s.d, e)
  }

  predicate StaysOpen(hd: D.Handler, hd': D.Handler) {
    && (hd'.link == D.Closed ==> hd.link == D.Closed || hd'.pc == D.Gone)
    && (hd.pc == D.Gone ==> hd'.pc == D.Gone && (hd.link == D.Closed ==> hd'.link == D.Closed))
    && (hd'.pc == D.Gone && hd.pc != D.Gone ==> hd'.link == D.Closed)
  }

  predicate AllStay(d: D.State, e: D.State) {
    |e.handlers| == |d.handlers| && forall h :: 0 <= h < |e.handlers| ==> StaysOpen(d.handlers[h], e.handlers[h])
  }

  lemma StepStays(d: D.State, h: nat)
    requires D.WellFormed(d) && D.Enabled(d, D.Step(h)) && D.HandlerFormed(d.handlers[h], |d.subs|)
    requires !d.handlers[h].pc.Closing? && !d.handlers[h].pc.LeavingClose?
    ensures AllStay(d, D.HandlerStep(d, h))
  {
    if Attaching(d.handlers[h].pc) {
      AttachStays(d, h);
    }
  }

  predicate Attaching(pc: D.Pc) {
    pc.Snapshotting? || pc.Replaying? || pc.Launching?
  }

  lemma AttachStays(d: D.State, h: nat)
    requires D.WellFormed(d) && D.Enabled(d, D.Step(h)) && D.HandlerFormed(d.handlers[h], |d.subs|)
    requires Attaching(d.handlers[h].pc)
    ensures AllStay(d, D.HandlerStep(d, h))
  {
  }

  lemma CloseStays(d: D.State, h: nat)
    requires D.WellFormed(d) && h < |d.handlers| && D.HandlerFormed(d.handlers[h], |d.subs|)
    requires d.handlers[h].pc.Closing? || d.handlers[h].pc.LeavingClose?
    ensures AllStay(d, D.HandlerStep(d, h))
  {
  }

  lemma EmitStays(d: D.State, i: nat)
    requires D.WellFormed(d) && D.Enabled(d, D.Emit(i))
    ensures AllStay(d, D.EmitStep(d, i))
  {
  }

  lemma OtherStays(d: D.State, b: D.Action)
    requires D.WellFormed(d) && D.Enabled(d, b)
    requires !b.Accept? && !b.Disconnect? && !b.Step? && !b.Emit?
    ensures AllStay(d, D.Apply(d, b))
  {
  }

  lemma HandlersStay(d: D.State, b: D.Action)
    requires D.WellFormed(d) && D.Enabled(d, b) && !b.Accept? && !b.Disconnect?
    ensures AllStay(d, D.Apply(d, b))
  {
    if b.Step? {
      assert D.HandlerFormed(d.handlers[b.h], |d.subs|);
      if d.handlers[b.h].pc.Closing? || d.handlers[b.h].pc.LeavingClose? {
        CloseStays(d, b.h);
      } else {
        StepStays(d, b.h);
      }
    } else if b.Emit? {
      EmitStays(d, b.i);
    } else {
      OtherStays(d, b);
    }
  }

  lemma OthersSteady(s: State, a: Action)
    requires D.WellFormed(s.d) && Enabled(s, a) && !OfMain(a)
    ensures Steady(s, a, Control(s, a), Through(s.d, Effect(s, a)))
  {
    OthersLeaveMain(s, a);
    var b := Effect(s, a);
    if b.Some? {
      HandlersStay(s.d, b.value);
    }
  }

  /** What the acceptor does while main is in its loop. */
  lemma AcceptorMoves(s: State, a: Action)
    requires D.WellFormed(s.d) && Enabled(s, a) && !OfMain(a) && MainInv(s) && InLoop(s.main.pc)
    ensures var c := Control(s, a);
            if a == AcceptConn then s.acceptor == Accepting && c.acceptor == Handing
            else if a == AcceptFails then s.acceptor == Accepting && c.acceptor == Failing
            else c.acceptor == s.acceptor || (a == AcceptorStep && c.acceptor == AcceptorDone)
  {
    if OfSource(a) {
      match a.st
      case Out =>
      case Err =>
    }
  }

  lemma OtherServes(s: State, past: seq<Action>, a: Action)
    requires Inv(s) && ServeInv(s, past) && Enabled(s, a) && !OfMain(a)
    ensures ServeInv(Apply(s, a), past + [a])
  {
    OthersSteady(s, a);
    CountAppend(past, a, TakeConn);
    CountAppend(past, a, AcceptConn);
    if InLoop(s.main.pc) {
      AcceptorMoves(s, a);
      SteadyServes(s, past, a, Control(s, a), Through(s.d, Effect(s, a)));
    }
  }

  lemma SteadyServes(s: State, past: seq<Action>, a: Action, c: State, e: D.State)
    requires InLoop(s.main.pc) && ServeInv(s, past) && Steady(s, a, c, e) && a != TakeConn
    requires Count(past + [a], TakeConn) == Count(past, TakeConn)
    requires Count(past + [a], AcceptConn) == Count(past, AcceptConn) + One(a == AcceptConn)
    requires if a == AcceptConn then s.acceptor == Accepting && c.acceptor == Handing
             else if a == AcceptFails then s.acceptor == Accepting && c.acceptor == Failing
             else c.acceptor == s.acceptor || (a == AcceptorStep && c.acceptor == AcceptorDone)
    requires a == AcceptorStep ==> s.acceptor == Dropping || s.acceptor == Failing
    ensures ServeInv(c.(d := e), past + [a])
  {
    assert AcceptFails in past ==> AcceptFails in past + [a];
    assert a == AcceptFails ==> AcceptFails in past + [a];
    if e.handlers != [] {
      assert StaysOpen(s.d.handlers[|e.handlers| - 1], e.handlers[|e.handlers| - 1]);
    }
  }

  lemma EndsTheLoop(s: State, a: Action)
    requires D.WellFormed(s.d) && Enabled(s, a) && (Ends(a) || a == GraceOver)
    ensures !InLoop(Control(s, a).main.pc)
  {
  }

  lemma LoopServes(s: State, past: seq<Action>, all: seq<Action>, a: Action)
    requires D.WellFormed(s.d) && MainInv(s) && ServeInv(s, past) && Enabled(s, a)
    requires Choice(a) && !Ends(a) && a != GraceOver
    requires Count(all, TakeConn) == Count(past, TakeConn) + One(a == TakeConn)
    requires Count(all, AcceptConn) == Count(past, AcceptConn) && (AcceptFails in past ==> AcceptFails in all)
    ensures ServeInv(Control(s, a), all) && Effect(s, a).None?
  {
  }

  lemma ChoiceServes(s: State, past: seq<Action>, a: Action)
    requires D.WellFormed(s.d) && MainInv(s) && ServeInv(s, past) && Enabled(s, a) && Choice(a)
    ensures ServeInv(Apply(s, a), past + [a])
  {
    CountAppend(past, a, TakeConn);
    CountAppend(past, a, AcceptConn);
    if Ends(a) || a == GraceOver {
      EndsTheLoop(s, a);
    } else {
      LoopServes(s, past, past + [a], a);
      ControlKeepsDelivery(s, a);
      assert Apply(s, a) == Control(s, a);
    }
  }

  /** The same past, one step of main later. */
  ghost predicate OneMore(past: seq<Action>, all: seq<Action>) {
    && Count(all, TakeConn) == Count(past, TakeConn) && Count(all, AcceptConn) == Count(past, AcceptConn)
    && (AcceptFails in past ==> AcceptFails in all)
  }

  lemma SwapServes(s: State, past: seq<Action>, all: seq<Action>, e: D.State)
    requires ServeInv(s, past) && OneMore(past, all) && s.main.pc == Swapping
    requires e.handlers == s.d.handlers + [D.Handler(D.Starting, None, None, D.Up, [], 0, 0)]
    ensures ServeInv(MainControl(s).(d := e), all)
  {
  }

  lemma CloseServes(s: State, past: seq<Action>, all: seq<Action>, e: D.State)
    requires ServeInv(s, past) && OneMore(past, all) && s.main.pc == ClosingPrev && |e.handlers| == |s.d.handlers|
    requires forall h :: 0 <= h < |e.handlers| && s.main.closing != Some(h) ==> e.handlers[h] == s.d.handlers[h]
    ensures ServeInv(MainControl(s).(d := e), all)
  {
  }

  lemma SpawnServes(s: State, past: seq<Action>, all: seq<Action>, e: D.State)
    requires ServeInv(s, past) && OneMore(past, all) && s.main.pc == Spawning && MainReady(s) && AllStay(s.d, e)
    ensures ServeInv(MainControl(s).(d := e), all)
  {
    if e.handlers != [] {
      assert StaysOpen(s.d.handlers[|e.handlers| - 1], e.handlers[|e.handlers| - 1]);
    }
  }

  lemma EndServes(s: State, past: seq<Action>, e: D.State)
    requires MainReady(s) && !InLoop(s.main.pc)
    ensures ServeInv(MainControl(s).(d := e), past)
  {
    StaysOut(s);
    assert MainControl(s).(d := e).main == MainControl(s).main;
  }

  lemma StaysOut(s: State)
    requires MainReady(s) && !InLoop(s.main.pc)
    ensures !InLoop(MainControl(s).main.pc)
  {
    match s.main.pc
    case Terminating =>
    case Grace =>
    case AwaitingExit =>
    case StoppingAccept =>
    case ClosingListener =>
    case TakingActive =>
    case ClosingActive =>
    case WaitingAll =>
  }

  lemma MainServes(s: State, past: seq<Action>)
    requires D.WellFormed(s.d) && ServeInv(s, past) && MainReady(s)
    ensures ServeInv(Apply(s, MainStep), past + [MainStep])
  {
    CountAppend(past, MainStep, TakeConn);
    CountAppend(past, MainStep, AcceptConn);
    var all, e := past + [MainStep], Through(s.d, MainEffect(s));
    assert OneMore(past, all);
    match s.main.pc
    case Swapping => SwapServes(s, past, all, e);
    case ClosingPrev => CloseServes(s, past, all, e);
    case Spawning =>
      HandlersStay(s.d, D.Step(s.main.conn));
      SpawnServes(s, past, all, e);
    case _ => EndServes(s, all, e);
  }

  // ------------------------------------------------ a handler that is gone

  ghost predicate GoneInv(d: D.State) {
    forall h :: 0 <= h < |d.handlers| && d.handlers[h].pc == D.Gone ==> d.handlers[h].link == D.Closed
  }

  lemma GoneStep(d: D.State, b: D.Action)
    requires D.WellFormed(d) && D.Enabled(d, b) && GoneInv(d)
    ensures GoneInv(D.Apply(d, b))
  {
    if !b.Accept? && !b.Disconnect? {
      HandlersStay(d, b);
      GoneKept(d, D.Apply(d, b));
    }
  }

  lemma GoneKept(d: D.State, e: D.State)
    requires AllStay(d, e) && GoneInv(d)
    ensures GoneInv(e)
  {
    forall h | 0 <= h < |e.handlers| && e.handlers[h].pc == D.Gone ensures e.handlers[h].link == D.Closed {
      assert StaysOpen(d.handlers[h], e.handlers[h]);
    }
  }

  lemma {:induction false} GoneRun(d: D.State, actions: seq<D.Action>, e: D.State)
    requires GoneInv(d) && D.Runs(d, actions, e)
    ensures GoneInv(e)
    decreases |actions|
  {
    if actions != [] {
      GoneStep(d, actions[0]);
      GoneRun(D.Apply(d, actions[0]), actions[1..], e);
    }
  }

  /** A handler that has left has closed its connection. */
  lemma GoneIsClosed(t: State, h: nat)
    requires Reachable(t) && h < |t.d.handlers| && t.d.handlers[h].pc == D.Gone
    ensures t.d.handlers[h].link == D.Closed
  {
    var s, actions :| Init(s) && Runs(s, actions, t);
    RunIsDeliveryRun(s, actions, t);
    GoneRun(s.d, Effects(s, actions, t), t.d);
  }

  // ------------------------------------------------ every run

  lemma ServeStep(s: State, past: seq<Action>, a: Action)
    requires Inv(s) && ServeInv(s, past) && Enabled(s, a)
    ensures ServeInv(Apply(s, a), past + [a])
  {
    if a.MainStep? {
      MainServes(s, past);
    } else if Choice(a) {
      ChoiceServes(s, past, a);
    } else {
      OtherServes(s, past, a);
    }
  }

  lemma Shifted(past: seq<Action>, actions: seq<Action>)
    requires actions != []
    ensures past + [actions[0]] + actions[1..] == past + actions
  {
  }

  lemma {:induction false} RunReasons(s: State, past: seq<Action>, actions: seq<Action>, t: State)
    requires Inv(s) && ReasonInv(s, past) && Runs(s, actions, t)
    ensures ReasonInv(t, past + actions)
    decreases |actions|
  {
    if actions == [] {
      assert past + actions == past;
    } else {
      ApplyKeeps(s, actions[0]);
      ReasonStep(s, past, actions[0]);
      RunReasons(Apply(s, actions[0]), past + [actions[0]], actions[1..], t);
      Shifted(past, actions);
    }
  }

  lemma {:induction false} RunServes(s: State, past: seq<Action>, actions: seq<Action>, t: State)
    requires Inv(s) && ServeInv(s, past) && Runs(s, actions, t)
    ensures ServeInv(t, past + actions)
    decreases |actions|
  {
    if actions == [] {
      assert past + actions == past;
    } else {
      ApplyKeeps(s, actions[0]);
      ServeStep(s, past, actions[0]);
      RunServes(Apply(s, actions[0]), past + [actions[0]], actions[1..], t);
      Shifted(past, actions);
    }
  }

  lemma BornReasons(s: State, actions: seq<Action>, t: State)
    requires Init(s) && Runs(s, actions, t)
    ensures ReasonInv(t, actions)
  {
    InitInv(s);
    RunReasons(s, [], actions, t);
    assert [] + actions == actions;
  }

  lemma BornServing(s: State, actions: seq<Action>, t: State)
    requires Init(s) && Runs(s, actions, t)
    ensures ServeInv(t, actions)
  {
    InitInv(s);
    RunServes(s, [], actions, t);
    assert [] + actions == actions;
  }

  lemma BornKept(s: State, actions: seq<Action>, t: State)
    requires Init(s) && Runs(s, actions, t)
    ensures D.WellFormed(t.d) && ConnInv(t) && LoopInv(t.main)
  {
    InitInv(s);
    RunKeeps(s, actions, t);
  }

  /** Run leaves its loop exactly when listening failed, its context was cancelled, it
      took a SHUTDOWN, which a client had sent, or the time after the child's exit was
      over; and only in the first three cases is the child ever killed. Whatever clients
      come and go, nothing else ends it. */
  lemma StopsForAReason(s: State, actions: seq<Action>, t: State)
    requires Init(s) && Runs(s, actions, t)
    ensures InLoop(t.main.pc) <==>
            ListenFails !in actions && Cancelled !in actions && TakeShutdown !in actions && LingerOver !in actions
    ensures TakeShutdown in actions ==> exists h :: Handle(D.Receive(h, D.Shutdown)) in actions
    ensures LingerOver in actions ==> ChildExits in actions && !t.child.killed
    ensures t.child.killed ==> ListenFails in actions || Cancelled in actions || TakeShutdown in actions
  {
    BornReasons(s, actions, t);
  }

  /** Until then it takes every connection: as many have a handler as were taken, and as
      many were taken as accepted, but for the one being handed over. Only the latest can
      be open, and nobody but its own handler closes it. As long as accepting works the
      next connection can be accepted, and taken by the select. */
  lemma ServesTheLatest(s: State, actions: seq<Action>, t: State)
    requires Init(s) && Runs(s, actions, t) && InLoop(t.main.pc)
    ensures |t.d.handlers| == Count(actions, TakeConn) - if t.main.pc == Swapping then 1 else 0
    ensures Count(actions, AcceptConn) == Count(actions, TakeConn) + if t.acceptor == Handing then 1 else 0
    ensures t.main.pc != ClosingPrev ==> forall h :: 0 <= h < |t.d.handlers| - 1 ==> t.d.handlers[h].link == D.Closed
    ensures t.d.handlers != [] ==>
              var last := t.d.handlers[|t.d.handlers| - 1];
              && (last.link == D.Closed ==> last.pc == D.Gone)
              && (t.main.pc == Selecting ==> last.pc != D.Starting)
    ensures t.main.pc != Listening && AcceptFails !in actions ==>
              && D.WellFormed(t.d)
              && (|| Enabled(t, AcceptConn)
                  || (t.acceptor == Handing && (t.main.pc == Selecting ==> Enabled(t, TakeConn))))
  {
    BornKept(s, actions, t);
    BornServing(s, actions, t);
    OneIsOpen(t, actions);
    if t.main.pc != Listening && AcceptFails !in actions {
      NextCanCome(t, actions);
    }
  }

  lemma NextCanCome(t: State, past: seq<Action>)
    requires D.WellFormed(t.d) && LoopInv(t.main) && ServeInv(t, past)
    requires InLoop(t.main.pc) && t.main.pc != Listening && AcceptFails !in past
    ensures Enabled(t, AcceptConn) || (t.acceptor == Handing && (t.main.pc == Selecting ==> Enabled(t, TakeConn)))
  {
  }

  lemma OneIsOpen(t: State, actions: seq<Action>)
    requires ConnInv(t) && LoopInv(t.main) && ServeInv(t, actions) && InLoop(t.main.pc)
    ensures t.main.pc != ClosingPrev ==> forall h :: 0 <= h < |t.d.handlers| - 1 ==> t.d.handlers[h].link == D.Closed
    ensures t.d.handlers != [] ==>
              var last := t.d.handlers[|t.d.handlers| - 1];
              && (last.link == D.Closed ==> last.pc == D.Gone)
              && (t.main.pc == Selecting ==> last.pc != D.Starting)
  {
  }

  lemma ReachableFormed(s: State)
    requires Reachable(s)
    ensures D.WellFormed(s.d)
  {
    ReachableInv(s);
  }

  /** In every reachable state: a handler can read whatever its client sends next, or go
      on; only while it types it waits for the child. */
  lemma HandlersAreFree(s: State, h: nat, msg: D.Message)
    requires Reachable(s) && h < |s.d.handlers| && HandlerLive(s.d.handlers[h])
    ensures D.WellFormed(s.d)
    ensures match s.d.handlers[h].pc
            case Reading =>
              && Enabled(s, Handle(D.ReadError(h)))
              && (s.d.handlers[h].link != D.Closed ==> Enabled(s, Handle(D.Receive(h, msg))))
            case Typing => Enabled(s, InputTaken(h))
            case _ => Enabled(s, Handle(D.Step(h)))
  {
    ReachableFormed(s);
    HandlerFree(s, h, msg);
  }

  lemma HandlerFree(s: State, h: nat, msg: D.Message)
    requires D.WellFormed(s.d) && h < |s.d.handlers| && HandlerLive(s.d.handlers[h])
    ensures match s.d.handlers[h].pc
            case Reading =>
              && Enabled(s, Handle(D.ReadError(h)))
              && (s.d.handlers[h].link != D.Closed ==> Enabled(s, Handle(D.Receive(h, msg))))
            case Typing => Enabled(s, InputTaken(h))
            case _ => Enabled(s, Handle(D.Step(h)))
  {
  }

  /** A pump can take the next chunk, send the one it holds, or stop when it was told to. */
  lemma PumpsAreFree(s: State, i: nat, a: D.Action)
    requires Reachable(s) && i < |s.d.subs|
    requires var sub := s.d.subs[i];
             || (a == D.Dequeue(i) && sub.pump == D.Waiting && sub.queue != [])
             || (a == D.Quit(i) && sub.pump == D.Waiting && sub.closes > 0)
             || (a == D.Emit(i) && sub.pump.Holding?)
    ensures D.WellFormed(s.d) && Enabled(s, Handle(a))
  {
    ReachableFormed(s);
  }

  /** The child's output can be read, up to 32 KiB at a time, and stored. */
  lemma OutputIsFree(s: State, st: D.Stream, n: nat)
    requires Reachable(s)
    ensures D.WellFormed(s.d)
    ensures var src := s.Src(st);
            && (src.pc == Pumping && src.readOpen && 0 < n <= |src.pending| && n <= 32 * 1024 ==>
                  Enabled(s, ReadSome(st, n)))
            && (src.pc != Pumping && src.pc != SourceDone ==> Enabled(s, SourceStep(st)))
  {
    ReachableFormed(s);
  }
}
