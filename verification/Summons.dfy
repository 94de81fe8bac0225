/** From a SHUTDOWN or the child's death to main's decision to stop, and on to wg.Wait:
    neither is lost while main is busy with connections. */
module Summons {
  import opened Options
  import opened Lifecycle
  import opened LifecycleSafety
  import opened LifecycleRuns
  import opened Shutdown
  import opened Teardown
  import D = Delivery

  /** Before the decision: listening, the select loop and replaceConn. */
  predicate InLoop(pc: Pc) {
    pc == Listening || pc == Selecting || pc == Swapping || Replacing(pc)
  }

  /** A SHUTDOWN has been received and not yet acted on, or the child's exit has been
      announced. */
  predicate Called(s: State) {
    s.main.shutdownReq || s.child.announced > 0
  }

  predicate OfMain(a: Action) {
    Choice(a) || a.MainStep?
  }

  /** An arm of the select that leads to the end is ready. */
  predicate Answerable(s: State) {
    s.main.shutdownReq || s.main.linger || (s.main.exitArm && s.child.announced > 0)
  }

  /** The select takes another arm although one that leads to the end is ready. */
  predicate Wasted(s: State, a: Action) {
    s.main.pc == Selecting && Answerable(s) && (a == TakeConn || a == TakeAcceptErr)
  }

  // ------------------------------------------------ the exit is not forgotten

  /** Main still watches childExited, or the linger timer runs. */
  predicate Watches(m: Main) {
    InLoop(m.pc) ==> m.exitArm || m.linger
  }

  lemma CalledIsAnswerable(s: State)
    requires Called(s) && Watches(s.main) && InLoop(s.main.pc)
    ensures Answerable(s)
  {
  }

  lemma ChoiceWatches(s: State, a: Action)
    requires D.WellFormed(s.d) && Enabled(s, a) && Choice(a) && Watches(s.main)
    ensures Watches(Control(s, a).main)
  {
    match s.main.pc
    case Listening =>
    case Selecting =>
    case Grace =>
  }

  lemma StepWatches(s: State)
    requires MainReady(s) && Watches(s.main)
    ensures Watches(MainControl(s).main)
  {
  }

  lemma MainWatches(s: State, a: Action)
    requires D.WellFormed(s.d) && Enabled(s, a) && OfMain(a) && Watches(s.main)
    ensures Watches(Control(s, a).main)
  {
    if a.MainStep? {
      StepWatches(s);
    } else {
      ChoiceWatches(s, a);
    }
  }

  /** The other goroutines leave main alone, but for what its channels hold. */
  lemma OthersLeaveMain(s: State, a: Action)
    requires D.WellFormed(s.d) && Enabled(s, a) && !OfMain(a)
    ensures var m := Control(s, a).main;
            && m == s.main.(shutdownReq := m.shutdownReq, acceptErr := m.acceptErr)
            && (s.main.shutdownReq ==> m.shutdownReq)
  {
    if OfSource(a) {
      DueOutput(s, a);
    }
  }

  lemma {:induction false} RunWatches(s: State, actions: seq<Action>, t: State)
    requires Watches(s.main) && Runs(s, actions, t)
    ensures Watches(t.main)
    decreases |actions|
  {
    if actions != [] {
      if OfMain(actions[0]) {
        MainWatches(s, actions[0]);
      } else {
        OthersLeaveMain(s, actions[0]);
      }
      RunWatches(Apply(s, actions[0]), actions[1..], t);
    }
  }

  lemma ReachableWatches(t: State)
    requires Reachable(t)
    ensures Watches(t.main)
  {
    var s, actions :| Init(s) && Runs(s, actions, t);
    RunWatches(s, actions, t);
  }

  // ------------------------------------------------ one step

  /** The main steps left before the decision, if the select wastes `turns` more. */
  function LoopRank(m: Main, turns: nat): nat {
    4 * turns + 1 + One(m.exitArm)
    + match m.pc
      case Listening => 1
      case Swapping => 3
      case ClosingPrev => 2
      case Spawning => 1
      case _ => 0
  }

  lemma AnnouncedStays(s: State, a: Action)
    requires D.WellFormed(s.d) && Enabled(s, a)
    ensures Control(s, a).child.announced >= s.child.announced
  {
    if OfSource(a) {
      DueOutput(s, a);
    }
  }

  /** What a main step makes of the main goroutine. */
  predicate Moved(was: Main, m: Main, turns: nat, left: nat) {
    if InLoop(m.pc) then LoopRank(m, left) < LoopRank(was, turns) && m.shutdownReq == was.shutdownReq
    else OnItsWay(m.pc)
  }

  lemma ListenMoves(s: State, a: Action, turns: nat)
    requires D.WellFormed(s.d) && Enabled(s, a) && (a == ListenOk || a == ListenFails)
    ensures Moved(s.main, Control(s, a).main, turns, turns)
  {
  }

  lemma WasteMoves(s: State, a: Action, turns: nat)
    requires D.WellFormed(s.d) && Enabled(s, a) && (a == TakeConn || a == TakeAcceptErr) && turns > 0
    ensures Moved(s.main, Control(s, a).main, turns, turns - 1)
  {
  }

  lemma AnswerMoves(s: State, a: Action, turns: nat)
    requires D.WellFormed(s.d) && Enabled(s, a)
    requires a == SeeExit || a == LingerOver || a == TakeShutdown || a == Cancelled
    ensures Moved(s.main, Control(s, a).main, turns, turns)
  {
  }

  lemma SwapMoves(s: State, turns: nat)
    requires MainReady(s) && InLoop(s.main.pc)
    ensures Moved(s.main, MainControl(s).main, turns, turns)
  {
  }

  lemma MainMoves(s: State, a: Action, turns: nat)
    requires D.WellFormed(s.d) && Enabled(s, a) && OfMain(a) && InLoop(s.main.pc)
    requires Called(s) && Watches(s.main) && (Wasted(s, a) ==> turns > 0)
    ensures Moved(s.main, Control(s, a).main, turns, if Wasted(s, a) then turns - 1 else turns)
  {
    CalledIsAnswerable(s);
    if a.MainStep? {
      SwapMoves(s, turns);
    } else if a == ListenOk || a == ListenFails {
      ListenMoves(s, a, turns);
    } else if a == TakeConn || a == TakeAcceptErr {
      WasteMoves(s, a, turns);
    } else {
      AnswerMoves(s, a, turns);
    }
  }

  /** A call stays until main acts on it: every step leaves main in the loop with the
      call still there, or on its way. */
  lemma StaysCalled(s: State, a: Action)
    requires Reachable(s) && InLoop(s.main.pc)
    ensures D.WellFormed(s.d)
    ensures Enabled(s, a) && a.Handle? && a.a.Receive? && a.a.msg == D.Shutdown ==> Called(Apply(s, a))
    ensures Enabled(s, a) && Called(s) ==>
              var t := Apply(s, a); (InLoop(t.main.pc) && Called(t)) || OnItsWay(t.main.pc)
  {
    ReachableInv(s);
    ReachableWatches(s);
    if Enabled(s, a) && Called(s) {
      CallKept(s, a);
    }
  }

  lemma CallKept(s: State, a: Action)
    requires D.WellFormed(s.d) && Enabled(s, a) && InLoop(s.main.pc) && Called(s) && Watches(s.main)
    ensures var t := Control(s, a);
            && ((InLoop(t.main.pc) && Called(t)) || OnItsWay(t.main.pc))
            && Watches(t.main)
  {
    AnnouncedStays(s, a);
    if OfMain(a) {
      MainMoves(s, a, 1);
      MainWatches(s, a);
    } else {
      OthersLeaveMain(s, a);
    }
  }

  /** And main can always go on to answer it, even if nobody cancels its context. */
  lemma CanAnswer(s: State) returns (a: Action)
    requires Reachable(s) && InLoop(s.main.pc) && Called(s)
    ensures D.WellFormed(s.d) && Enabled(s, a) && OfMain(a) && !Wasted(s, a) && a != Cancelled
  {
    ReachableInv(s);
    ReachableWatches(s);
    a := if s.main.pc == Listening then ListenOk
         else if s.main.pc != Selecting then MainStep
         else if s.main.shutdownReq then TakeShutdown
         else if s.main.linger then LingerOver
         else SeeExit;
  }

  // ------------------------------------------------ whole schedules

  /** A schedule that lets main take its next step after at most `patience` others, the
      first after at most `left`, whose select passes over an arm that leads to the end
      at most `turns` times in all, and that is fair once main is on its way. */
  ghost predicate Heeds(s: State, actions: seq<Action>, patience: nat, left: nat, turns: nat)
    decreases |actions|
  {
    actions == [] ||
    if !InLoop(s.main.pc) then Fair(s, actions, patience, patience)
    else
      && D.WellFormed(s.d) && Enabled(s, actions[0])
      && var t := Apply(s, actions[0]);
         if OfMain(actions[0]) then
           && (Wasted(s, actions[0]) ==> turns > 0)
           && Heeds(t, actions[1..], patience, patience, if Wasted(s, actions[0]) then turns - 1 else turns)
         else left > 0 && Heeds(t, actions[1..], patience, left - 1, turns)
  }

  /** No more than this is due once main is on its way. */
  const MOST_DUE: nat := 14

  lemma DueAtMost(s: State)
    ensures Due(s) <= MOST_DUE
  {
  }

  function LeftToDo(m: Main, turns: nat, most: nat): nat {
    if InLoop(m.pc) then LoopRank(m, turns) + most else most
  }

  /** How long a schedule must be. */
  function Enough(s: State, patience: nat, left: nat, turns: nat, most: nat): nat {
    Budget(LeftToDo(s.main, turns, most), patience) + if InLoop(s.main.pc) then left else patience
  }

  lemma {:induction false} BudgetMonotone(m: nat, n: nat, patience: nat)
    requires m <= n
    ensures Budget(m, patience) <= Budget(n, patience)
  {
    if m < n {
      BudgetGrows(m, n, patience);
    }
  }

  lemma LessDue(was: Main, m: Main, turns: nat, left: nat, patience: nat, most: nat)
    requires InLoop(was.pc) && Moved(was, m, turns, left)
    ensures Budget(LeftToDo(m, left, most), patience) + patience < Budget(LeftToDo(was, turns, most), patience)
  {
    BudgetGrows(LeftToDo(m, left, most), LeftToDo(was, turns, most), patience);
  }

  /** One step of such a schedule brings its end closer. */
  lemma HeedsStep(s: State, actions: seq<Action>, patience: nat, left: nat, turns: nat, most: nat)
      returns (left': nat, turns': nat)
    requires D.WellFormed(s.d) && actions != [] && Enabled(s, actions[0]) && InLoop(s.main.pc)
    requires Called(s) && Watches(s.main)
    requires Heeds(s, actions, patience, left, turns) && left <= patience
    ensures left' <= patience && Heeds(Apply(s, actions[0]), actions[1..], patience, left', turns')
    ensures Enough(Apply(s, actions[0]), patience, left', turns', most) < Enough(s, patience, left, turns, most)
  {
    var a := actions[0];
    if OfMain(a) {
      MainMoves(s, a, turns);
      left', turns' := patience, if Wasted(s, a) then turns - 1 else turns;
      LessDue(s.main, Apply(s, a).main, turns, turns', patience, most);
    } else {
      OthersLeaveMain(s, a);
      left', turns' := left - 1, turns;
    }
  }

  ghost predicate Summoned(s: State) {
    Inv(s) && InLoop(s.main.pc) && Called(s) && Watches(s.main)
  }

  lemma {:induction false} CalledReachesWait(
      s: State, actions: seq<Action>, t: State, patience: nat, left: nat, turns: nat, most: nat)
    requires most >= MOST_DUE && Summoned(s)
    requires Runs(s, actions, t) && Heeds(s, actions, patience, left, turns) && left <= patience
    requires |actions| >= Enough(s, patience, left, turns, most)
    ensures Waiting(t)
    decreases |actions|
  {
    EnoughForOne(s, patience, left, turns, most);
    var left', turns' := HeedsStep(s, actions, patience, left, turns, most);
    var u := Apply(s, actions[0]);
    StepKeepsCall(s, actions[0], u);
    if Summoned(u) {
      CalledReachesWait(u, actions[1..], t, patience, left', turns', most);
    } else {
      DecidedReachesWait(u, actions[1..], t, patience, left', turns', most);
    }
  }

  lemma EnoughForOne(s: State, patience: nat, left: nat, turns: nat, most: nat)
    requires InLoop(s.main.pc)
    ensures Enough(s, patience, left, turns, most) > 0
  {
  }

  lemma StepKeepsCall(s: State, a: Action, u: State)
    requires Summoned(s) && Enabled(s, a) && u == Apply(s, a)
    ensures Summoned(u) || (Inv(u) && OnItsWay(u.main.pc))
  {
    ApplyKeeps(s, a);
    CallKept(s, a);
  }

  lemma DecidedReachesWait(
      s: State, actions: seq<Action>, t: State, patience: nat, left: nat, turns: nat, most: nat)
    requires most >= MOST_DUE && Inv(s) && OnItsWay(s.main.pc)
    requires Runs(s, actions, t) && Heeds(s, actions, patience, left, turns)
    requires |actions| >= Enough(s, patience, left, turns, most)
    ensures Waiting(t)
  {
    DecidedIsFair(s, actions, patience, left, turns);
    DecidedIsLong(s, patience, left, turns, most);
    ReachesWait(s, actions, t, patience, patience);
  }

  lemma DecidedIsFair(s: State, actions: seq<Action>, patience: nat, left: nat, turns: nat)
    requires OnItsWay(s.main.pc) && Heeds(s, actions, patience, left, turns)
    ensures Fair(s, actions, patience, patience)
  {
    assert actions == [] || !InLoop(s.main.pc);
  }

  lemma DecidedIsLong(s: State, patience: nat, left: nat, turns: nat, most: nat)
    requires OnItsWay(s.main.pc) && most >= MOST_DUE
    ensures Budget(Due(s), patience) + patience <= Enough(s, patience, left, turns, most)
  {
    DueAtMost(s);
    BudgetMonotone(Due(s), most, patience);
  }

  /** A SHUTDOWN that was received, or the end of the child, brings Run to wg.Wait on
      every schedule that heeds it, whatever connections come in meanwhile. */
  lemma CallReachesWait(s: State, actions: seq<Action>, t: State, patience: nat, turns: nat)
    requires Reachable(s) && Called(s) && InLoop(s.main.pc)
    requires Runs(s, actions, t) && Heeds(s, actions, patience, patience, turns)
    requires |actions| >= Enough(s, patience, patience, turns, MOST_DUE)
    ensures Waiting(t)
  {
    ReachableInv(s);
    ReachableWatches(s);
    CalledReachesWait(s, actions, t, patience, patience, turns, MOST_DUE);
  }
}
