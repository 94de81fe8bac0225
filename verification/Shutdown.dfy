/** How Run gets from a SHUTDOWN, a cancelled context, the end of the linger time or
    a failed listen to wg.Wait, what the WaitGroup count does on the way, and what
    a dead child means to a client. */
module Shutdown {
  import opened Bytes
  import opened Options
  import opened Lifecycle
  import opened LifecycleSafety
  import opened LifecycleRuns
  import opened Teardown
  import D = Delivery

  // ------------------------------------------------ the way to wg.Wait

  predicate OnItsWay(pc: Pc) {
    Stopping(pc) || pc == StoppingAccept || pc == ClosingListener || pc == TakingActive || pc == ClosingActive
  }

  function MainRank(pc: Pc): nat {
    match pc
    case Terminating => 7
    case Grace => 6
    case AwaitingExit => 5
    case StoppingAccept => 4
    case ClosingListener => 3
    case TakingActive => 2
    case ClosingActive => 1
    case _ => 0
  }

  /** The steps between here and wg.Wait that somebody owes: main, the waiter, and
      a killed child its exit. */
  function Due(s: State): nat {
    MainRank(s.main.pc) + WaiterRank(s.child.waiter) + One(!s.child.exited)
  }

  /** The step that is owed now: a timer that runs out, a process that was killed,
      or a goroutine that can go on. */
  function Owed(s: State): Action {
    if s.main.pc == Grace then GraceOver
    else if s.main.pc != AwaitingExit || s.child.announced > 0 then MainStep
    else if s.child.waiter == Draining then DrainTimesOut
    else if s.child.waiter == Reaping && !s.child.exited then ChildExits
    else WaiterStep
  }

  /** What is owed can be done; the child is asked for no more than to die once it
      was killed. */
  lemma OwedCanHappen(s: State)
    requires Inv(s) && OnItsWay(s.main.pc)
    ensures Enabled(s, Owed(s))
    ensures Owed(s) == ChildExits ==> s.child.killed
  {
  }

  lemma OwedStopping(s: State)
    requires Stopping(s.main.pc) && MainReady(s)
    ensures var pc := MainControl(s).main.pc;
            MainRank(pc) < MainRank(s.main.pc) && (OnItsWay(pc) || pc == WaitingAll)
  {
    match s.main.pc
    case Terminating =>
    case Grace =>
    case AwaitingExit =>
  }

  lemma OwedMain(s: State)
    requires OnItsWay(s.main.pc) && MainReady(s)
    ensures var t := MainControl(s);
            && MainRank(t.main.pc) < MainRank(s.main.pc) && t.child == s.child
            && (OnItsWay(t.main.pc) || t.main.pc == WaitingAll)
  {
    if Stopping(s.main.pc) {
      OwedStopping(s);
    }
  }

  lemma OwedWaiter(s: State)
    requires D.WellFormed(s.d) && Enabled(s, WaiterStep)
    ensures var t := WaiterControl(s);
            && Due(t) < Due(s) && t.main == s.main
  {
  }

  lemma DueOutput(s: State, a: Action)
    requires D.WellFormed(s.d) && Enabled(s, a) && OfSource(a)
    ensures Control(s, a).main == s.main && Control(s, a).child == s.child
  {
    match a.st
    case Out =>
    case Err =>
  }

  lemma DuePeer(s: State, a: Action)
    requires D.WellFormed(s.d) && Enabled(s, a) && OfPeer(a)
    ensures var t := Control(s, a); t.child == s.child && t.main.pc == s.main.pc
  {
  }

  lemma DueChoice(s: State, a: Action)
    requires D.WellFormed(s.d) && Enabled(s, a) && OnItsWay(s.main.pc) && Choice(a)
    ensures a == GraceOver
    ensures var t := Control(s, GraceOver); Due(t) < Due(s) && OnItsWay(t.main.pc)
  {
  }

  predicate OfChild(a: Action) {
    a.ChildExits? || a.DrainDone? || a.DrainTimesOut?
  }

  lemma DueChild(s: State, a: Action)
    requires D.WellFormed(s.d) && Enabled(s, a) && OfChild(a)
    ensures var t := Control(s, a); t.main == s.main && Due(t) < Due(s)
  {
  }

  lemma DueAcceptor(s: State, a: Action)
    requires D.WellFormed(s.d) && Enabled(s, a) && Aside(a) && !OfChild(a)
    ensures var t := Control(s, a); t.child == s.child && t.main.pc == s.main.pc
  {
  }

  /** The owed step brings wg.Wait closer; every other step leaves it owed or brings
      wg.Wait closer too. */
  ghost predicate Advances(s: State, a: Action, t: State) {
    && Due(t) <= Due(s)
    && (OnItsWay(t.main.pc) || t.main.pc == WaitingAll)
    && (a == Owed(s) ==> Due(t) < Due(s))
    && (Due(t) == Due(s) ==> Owed(t) == Owed(s))
  }

  lemma Unmoved(s: State, a: Action, t: State)
    requires t.child == s.child && t.main.pc == s.main.pc && OnItsWay(s.main.pc)
    requires OfSource(a) || OfPeer(a) || (Aside(a) && !OfChild(a))
    ensures Advances(s, a, t)
  {
  }

  lemma ControlAdvances(s: State, a: Action)
    requires D.WellFormed(s.d) && OnItsWay(s.main.pc) && Enabled(s, a)
    ensures Advances(s, a, Control(s, a))
  {
    if a.MainStep? {
      OwedMain(s);
    } else if a.WaiterStep? {
      OwedWaiter(s);
    } else if OfSource(a) {
      DueOutput(s, a);
      Unmoved(s, a, Control(s, a));
    } else if OfPeer(a) {
      DuePeer(s, a);
      Unmoved(s, a, Control(s, a));
    } else if Choice(a) {
      DueChoice(s, a);
    } else if OfChild(a) {
      DueChild(s, a);
    } else {
      DueAcceptor(s, a);
      Unmoved(s, a, Control(s, a));
    }
  }

  lemma Joined(s: State, a: Action, c: State, e: D.State)
    requires Advances(s, a, c)
    ensures Advances(s, a, c.(d := e))
  {
  }

  lemma AdvancesInv(s: State, a: Action)
    requires Inv(s) && OnItsWay(s.main.pc) && Enabled(s, a)
    ensures Inv(Apply(s, a)) && Advances(s, a, Apply(s, a))
  {
    ApplyKeeps(s, a);
    ControlAdvances(s, a);
    Joined(s, a, Control(s, a), Through(s.d, Effect(s, a)));
  }

  /** Nobody can hold main up on its way to wg.Wait: the owed step is possible, asks
      the child for no more than to die once it was killed, and every step advances. */
  lemma OnTheWay(s: State, a: Action)
    requires Reachable(s) && OnItsWay(s.main.pc)
    ensures D.WellFormed(s.d) && Enabled(s, Owed(s)) && (Owed(s) == ChildExits ==> s.child.killed)
    ensures Enabled(s, a) ==> Advances(s, a, Apply(s, a))
  {
    ReachableInv(s);
    OwedCanHappen(s);
    if Enabled(s, a) {
      AdvancesInv(s, a);
    }
  }

  /** A schedule that passes each step, from when it is owed, over at most `patience`
      times, the first one at most `left` times. Steps that are not owed may be taken in
      any order. */
  ghost predicate Fair(s: State, actions: seq<Action>, patience: nat, left: nat)
    decreases |actions|
  {
    actions == [] || !OnItsWay(s.main.pc) ||
    (&& D.WellFormed(s.d) && Enabled(s, actions[0])
     && var t := Apply(s, actions[0]);
        if actions[0] == Owed(s) || Owed(t) != Owed(s) then Fair(t, actions[1..], patience, patience)
        else left > 0 && Fair(t, actions[1..], patience, left - 1))
  }

  /** due * (patience + 1) */
  function Budget(due: nat, patience: nat): nat {
    if due == 0 then 0 else Budget(due - 1, patience) + patience + 1
  }

  lemma {:induction false} BudgetGrows(m: nat, n: nat, patience: nat)
    requires m < n
    ensures Budget(m, patience) + patience < Budget(n, patience)
    decreases n
  {
    if m < n - 1 {
      BudgetGrows(m, n - 1, patience);
    }
  }

  /** On every fair schedule main reaches wg.Wait, within a number of steps that
      only the distance and the schedule's patience decide. */
  lemma {:induction false} ReachesWait(s: State, actions: seq<Action>, t: State, patience: nat, left: nat)
    requires Inv(s) && (OnItsWay(s.main.pc) || Waiting(s))
    requires Runs(s, actions, t) && Fair(s, actions, patience, left)
    requires left <= patience && |actions| >= Budget(Due(s), patience) + left
    ensures Waiting(t)
    decreases |actions|
  {
    if Waiting(s) {
      WaitingRun(s, actions, t);
    } else {
      BudgetLeft(s, patience);
      AdvancesInv(s, actions[0]);
      var left' := FairStep(s, actions, patience, left);
      ReachesWait(Apply(s, actions[0]), actions[1..], t, patience, left');
    }
  }

  lemma BudgetLeft(s: State, patience: nat)
    requires OnItsWay(s.main.pc)
    ensures Budget(Due(s), patience) > 0
  {
    assert MainRank(s.main.pc) > 0;
  }

  /** What is left of the schedule suffices for what is left of the way. */
  lemma FairStep(s: State, actions: seq<Action>, patience: nat, left: nat) returns (left': nat)
    requires OnItsWay(s.main.pc) && actions != [] && Fair(s, actions, patience, left) && left <= patience
    requires Advances(s, actions[0], Apply(s, actions[0]))
    ensures left' <= patience && Fair(Apply(s, actions[0]), actions[1..], patience, left')
    ensures Budget(Due(Apply(s, actions[0])), patience) + left' < Budget(Due(s), patience) + left
  {
    var u := Apply(s, actions[0]);
    left' := if actions[0] == Owed(s) || Owed(u) != Owed(s) then patience else left - 1;
    if Due(u) < Due(s) {
      BudgetGrows(Due(u), Due(s), patience);
    }
  }

  /** From a SHUTDOWN, a cancelled context, the end of the linger time or a failed
      listen, every fair schedule brings Run to wg.Wait. */
  lemma ShutdownReachesWait(s: State, actions: seq<Action>, t: State, patience: nat)
    requires Reachable(s) && OnItsWay(s.main.pc)
    requires Runs(s, actions, t) && Fair(s, actions, patience, patience)
    requires |actions| >= Budget(Due(s), patience) + patience
    ensures Waiting(t)
  {
    ReachableInv(s);
    ReachesWait(s, actions, t, patience, patience);
  }

  // ------------------------------------------------ the WaitGroup count

  lemma HandleAtZero(s: State, b: D.Action)
    requires Inv(s) && Enabled(s, Handle(b)) && s.wg == 0
    ensures Control(s, Handle(b)).wg == 0
  {
    QuietAtZero(s, b);
  }

  lemma OutputAtZero(s: State, a: Action)
    requires D.WellFormed(s.d) && Enabled(s, a) && OfSource(a)
    ensures Control(s, a).wg <= s.wg
  {
    match a.st
    case Out =>
    case Err =>
  }

  lemma ChoiceAtZero(s: State, a: Action)
    requires D.WellFormed(s.d) && Enabled(s, a) && s.wg == 0 && (Choice(a) || a.MainStep?)
    ensures Control(s, a).wg > 0 <==> a == ListenOk || (a == MainStep && s.main.pc == Spawning)
  {
  }

  lemma AsideAtZero(s: State, a: Action)
    requires D.WellFormed(s.d) && Enabled(s, a) && s.wg == 0
    requires Aside(a) || a.WaiterStep? || (OfPeer(a) && !a.Handle?)
    ensures Control(s, a).wg <= 0
  {
  }

  lemma ControlAtZero(s: State, a: Action)
    requires Inv(s) && Enabled(s, a) && s.wg == 0
    ensures Control(s, a).wg > 0 <==> a == ListenOk || (a == MainStep && s.main.pc == Spawning)
  {
    if a.Handle? {
      HandleAtZero(s, a.a);
    } else if OfSource(a) {
      OutputAtZero(s, a);
    } else if Choice(a) || a.MainStep? {
      ChoiceAtZero(s, a);
    } else {
      AsideAtZero(s, a);
    }
  }

  lemma ActionAtZero(s: State, a: Action)
    requires Inv(s) && Enabled(s, a) && s.wg == 0
    ensures Apply(s, a).wg >= 0
    ensures Apply(s, a).wg > 0 <==> a == ListenOk || (a == MainStep && s.main.pc == Spawning)
  {
    ControlAtZero(s, a);
    ApplyKeeps(s, a);
  }

  /** The count is the number of goroutines that have still to call Done, and only
      main itself, which is then not in wg.Wait, ever raises it from zero. */
  lemma RaisedFromZero(s: State, a: Action)
    requires Reachable(s)
    ensures D.WellFormed(s.d) && s.wg == Live(s)
    ensures s.wg == 0 && Enabled(s, a) ==>
              (Apply(s, a).wg > 0 <==> a == ListenOk || (a == MainStep && s.main.pc == Spawning))
    ensures s.wg == 0 && Enabled(s, a) && Waiting(s) ==> Apply(s, a).wg == 0
  {
    ReachableInv(s);
    if s.wg == 0 && Enabled(s, a) {
      ActionAtZero(s, a);
    }
  }

  /** cmd.Wait is called at most once and each channel closed at most once; what a
      client may read off the flags is true. */
  lemma ClosedOnce(s: State)
    requires Reachable(s)
    ensures s.child.reaps <= 1 && s.child.announced <= 1 && s.main.stops <= 1
    ensures s.child.announced == 1 ==> !s.child.alive
    ensures !s.child.alive ==> s.child.reaps == 1 && s.child.exited
    ensures s.main.stops == 1 ==> s.child.announced == 1
  {
    ReachableInv(s);
  }

  // ------------------------------------------------ a dead child's output

  ghost predicate SameHistory(s: State, t: State) {
    && t.d.out == s.d.out && t.d.err == s.d.err
    && t.out.written == s.out.written && t.err.written == s.err.written
  }

  lemma FinalOutput(s: State, a: Action)
    requires D.WellFormed(s.d) && SourcesInv(s) && s.out.clean && s.err.clean && Enabled(s, a) && OfSource(a)
    ensures Effect(s, a).None?
    ensures var t := Control(s, a); t.out.clean && t.err.clean && SameHistory(s, t)
  {
    match a.st
    case Out =>
    case Err =>
  }

  lemma FinalEffect(d: D.State, b: D.Action)
    requires D.WellFormed(d) && D.Enabled(d, b) && !b.Write?
    ensures D.Apply(d, b).out == d.out && D.Apply(d, b).err == d.err
  {
    if b.Step? {
      assert D.HandlerFormed(d.handlers[b.h], |d.subs|);
    }
  }

  lemma FinalStep(s: State, a: Action)
    requires D.WellFormed(s.d) && SourcesInv(s) && s.out.clean && s.err.clean && Enabled(s, a)
    ensures var t := Apply(s, a); t.out.clean && t.err.clean && SameHistory(s, t)
  {
    if OfSource(a) {
      FinalOutput(s, a);
    } else {
      var b := Effect(s, a);
      if b.Some? {
        FinalEffect(s.d, b.value);
      }
    }
  }

  lemma {:induction false} FinalRun(s: State, actions: seq<Action>, t: State)
    requires Inv(s) && s.out.clean && s.err.clean && Runs(s, actions, t)
    ensures Inv(t) && t.out.clean && t.err.clean && SameHistory(s, t)
    decreases |actions|
  {
    if actions != [] {
      ApplyKeeps(s, actions[0]);
      FinalStep(s, actions[0]);
      FinalRun(Apply(s, actions[0]), actions[1..], t);
    }
  }

  /** Pipe mode, no drain time-out: once alive reads false both rings have had all
      the child wrote, and will never change again. */
  lemma DeadMeansComplete(s: State, actions: seq<Action>, t: State)
    requires Reachable(s) && s.d.pipe && !s.child.timedOut && !s.child.alive && Runs(s, actions, t)
    ensures s.d.out == s.out.written && s.d.err == s.err.written
    ensures SameHistory(s, t)
  {
    ReachableInv(s);
    PlusNil(s.d.out);
    PlusNil(s.d.err);
    FinalRun(s, actions, t);
  }

  function Start(pipe: bool): State {
    State(
      D.State(1, pipe, [], [], [], []),
      Main(Listening, Undecided, 0, None, None, false, false, true, true, false, false, 0),
      NoAcceptor,
      Child(if pipe then Draining else Reaping, true, false, 0, false, false, 0),
      FRESH_SOURCE,
      if pipe then FRESH_SOURCE else NO_SOURCE,
      if pipe then 3 else 2)
  }

  lemma RunsCons(s: State, a: Action, rest: seq<Action>, t: State)
    requires D.WellFormed(s.d) && Enabled(s, a) && Runs(Apply(s, a), rest, t)
    ensures Runs(s, [a] + rest, t)
  {
    assert ([a] + rest)[1..] == rest;
  }

  /** cmd.Wait returns, and alive becomes false. */
  lemma Reported(s: State) returns (actions: seq<Action>, t: State)
    requires D.WellFormed(s.d) && s.child.waiter == Reaping && s.child.exited
    ensures Runs(s, actions, t) && t == WaiterControl(WaiterControl(s))
  {
    var u := Apply(s, WaiterStep);
    t := Apply(u, WaiterStep);
    RunsCons(u, WaiterStep, [], t);
    RunsCons(s, WaiterStep, [WaiterStep] + [], t);
    actions := [WaiterStep] + ([WaiterStep] + []);
  }

  /** Neither condition can go: after a drain time-out, and in terminal mode always,
      a child can be reported dead while output it wrote is in no ring. */
  lemma DeadMayLag(pipe: bool) returns (actions: seq<Action>, t: State)
    ensures Init(Start(pipe)) && Runs(Start(pipe), actions, t)
    ensures t.d.pipe == pipe && (t.child.timedOut <==> pipe) && !t.child.alive
    ensures t.out.written == [0] && t.d.out == []
  {
    var s0 := Start(pipe);
    var s1 := Apply(s0, ChildWrites(D.Out, [0]));
    var s2 := Apply(s1, ChildExits);
    var s3 := if pipe then Apply(s2, DrainTimesOut) else s2;
    actions, t := Reported(s3);
    if pipe {
      RunsCons(s2, DrainTimesOut, actions, t);
      actions := [DrainTimesOut] + actions;
    }
    RunsCons(s1, ChildExits, actions, t);
    actions := [ChildExits] + actions;
    RunsCons(s0, ChildWrites(D.Out, [0]), actions, t);
    actions := [ChildWrites(D.Out, [0])] + actions;
  }

  ghost predicate Complete(s: State) {
    s.d.out == s.out.written && s.d.err == s.err.written
  }

  /** A reachable state in which the child of this mode is reported dead. */
  ghost predicate Dead(s: State, pipe: bool, timedOut: bool) {
    Reachable(s) && s.d.pipe == pipe && s.child.timedOut == timedOut && !s.child.alive
  }

  /** Exactly when a client may take a dead child's rings for all it wrote. */
  lemma DeadIsComplete(pipe: bool, timedOut: bool)
    requires timedOut ==> pipe
    ensures (forall s :: Dead(s, pipe, timedOut) ==> Complete(s)) <==> pipe && !timedOut
  {
    if pipe && !timedOut {
      forall s | Dead(s, pipe, timedOut) ensures Complete(s) {
        DeadMeansComplete(s, [], s);
      }
    } else {
      var actions, t := DeadMayLag(pipe);
      assert Dead(t, pipe, timedOut) && !Complete(t);
    }
  }
}
