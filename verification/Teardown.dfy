/** Run always gets out: what teardown waits for finishes, nothing it waits for can
    be stuck, and what it leaves behind is complete. */
module Teardown {
  import opened Bytes
  import opened Options
  import opened Lifecycle
  import opened LifecycleSafety
  import opened LifecycleRuns
  import opened Sums
  import D = Delivery
  import S = DeliverySafety

  // ------------------------------------------------ how much is left to do

  /** Upper bounds on the steps a handler or pump on a closed connection has left,
      its future pumps included. */
  function HandlerRank(hd: D.Handler): nat {
    match hd.pc
    case Gone => 0
    case LeavingConn => 1
    case LeavingClose(st) => if st == D.Err then 2 else 4
    case LeavingDetach(st) => if st == D.Err then 3 else 5
    case Reading => 6
    case Replying => 7
    case Typing => 7
    case Launching(st) => if st == D.Err then 9 else 17
    case Replaying(st) => if st == D.Err then 10 else 18
    case Snapshotting(st, _) => if st == D.Err then 11 else 19
    case Closing(st, _) => if st == D.Err then 12 else 20
    case Detaching(st, _) => if st == D.Err then 13 else 21
    case Starting => 22
  }

  function PumpRank(sub: D.Sub): nat {
    if sub.pump == D.Waiting then 2 else if sub.pump.Holding? then 1 else 0
  }

  function DeliveryRank(d: D.State): nat {
    Sum(d.handlers, HandlerRank) + Sum(d.subs, PumpRank)
  }

  function SourceRank(src: Source): nat {
    match src.pc
    case Storing(_) => 4
    case Pumping => 3
    case Finishing => 2
    case SourceLeaving => 1
    case SourceDone => 0
  }

  function AcceptorRank(a: Acceptor): nat {
    match a
    case Accepting => 2
    case Handing => 2
    case Dropping => 1
    case Failing => 1
    case NoAcceptor => 0
    case AcceptorDone => 0
  }

  function WaiterRank(w: WaiterPc): nat {
    match w
    case Draining => 6
    case Reaping => 5
    case Recording => 4
    case ClosingPty => 3
    case Announcing => 2
    case WaiterLeaving => 1
    case WaiterDone => 0
  }

  function Rank(s: State): nat {
    DeliveryRank(s.d) + SourceRank(s.out) + SourceRank(s.err) + AcceptorRank(s.acceptor)
    + WaiterRank(s.child.waiter) + One(s.main.pc == WaitingAll)
  }

  // ------------------------------------------------ handlers and pumps run down

  predicate AllClosed(d: D.State) {
    forall h :: 0 <= h < |d.handlers| ==> d.handlers[h].link == D.Closed
  }

  lemma RankHandler(d: D.State, h: nat, hd: D.Handler)
    requires h < |d.handlers|
    ensures DeliveryRank(d.WithHandler(h, hd)) + HandlerRank(d.handlers[h]) == DeliveryRank(d) + HandlerRank(hd)
  {
    SumUpdate(d.handlers, h, hd, HandlerRank);
  }

  lemma RankSub(d: D.State, i: nat, sub: D.Sub)
    requires i < |d.subs|
    ensures DeliveryRank(d.WithSub(i, sub)) + PumpRank(d.subs[i]) == DeliveryRank(d) + PumpRank(sub)
  {
    SumUpdate(d.subs, i, sub, PumpRank);
  }

  /** A handler step that leaves its subscription's pump where it is. */
  lemma RankBoth(d: D.State, i: nat, sub: D.Sub, h: nat, hd: D.Handler)
    requires i < |d.subs| && h < |d.handlers| && sub.pump == d.subs[i].pump
    requires HandlerRank(hd) < HandlerRank(d.handlers[h])
    ensures DeliveryRank(d.WithSub(i, sub).WithHandler(h, hd)) < DeliveryRank(d)
  {
    RankSub(d, i, sub);
    RankHandler(d.WithSub(i, sub), h, hd);
  }

  lemma DetachRank(d: D.State, h: nat)
    requires D.WellFormed(d) && h < |d.handlers|
    requires d.handlers[h].pc.Detaching? || d.handlers[h].pc.LeavingDetach?
    ensures DeliveryRank(D.HandlerStep(d, h)) < DeliveryRank(d)
  {
    var hd := d.handlers[h];
    var hd' := D.HandlerStep(d, h).handlers[h];
    match hd.Slot(hd.pc.stream)
    case None => RankHandler(d, h, hd');
    case Some(i) => RankBoth(d, i, d.subs[i].(registered := false), h, hd');
  }

  lemma CloseRank(d: D.State, h: nat)
    requires D.WellFormed(d) && h < |d.handlers| && D.HandlerFormed(d.handlers[h], |d.subs|)
    requires d.handlers[h].pc.Closing? || d.handlers[h].pc.LeavingClose?
    ensures DeliveryRank(D.HandlerStep(d, h)) < DeliveryRank(d)
  {
    var hd := d.handlers[h];
    var i := hd.Slot(hd.pc.stream).value;
    var sub := d.subs[i].(closes := d.subs[i].closes + 1);
    match hd.pc
    case Closing(st, offset) => RankBoth(d, i, sub, h, hd.WithSlot(st, None).(pc := D.Snapshotting(st, offset)));
    case LeavingClose(st) => RankBoth(d, i, sub, h, hd.WithSlot(st, None).(pc := D.AfterLeaving(st)));
  }

  lemma AttachRank(d: D.State, h: nat)
    requires D.WellFormed(d) && h < |d.handlers| && d.handlers[h].link == D.Closed
    requires d.handlers[h].pc.Replaying? || d.handlers[h].pc.Launching?
    requires D.HandlerFormed(d.handlers[h], |d.subs|)
    requires d.subs[d.handlers[h].Slot(d.handlers[h].pc.stream).value].pump == D.NotStarted
    ensures DeliveryRank(D.HandlerStep(d, h)) < DeliveryRank(d)
  {
    var hd := d.handlers[h];
    var e := D.HandlerStep(d, h);
    var i := hd.Slot(hd.pc.stream).value;
    assert d.WithSub(i, d.subs[i]) == d;
    RankSub(d, i, e.subs[i]);
    RankHandler(d.WithSub(i, e.subs[i]), h, e.handlers[h]);
  }

  lemma SnapshotRank(d: D.State, h: nat)
    requires D.WellFormed(d) && h < |d.handlers| && d.handlers[h].pc.Snapshotting?
    ensures DeliveryRank(D.HandlerStep(d, h)) < DeliveryRank(d)
  {
    var e := D.HandlerStep(d, h);
    SumUpdate(d.handlers, h, e.handlers[h], HandlerRank);
    SumAppend(d.subs, e.subs[|d.subs|], PumpRank);
  }

  lemma QuietRank(d: D.State, h: nat)
    requires D.WellFormed(d) && h < |d.handlers|
    requires var pc := d.handlers[h].pc; pc == D.Replying || pc == D.Typing || pc == D.LeavingConn
    ensures DeliveryRank(D.HandlerStep(d, h)) < DeliveryRank(d)
  {
    RankHandler(d, h, D.HandlerStep(d, h).handlers[h]);
  }

  lemma StepRank(d: D.State, h: nat)
    requires S.Inv(d) && D.Enabled(d, D.Step(h)) && d.handlers[h].pc != D.Starting && d.handlers[h].link == D.Closed
    ensures DeliveryRank(D.HandlerStep(d, h)) < DeliveryRank(d)
  {
    S.LinksFrom(d, h);
    match d.handlers[h].pc
    case Snapshotting(_, _) => SnapshotRank(d, h);
    case Replaying(_) => AttachRank(d, h);
    case Launching(_) => AttachRank(d, h);
    case Replying => QuietRank(d, h);
    case Typing => QuietRank(d, h);
    case LeavingConn => QuietRank(d, h);
    case Detaching(_, _) => DetachRank(d, h);
    case LeavingDetach(_) => DetachRank(d, h);
    case Closing(_, _) => CloseRank(d, h);
    case LeavingClose(_) => CloseRank(d, h);
  }

  lemma PumpActionRank(d: D.State, b: D.Action)
    requires D.WellFormed(d) && D.Enabled(d, b) && AllClosed(d)
    requires b.ReadError? || b.Dequeue? || b.Emit? || b.Quit?
    ensures DeliveryRank(D.Apply(d, b)) < DeliveryRank(d)
  {
    match b
    case ReadError(h) => RankHandler(d, h, d.handlers[h].(pc := D.LeavingDetach(D.Out)));
    case Dequeue(i) =>
      RankSub(d, i, d.subs[i].(pump := D.Holding(d.subs[i].queue[0]), queue := d.subs[i].queue[1..]));
    case Emit(i) => RankSub(d, i, d.subs[i].(pump := D.Stopped));
    case Quit(i) => RankSub(d, i, d.subs[i].(pump := D.Stopped));
  }

  /** On closed connections every step of a handler or pump uses something up. */
  lemma HandleRank(d: D.State, b: D.Action)
    requires S.Inv(d) && D.Enabled(d, b) && AllClosed(d)
    requires !b.Write? && !b.Accept? && !b.PeerLeaves? && !b.Disconnect?
    requires b.Step? ==> d.handlers[b.h].pc != D.Starting
    ensures DeliveryRank(D.Apply(d, b)) < DeliveryRank(d)
  {
    match b
    case Step(h) => StepRank(d, h);
    case ReadError(_) => PumpActionRank(d, b);
    case Dequeue(_) => PumpActionRank(d, b);
    case Emit(_) => PumpActionRank(d, b);
    case Quit(_) => PumpActionRank(d, b);
  }

  // ------------------------------------------------ wg.Wait always returns

  /** A step of one of Run's own goroutines; the others are the child's and the
      client's doing. */
  predicate Own(a: Action) {
    !a.ChildWrites? && !a.ChildCloses? && !a.ChildExits? && !a.PeerDisconnects?
  }

  predicate Waiting(s: State) {
    s.main.pc == WaitingAll || s.main.pc == Returned
  }

  /** No new connection, and no handler that has still to start. */
  predicate NoNewcomer(d: D.State, b: D.Action)
    requires D.Enabled(d, b)
  {
    !b.Accept? && (b.Step? ==> d.handlers[b.h].pc != D.Starting)
  }

  lemma WriteRank(d: D.State, st: D.Stream, p: seq<byte>)
    ensures DeliveryRank(D.RingWrite(d, st, p)) == DeliveryRank(d)
  {
    SumSame(d.subs, D.RingWrite(d, st, p).subs, PumpRank);
  }

  lemma LinkRank(d: D.State, b: D.Action)
    requires D.WellFormed(d) && D.Enabled(d, b) && (b.PeerLeaves? || b.Disconnect?)
    ensures DeliveryRank(D.Apply(d, b)) == DeliveryRank(d)
  {
    RankHandler(d, b.h, D.Apply(d, b).handlers[b.h]);
  }

  lemma EffectRank(d: D.State, b: D.Action)
    requires S.Inv(d) && D.Enabled(d, b) && AllClosed(d) && NoNewcomer(d, b)
    ensures DeliveryRank(D.Apply(d, b)) <= DeliveryRank(d)
    ensures !b.Write? && !b.PeerLeaves? && !b.Disconnect? ==> DeliveryRank(D.Apply(d, b)) < DeliveryRank(d)
  {
    match b
    case Write(st, p) => WriteRank(d, st, p);
    case PeerLeaves(_) => LinkRank(d, b);
    case Disconnect(_) => LinkRank(d, b);
    case _ => HandleRank(d, b);
  }

  lemma WaitingNewcomers(s: State, a: Action)
    requires Inv(s) && Waiting(s) && Enabled(s, a)
    ensures AllClosed(s.d)
    ensures Effect(s, a).Some? ==> NoNewcomer(s.d, Effect(s, a).value)
  {
  }

  lemma WaitingEffect(s: State, a: Action)
    requires Inv(s) && Waiting(s) && Enabled(s, a)
    ensures var b := Effect(s, a);
            && DeliveryRank(Through(s.d, b)) <= DeliveryRank(s.d)
            && (a.Handle? || a.InputTaken? ==> DeliveryRank(Through(s.d, b)) < DeliveryRank(s.d))
  {
    WaitingNewcomers(s, a);
    var b := Effect(s, a);
    if b.Some? {
      EffectRank(s.d, b.value);
    }
  }

  function OthersRank(s: State): nat {
    SourceRank(s.out) + SourceRank(s.err) + AcceptorRank(s.acceptor) + WaiterRank(s.child.waiter)
    + One(s.main.pc == WaitingAll)
  }

  lemma RankSource(s: State, st: D.Stream, src: Source)
    ensures OthersRank(s.WithSrc(st, src)) + SourceRank(s.Src(st)) == OthersRank(s) + SourceRank(src)
    ensures s.WithSrc(st, src).main == s.main
  {
    match st
    case Out =>
    case Err =>
  }

  lemma WaitingReads(s: State, a: Action)
    requires D.WellFormed(s.d) && Enabled(s, a) && OfSource(a) && !a.SourceStep? && !a.ReadSome?
    ensures var t := Control(s, a);
            && OthersRank(t) <= OthersRank(s) && (Own(a) ==> OthersRank(t) < OthersRank(s))
            && t.main == s.main
  {
    var src := s.Src(a.st);
    match a
    case ChildWrites(st, bytes) =>
      RankSource(s, st, src.(written := src.written + bytes, pending := src.pending + bytes));
    case ChildCloses(st) => RankSource(s, st, src.(writeOpen := false));
    case ReadEnd(st) => RankSource(s, st, src.(pc := Finishing, clean := src.pending == [] && !src.writeOpen));
  }

  lemma WaitingSourceStep(s: State, st: D.Stream)
    requires D.WellFormed(s.d) && Enabled(s, SourceStep(st))
    ensures var t := SourceControl(s, st); OthersRank(t) < OthersRank(s) && t.main == s.main
  {
    var src := s.Src(st);
    match src.pc
    case Storing(_) => RankSource(s, st, src.(pc := Pumping));
    case Finishing => RankSource(s, st, src.(pc := SourceLeaving, drained := true));
    case SourceLeaving => RankSource(s, st, src.(pc := SourceDone));
  }

  /** Past cmd.Wait the pipes and the terminal are closed, and so is the listener. */
  lemma WaitingShut(s: State)
    requires WaiterInv(s) && MainInv(s) && Waiting(s)
    ensures !s.out.readOpen && !s.err.readOpen && !s.main.listening
  {
  }

  lemma WaitingSources(s: State, a: Action)
    requires Inv(s) && Waiting(s) && Enabled(s, a) && OfSource(a)
    ensures var t := Control(s, a);
            && OthersRank(t) <= OthersRank(s) && (Own(a) ==> OthersRank(t) < OthersRank(s))
            && t.main == s.main
  {
    WaitingShut(s);
    if a.SourceStep? {
      WaitingSourceStep(s, a.st);
    } else if a.ReadSome? {
      assert false;
    } else {
      WaitingReads(s, a);
    }
  }

  lemma WaitingWaiter(s: State)
    requires Inv(s) && Waiting(s) && Enabled(s, WaiterStep)
    ensures OthersRank(WaiterControl(s)) < OthersRank(s) && WaiterControl(s).main == s.main
  {
  }

  lemma WaitingPeer(s: State, a: Action)
    requires D.WellFormed(s.d) && Enabled(s, a) && OfPeer(a)
    ensures var t := Control(s, a); OthersRank(t) == OthersRank(s) && t.main.pc == s.main.pc
  {
  }

  lemma WaitingAside(s: State, a: Action)
    requires D.WellFormed(s.d) && !s.main.listening && Enabled(s, a) && Aside(a)
    ensures var t := Control(s, a);
            && OthersRank(t) <= OthersRank(s) && (Own(a) ==> OthersRank(t) < OthersRank(s))
            && t.main.pc == s.main.pc
  {
  }

  lemma WaitingMain(s: State, a: Action)
    requires D.WellFormed(s.d) && Waiting(s) && Enabled(s, a) && (Choice(a) || a.MainStep?)
    ensures var t := Control(s, a); OthersRank(t) < OthersRank(s) && s.main.pc != Returned && t.main.pc == Returned
  {
  }

  lemma WaitingControl(s: State, a: Action)
    requires Inv(s) && Waiting(s) && Enabled(s, a)
    ensures var t := Control(s, a);
            && OthersRank(t) <= OthersRank(s)
            && (Own(a) && !a.Handle? && !a.InputTaken? ==> OthersRank(t) < OthersRank(s))
            && Waiting(t) && (s.main.pc == Returned ==> t.main.pc == Returned)
  {
    if OfSource(a) {
      WaitingSources(s, a);
    } else if a.WaiterStep? {
      WaitingWaiter(s);
    } else if OfPeer(a) {
      WaitingPeer(s, a);
    } else if Aside(a) {
      WaitingShut(s);
      WaitingAside(s, a);
    } else {
      WaitingMain(s, a);
    }
  }

  lemma Others(c: State, e: D.State)
    ensures Rank(c.(d := e)) == DeliveryRank(e) + OthersRank(c)
  {
  }

  /** Every step of Run's goroutines under wg.Wait uses up one of finitely many
      steps, and nothing the child or the client does adds to them. */
  lemma WaitingRunsDown(s: State, a: Action)
    requires Inv(s) && Waiting(s) && Enabled(s, a)
    ensures var t := Apply(s, a);
            && Rank(t) <= Rank(s) && (Own(a) ==> Rank(t) < Rank(s))
            && Waiting(t) && (s.main.pc == Returned ==> t.main.pc == Returned)
  {
    WaitingEffect(s, a);
    WaitingControl(s, a);
    Others(Control(s, a), Through(s.d, Effect(s, a)));
    Others(s, s.d);
  }

  // ------------------------------------------------ and is never stuck

  lemma HandlerCanStep(s: State, h: nat) returns (a: Action)
    requires D.WellFormed(s.d) && WaiterInv(s) && MainInv(s) && Waiting(s)
    requires h < |s.d.handlers| && HandlerLive(s.d.handlers[h])
    ensures Own(a) && Enabled(s, a) && !a.InputTaken?
  {
    WaitingShut(s);
    a := if s.d.handlers[h].pc == D.Reading then Handle(D.ReadError(h)) else Handle(D.Step(h));
  }

  /** A pump whose subscription is not closed yet has an owner that will close it. */
  lemma OwnerLives(d: D.State, i: nat)
    requires D.WellFormed(d) && S.LinkInv(d) && i < |d.subs| && d.subs[i].closes == 0
    ensures HandlerLive(d.handlers[d.subs[i].owner])
  {
    assert S.SubLinked(d, i);
    assert S.SlotLinked(d, d.subs[i].owner, d.subs[i].stream);
  }

  lemma PumpMoves(s: State, i: nat) returns (a: Action)
    requires D.WellFormed(s.d) && i < |s.d.subs|
    requires var sub := s.d.subs[i];
             sub.pump.Holding? || (sub.pump == D.Waiting && (sub.queue != [] || sub.closes > 0))
    ensures Own(a) && Enabled(s, a) && !a.InputTaken?
  {
    var sub := s.d.subs[i];
    a := Handle(if sub.pump.Holding? then D.Emit(i) else if sub.queue != [] then D.Dequeue(i) else D.Quit(i));
  }

  lemma PumpCanStep(s: State, i: nat) returns (a: Action)
    requires Inv(s) && Waiting(s) && i < |s.d.subs| && PumpLive(s.d.subs[i])
    ensures Own(a) && Enabled(s, a) && !a.InputTaken?
  {
    var sub := s.d.subs[i];
    if sub.pump == D.Waiting && sub.queue == [] && sub.closes == 0 {
      OwnerLives(s.d, i);
      a := HandlerCanStep(s, sub.owner);
    } else {
      a := PumpMoves(s, i);
    }
  }

  lemma SourceCanStep(s: State, st: D.Stream) returns (a: Action)
    requires Inv(s) && Waiting(s) && s.main.pc == WaitingAll && s.Src(st).pc != SourceDone
    ensures Own(a) && Enabled(s, a) && !a.InputTaken?
  {
    match st
    case Out => a := if s.out.pc == Pumping then ReadEnd(D.Out) else SourceStep(D.Out);
    case Err => a := if s.err.pc == Pumping then ReadEnd(D.Err) else SourceStep(D.Err);
  }

  lemma AcceptorCanStep(s: State) returns (a: Action)
    requires Inv(s) && s.main.pc == WaitingAll && s.acceptor != NoAcceptor && s.acceptor != AcceptorDone
    ensures Own(a) && Enabled(s, a) && !a.InputTaken?
  {
    a := match s.acceptor
         case Accepting => AcceptFails
         case Handing => SeeStop
         case _ => AcceptorStep;
  }

  /** While main sits in wg.Wait some goroutine of Run can take a step, needing
      nothing from the child or the client. */
  lemma NeverStuck(s: State) returns (a: Action)
    requires Inv(s) && s.main.pc == WaitingAll
    ensures Own(a) && !a.InputTaken? && Enabled(s, a)
  {
    if s.acceptor != NoAcceptor && s.acceptor != AcceptorDone {
      a := AcceptorCanStep(s);
    } else if s.child.waiter != WaiterDone {
      a := WaiterStep;
    } else if s.out.pc != SourceDone {
      a := SourceCanStep(s, D.Out);
    } else if s.err.pc != SourceDone {
      a := SourceCanStep(s, D.Err);
    } else if Sum(s.d.handlers, HandlerCount) > 0 {
      var h := SumFrom(s.d.handlers, HandlerCount);
      a := HandlerCanStep(s, h);
    } else if Sum(s.d.subs, PumpCount) > 0 {
      var i := SumFrom(s.d.subs, PumpCount);
      a := PumpCanStep(s, i);
    } else {
      a := MainStep;
    }
  }

  function OwnSteps(actions: seq<Action>): nat {
    if actions == [] then 0 else One(Own(actions[0])) + OwnSteps(actions[1..])
  }

  lemma {:induction false} WaitingRun(s: State, actions: seq<Action>, t: State)
    requires Inv(s) && Waiting(s) && Runs(s, actions, t)
    ensures Inv(t) && Waiting(t)
    ensures OwnSteps(actions) + Rank(t) <= Rank(s)
    decreases |actions|
  {
    if actions != [] {
      ApplyKeeps(s, actions[0]);
      WaitingRunsDown(s, actions[0]);
      WaitingRun(Apply(s, actions[0]), actions[1..], t);
    }
  }

  /** No deadlock in teardown: once main waits for the others, every run takes at
      most Rank(s) steps of Run's own goroutines, whatever child and client do
      meanwhile, and as long as Run has not returned one more is possible. */
  lemma TeardownCompletes(s: State, actions: seq<Action>, t: State)
    requires Reachable(s) && s.main.pc == WaitingAll && Runs(s, actions, t)
    ensures OwnSteps(actions) + Rank(t) <= Rank(s)
    ensures t.main.pc != Returned ==>
              D.WellFormed(t.d) && exists a :: Own(a) && !a.InputTaken? && Enabled(t, a)
  {
    ReachableInv(s);
    WaitingRun(s, actions, t);
    if t.main.pc != Returned {
      var a := NeverStuck(t);
    }
  }

  lemma LiveNone(s: State)
    requires Live(s) == 0
    ensures forall h :: 0 <= h < |s.d.handlers| ==> !HandlerLive(s.d.handlers[h])
    ensures forall i :: 0 <= i < |s.d.subs| ==> !PumpLive(s.d.subs[i])
  {
    forall h | 0 <= h < |s.d.handlers| ensures !HandlerLive(s.d.handlers[h]) {
      SumAtLeast(s.d.handlers, h, HandlerCount);
    }
    forall i | 0 <= i < |s.d.subs| ensures !PumpLive(s.d.subs[i]) {
      SumAtLeast(s.d.subs, i, PumpCount);
    }
  }

  /** A handler that has still to start is the one main is about to start. */
  lemma ReturnedHandlers(s: State)
    requires Live(s) == 0 && MainInv(s) && ConnInv(s) && s.main.pc == Returned
    ensures forall h :: 0 <= h < |s.d.handlers| ==> s.d.handlers[h].pc == D.Gone
  {
    LiveNone(s);
  }

  lemma DoneRank(d: D.State)
    requires forall h :: 0 <= h < |d.handlers| ==> d.handlers[h].pc == D.Gone
    requires forall i :: 0 <= i < |d.subs| ==> !PumpLive(d.subs[i])
    ensures DeliveryRank(d) == 0
  {
    SumZero(d.handlers, HandlerRank);
    SumZero(d.subs, PumpRank);
  }

  lemma ReturnedRank(s: State)
    requires Inv(s) && s.main.pc == Returned
    ensures Rank(s) == 0
  {
    LiveNone(s);
    ReturnedHandlers(s);
    DoneRank(s.d);
    assert OthersRank(s) == 0;
    Others(s, s.d);
  }

  lemma ReturnedClean(s: State)
    requires ChildInv(s.child) && MainInv(s) && ConnInv(s) && s.main.pc == Returned
    ensures s.child.exited && !s.child.alive && s.child.reaps == 1 && s.child.announced == 1
    ensures s.main.stops == if s.main.why == ByListenError then 0 else 1
    ensures !s.main.listening && AllClosed(s.d)
  {
  }

  lemma ReturnedIdle(s: State, a: Action)
    requires Inv(s) && s.main.pc == Returned && Enabled(s, a)
    ensures !Own(a)
  {
    ReturnedRank(s);
    WaitingRunsDown(s, a);
  }

  /** What Run leaves: the child reaped by one cmd.Wait, childExited closed once,
      stopAccept closed once (never if the listener failed), every goroutine of the
      WaitGroup finished and none of them with a step left. */
  lemma ReturnsClean(s: State, a: Action)
    requires Reachable(s) && s.main.pc == Returned
    ensures s.child.exited && !s.child.alive && s.child.reaps == 1 && s.child.announced == 1
    ensures s.main.stops == if s.main.why == ByListenError then 0 else 1
    ensures !s.main.listening && AllClosed(s.d) && Live(s) == 0 && s.wg == 0
    ensures D.WellFormed(s.d) && (Enabled(s, a) ==> !Own(a))
  {
    ReachableInv(s);
    ReturnedClean(s);
    if Enabled(s, a) {
      ReturnedIdle(s, a);
    }
  }
}
