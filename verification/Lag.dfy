/** A slow subscriber is nobody else's business: two runs that differ only in when, and
    whether, the pump of one subscription acts. */
module Lag {
  import opened Bytes
  import opened Options
  import opened Delivery

  /** The two states differ at most in the channel and pump of subscription `i` and in
      the frames on its owner's connection. */
  ghost predicate SameButLag(s: State, t: State, i: nat) {
    && t == s.(handlers := t.handlers, subs := t.subs)
    && |t.subs| == |s.subs| && |t.handlers| == |s.handlers|
    && (forall j :: 0 <= j < |s.subs| ==> SubsAlike(s.subs[j], t.subs[j], j == i))
    && (forall h :: 0 <= h < |s.handlers| ==>
          HandlersAlike(s.handlers[h], t.handlers[h], i < |s.subs| && h == s.subs[i].owner))
  }

  predicate SubsAlike(a: Sub, b: Sub, lagging: bool) {
    if lagging then b == a.(queue := b.queue, log := b.log, lost := b.lost, pump := b.pump, emitted := b.emitted)
    else b == a
  }

  predicate HandlersAlike(a: Handler, b: Handler, owner: bool) {
    if owner then b == a.(sent := b.sent) else b == a
  }

  predicate PumpOf(a: Action, i: nat) {
    (a.Dequeue? || a.Emit? || a.Quit?) && a.i == i
  }

  function Without(actions: seq<Action>, i: nat): seq<Action> {
    if actions == [] then []
    else if PumpOf(actions[0], i) then Without(actions[1..], i)
    else [actions[0]] + Without(actions[1..], i)
  }

  // ------------------------------------------------ one action

  lemma PumpIsPrivate(s: State, t: State, i: nat, a: Action)
    requires SameButLag(s, t, i) && PumpOf(a, i) && WellFormed(s) && Enabled(s, a)
    ensures SameButLag(Apply(s, a), t, i)
  {
  }

  lemma Symmetric(s: State, t: State, i: nat)
    requires SameButLag(s, t, i)
    ensures SameButLag(t, s, i)
  {
  }

  lemma WriteAlike(s: State, t: State, i: nat, st: Stream, p: seq<byte>)
    requires SameButLag(s, t, i)
    ensures SameButLag(RingWrite(s, st, p), RingWrite(t, st, p), i)
  {
    match st
    case Out =>
    case Err =>
  }

  /** One handler and one subscription change alike on both sides. */
  lemma BothAlike(s: State, t: State, i: nat, j: nat, a: Sub, b: Sub, h: nat, c: Handler, d: Handler)
    requires SameButLag(s, t, i) && j < |s.subs| && h < |s.handlers|
    requires SubsAlike(a, b, j == i) && a.owner == s.subs[j].owner
    requires HandlersAlike(c, d, i < |s.subs| && h == s.subs[i].owner)
    ensures SameButLag(s.WithSub(j, a).WithHandler(h, c), t.WithSub(j, b).WithHandler(h, d), i)
  {
  }

  lemma HandlerAlike(s: State, t: State, i: nat, h: nat, c: Handler, d: Handler)
    requires SameButLag(s, t, i) && h < |s.handlers|
    requires HandlersAlike(c, d, i < |s.subs| && h == s.subs[i].owner)
    ensures SameButLag(s.WithHandler(h, c), t.WithHandler(h, d), i)
  {
  }

  lemma DetachAlike(s: State, t: State, i: nat, h: nat)
    requires SameButLag(s, t, i) && WellFormed(s) && WellFormed(t) && h < |s.handlers|
    requires s.handlers[h].pc.Detaching? || s.handlers[h].pc.LeavingDetach?
    ensures SameButLag(HandlerStep(s, h), HandlerStep(t, h), i)
  {
    var c, d := s.handlers[h], t.handlers[h];
    match c.pc
    case Detaching(st, offset) =>
      UnregisterAlike(s, t, i, h, st, if c.Slot(st).None? then Snapshotting(st, offset) else Closing(st, offset));
    case LeavingDetach(st) =>
      UnregisterAlike(s, t, i, h, st, if c.Slot(st).None? then AfterLeaving(st) else LeavingClose(st));
  }

  lemma UnregisterAlike(s: State, t: State, i: nat, h: nat, st: Stream, pc: Pc)
    requires SameButLag(s, t, i) && h < |s.handlers| && HandlerFormed(s.handlers[h], |s.subs|)
    ensures var c, d := s.handlers[h], t.handlers[h];
            && c.Slot(st) == d.Slot(st)
            && if c.Slot(st).None? then SameButLag(s.WithHandler(h, c.(pc := pc)), t.WithHandler(h, d.(pc := pc)), i)
               else SameButLag(Unregister(s, c.Slot(st).value).WithHandler(h, c.(pc := pc)),
                               Unregister(t, c.Slot(st).value).WithHandler(h, d.(pc := pc)), i)
  {
    var c, d := s.handlers[h].(pc := pc), t.handlers[h].(pc := pc);
    match c.Slot(st)
    case None => HandlerAlike(s, t, i, h, c, d);
    case Some(j) => BothAlike(s, t, i, j, s.subs[j].(registered := false), t.subs[j].(registered := false), h, c, d);
  }

  lemma CloseAlike(s: State, t: State, i: nat, h: nat)
    requires SameButLag(s, t, i) && WellFormed(s) && WellFormed(t) && h < |s.handlers|
    requires s.handlers[h].pc.Closing? || s.handlers[h].pc.LeavingClose?
    ensures SameButLag(HandlerStep(s, h), HandlerStep(t, h), i)
  {
    match s.handlers[h].pc
    case Closing(st, offset) => CloseDoneAlike(s, t, i, h, st, Snapshotting(st, offset));
    case LeavingClose(st) => CloseDoneAlike(s, t, i, h, st, AfterLeaving(st));
  }

  lemma CloseDoneAlike(s: State, t: State, i: nat, h: nat, st: Stream, pc: Pc)
    requires SameButLag(s, t, i) && h < |s.handlers| && HandlerFormed(s.handlers[h], |s.subs|)
    requires s.handlers[h].Slot(st).Some?
    ensures var c, d := s.handlers[h], t.handlers[h];
            && c.Slot(st) == d.Slot(st)
            && SameButLag(CloseDone(s, c.Slot(st).value).WithHandler(h, c.WithSlot(st, None).(pc := pc)),
                          CloseDone(t, c.Slot(st).value).WithHandler(h, d.WithSlot(st, None).(pc := pc)), i)
  {
    var c, d := s.handlers[h].WithSlot(st, None).(pc := pc), t.handlers[h].WithSlot(st, None).(pc := pc);
    var j := s.handlers[h].Slot(st).value;
    BothAlike(s, t, i, j, CloseDone(s, j).subs[j], CloseDone(t, j).subs[j], h, c, d);
  }

  lemma LaunchAlike(s: State, t: State, i: nat, h: nat)
    requires SameButLag(s, t, i) && WellFormed(s) && WellFormed(t) && h < |s.handlers|
    requires s.handlers[h].pc.Launching?
    ensures SameButLag(HandlerStep(s, h), HandlerStep(t, h), i)
  {
    var c, d := HandlerStep(s, h).handlers[h], HandlerStep(t, h).handlers[h];
    assert HandlerFormed(s.handlers[h], |s.subs|) && HandlerFormed(t.handlers[h], |t.subs|);
    var j := s.handlers[h].Slot(s.handlers[h].pc.stream).value;
    BothAlike(s, t, i, j, s.subs[j].(pump := Waiting), t.subs[j].(pump := Waiting), h, c, d);
  }

  lemma ReplayAlike(s: State, t: State, i: nat, h: nat)
    requires SameButLag(s, t, i) && WellFormed(s) && WellFormed(t) && h < |s.handlers|
    requires s.handlers[h].pc.Replaying?
    ensures SameButLag(HandlerStep(s, h), HandlerStep(t, h), i)
  {
    var c, d := HandlerStep(s, h).handlers[h], HandlerStep(t, h).handlers[h];
    assert HandlerFormed(s.handlers[h], |s.subs|) && HandlerFormed(t.handlers[h], |t.subs|);
    var j := s.handlers[h].Slot(s.handlers[h].pc.stream).value;
    if Writable(s.handlers[h], s.subs[j].replay) {
      BothAlike(s, t, i, j, s.subs[j].(replayed := true), t.subs[j].(replayed := true), h, c, d);
    } else {
      HandlerAlike(s, t, i, h, c, d);
    }
  }

  lemma SnapshotAlike(s: State, t: State, i: nat, h: nat)
    requires SameButLag(s, t, i) && WellFormed(s) && WellFormed(t) && h < |s.handlers|
    requires s.handlers[h].pc.Snapshotting?
    ensures SameButLag(HandlerStep(s, h), HandlerStep(t, h), i)
  {
    SnapshotSub(s, t, i, h, HandlerStep(s, h).subs[|s.subs|]);
  }

  lemma SnapshotSub(s: State, t: State, i: nat, h: nat, sub: Sub)
    requires SameButLag(s, t, i) && h < |s.handlers|
    ensures SameButLag(s.(subs := s.subs + [sub]), t.(subs := t.subs + [sub]), i)
  {
  }

  lemma QuietAlike(s: State, t: State, i: nat, h: nat)
    requires SameButLag(s, t, i) && WellFormed(s) && WellFormed(t) && h < |s.handlers|
    requires var pc := s.handlers[h].pc; pc == Starting || pc == Replying || pc == Typing || pc == LeavingConn
    ensures SameButLag(HandlerStep(s, h), HandlerStep(t, h), i)
  {
    HandlerAlike(s, t, i, h, HandlerStep(s, h).handlers[h], HandlerStep(t, h).handlers[h]);
  }

  lemma StepAlike(s: State, t: State, i: nat, h: nat)
    requires SameButLag(s, t, i) && WellFormed(s) && WellFormed(t) && Enabled(s, Step(h))
    ensures Enabled(t, Step(h)) && SameButLag(HandlerStep(s, h), HandlerStep(t, h), i)
  {
    match s.handlers[h].pc
    case Starting => QuietAlike(s, t, i, h);
    case Replying => QuietAlike(s, t, i, h);
    case Typing => QuietAlike(s, t, i, h);
    case LeavingConn => QuietAlike(s, t, i, h);
    case Snapshotting(_, _) => SnapshotAlike(s, t, i, h);
    case Replaying(_) => ReplayAlike(s, t, i, h);
    case Launching(_) => LaunchAlike(s, t, i, h);
    case Closing(_, _) => CloseAlike(s, t, i, h);
    case LeavingClose(_) => CloseAlike(s, t, i, h);
    case _ => DetachAlike(s, t, i, h);
  }

  lemma EmitAlike(s: State, t: State, i: nat, j: nat)
    requires SameButLag(s, t, i) && WellFormed(s) && WellFormed(t) && Enabled(s, Emit(j)) && j != i
    ensures Enabled(t, Emit(j)) && SameButLag(EmitStep(s, j), EmitStep(t, j), i)
  {
    if Writable(s.handlers[s.subs[j].owner], s.subs[j].pump.chunk) {
      EmittedAlike(s, t, i, j);
    } else {
      StoppedAlike(s, t, i, j);
    }
  }

  lemma EmittedAlike(s: State, t: State, i: nat, j: nat)
    requires SameButLag(s, t, i) && WellFormed(s) && WellFormed(t)
    requires Enabled(s, Emit(j)) && Enabled(t, Emit(j)) && j != i
    ensures SameButLag(Emitted(s, j), Emitted(t, j), i)
  {
    var sub := s.subs[j];
    var c, d := s.handlers[sub.owner], t.handlers[sub.owner];
    var f := Data(sub.stream, sub.pump.chunk, j);
    var a := sub.(pump := Waiting, emitted := sub.emitted + 1);
    BothAlike(s, t, i, j, a, a, sub.owner, c.(sent := c.sent + [f]), d.(sent := d.sent + [f]));
  }

  lemma StoppedAlike(s: State, t: State, i: nat, j: nat)
    requires SameButLag(s, t, i) && j < |s.subs| && j != i
    ensures SameButLag(s.WithSub(j, s.subs[j].(pump := Stopped)), t.WithSub(j, t.subs[j].(pump := Stopped)), i)
  {
  }

  lemma ConnAlike(s: State, t: State, i: nat, a: Action)
    requires SameButLag(s, t, i) && WellFormed(s) && WellFormed(t) && Enabled(s, a)
    requires a.Receive? || a.ReadError? || a.PeerLeaves? || a.Disconnect?
    ensures Enabled(t, a) && SameButLag(Apply(s, a), Apply(t, a), i)
  {
    HandlerAlike(s, t, i, a.h, Apply(s, a).handlers[a.h], Apply(t, a).handlers[a.h]);
  }

  lemma ChannelAlike(s: State, t: State, i: nat, a: Action)
    requires SameButLag(s, t, i) && WellFormed(s) && WellFormed(t) && Enabled(s, a)
    requires (a.Dequeue? || a.Quit?) && a.i != i
    ensures Enabled(t, a) && SameButLag(Apply(s, a), Apply(t, a), i)
  {
  }

  lemma AcceptAlike(s: State, t: State, i: nat)
    requires SameButLag(s, t, i) && WellFormed(s) && WellFormed(t)
    ensures SameButLag(Apply(s, Accept), Apply(t, Accept), i)
  {
  }

  /** What is possible for everybody else is the same on both sides, and has the same
      effect. */
  lemma ActionAlike(s: State, t: State, i: nat, a: Action)
    requires SameButLag(s, t, i) && WellFormed(s) && WellFormed(t) && Enabled(s, a) && !PumpOf(a, i)
    ensures Enabled(t, a) && SameButLag(Apply(s, a), Apply(t, a), i)
  {
    match a
    case Write(st, p) => WriteAlike(s, t, i, st, p);
    case Step(h) => StepAlike(s, t, i, h);
    case Emit(j) => EmitAlike(s, t, i, j);
    case Accept => AcceptAlike(s, t, i);
    case Receive(_, _) => ConnAlike(s, t, i, a);
    case ReadError(_) => ConnAlike(s, t, i, a);
    case PeerLeaves(_) => ConnAlike(s, t, i, a);
    case Disconnect(_) => ConnAlike(s, t, i, a);
    case Dequeue(_) => ChannelAlike(s, t, i, a);
    case Quit(_) => ChannelAlike(s, t, i, a);
  }

  // ------------------------------------------------ whole runs

  lemma {:induction false} RunsAlike(s: State, a: seq<Action>, t: State, s': State, b: seq<Action>, t': State, i: nat)
    requires SameButLag(s, s', i) && Runs(s, a, t) && Runs(s', b, t') && Without(a, i) == Without(b, i)
    ensures SameButLag(t, t', i)
    decreases |a| + |b|
  {
    if a != [] && PumpOf(a[0], i) {
      PumpIsPrivate(s, s', i, a[0]);
      RunsAlike(Apply(s, a[0]), a[1..], t, s', b, t', i);
    } else if b != [] && PumpOf(b[0], i) {
      Symmetric(s, s', i);
      PumpIsPrivate(s', s, i, b[0]);
      Symmetric(Apply(s', b[0]), s, i);
      RunsAlike(s, a, t, Apply(s', b[0]), b[1..], t', i);
    } else if a != [] {
      assert Without(a, i)[0] == a[0] && Without(b, i)[0] == b[0];
      assert Without(a, i)[1..] == Without(a[1..], i) && Without(b, i)[1..] == Without(b[1..], i);
      ActionAlike(s, s', i, a[0]);
      RunsAlike(Apply(s, a[0]), a[1..], t, Apply(s', b[0]), b[1..], t', i);
    }
  }

  /** Delay the pump of subscription `i`, or leave it out, in any run: rings, maps, all
      other subscriptions and the frames on all other connections come out the same. */
  lemma LagIsPrivate(s: State, a: seq<Action>, t: State, b: seq<Action>, t': State, i: nat)
    requires Runs(s, a, t) && Runs(s, b, t') && Without(a, i) == Without(b, i)
    ensures SameButLag(t, t', i)
  {
    RunsAlike(s, a, t, s, b, t', i);
  }
}
