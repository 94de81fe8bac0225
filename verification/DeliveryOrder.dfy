/** What a connection carries after any number of ATTACHes: the frames of its
    subscriptions, interleaved, each subscription's own in order. */
module DeliveryOrder {
  import opened Bytes
  import opened Options
  import opened Ring
  import opened Delivery
  import opened DeliverySafety
  import opened DeliveryTheorems

  /** The chunks among the frames that subscription `i` sent, in order. */
  function SentBy(sent: seq<Frame>, i: nat): seq<Chunk> {
    if sent == [] then []
    else
      var f := sent[|sent| - 1];
      var init := SentBy(sent[..|sent| - 1], i);
      if f.Data? && f.sender == i then init + [f.chunk] else init
  }

  lemma SentByAppend(sent: seq<Frame>, f: Frame, i: nat)
    ensures SentBy(sent + [f], i) ==
            if f.Data? && f.sender == i then SentBy(sent, i) + [f.chunk] else SentBy(sent, i)
  {
    assert (sent + [f])[..|sent|] == sent;
  }

  /** A subscription of this connection and stream sent the frame. */
  predicate SentFor(f: Frame, h: nat, subs: seq<Sub>) {
    f.Data? ==> f.sender < |subs| && subs[f.sender].owner == h && subs[f.sender].stream == f.stream
  }

  ghost predicate HandlerOrder(hd: Handler, h: nat, subs: seq<Sub>) {
    && (forall k :: 0 <= k < |hd.sent| ==> SentFor(hd.sent[k], h, subs))
    && (forall i :: 0 <= i < |subs| && subs[i].owner == h ==> SentBy(hd.sent, i) == Shown(subs[i]))
  }

  ghost predicate OrderInv(s: State) {
    forall h :: 0 <= h < |s.handlers| ==> HandlerOrder(s.handlers[h], h, s.subs)
  }

  // ------------------------------------------------ steps that send nothing new

  /** All but what subscriptions show and connections carry may change. */
  ghost predicate SameShown(s: State, t: State) {
    && |t.subs| == |s.subs| && |t.handlers| == |s.handlers|
    && (forall i :: 0 <= i < |s.subs| ==>
          && t.subs[i].owner == s.subs[i].owner && t.subs[i].stream == s.subs[i].stream
          && Shown(t.subs[i]) == Shown(s.subs[i]))
    && (forall h :: 0 <= h < |s.handlers| ==>
          t.handlers[h].sent == s.handlers[h].sent || t.handlers[h].sent == s.handlers[h].sent + [Reply])
  }

  lemma ReplyKeeps(sent: seq<Frame>, i: nat)
    ensures SentBy(sent + [Reply], i) == SentBy(sent, i)
  {
    SentByAppend(sent, Reply, i);
  }

  lemma SameKeepsOrder(s: State, t: State)
    requires OrderInv(s) && SameShown(s, t)
    ensures OrderInv(t)
  {
    forall h | 0 <= h < |t.handlers| ensures HandlerOrder(t.handlers[h], h, t.subs) {
      var a, b := s.handlers[h].sent, t.handlers[h].sent;
      assert HandlerOrder(s.handlers[h], h, s.subs);
      forall i | 0 <= i < |t.subs| && t.subs[i].owner == h ensures SentBy(b, i) == Shown(t.subs[i]) {
        ReplyKeeps(a, i);
      }
    }
  }

  lemma HandlerSame(s: State, h: nat, hd: Handler)
    requires h < |s.handlers|
    requires hd.sent == s.handlers[h].sent || hd.sent == s.handlers[h].sent + [Reply]
    ensures SameShown(s, s.WithHandler(h, hd))
  {
  }

  lemma BothSame(s: State, i: nat, sub: Sub, h: nat, hd: Handler)
    requires i < |s.subs| && h < |s.handlers| && hd.sent == s.handlers[h].sent
    requires sub.owner == s.subs[i].owner && sub.stream == s.subs[i].stream && Shown(sub) == Shown(s.subs[i])
    ensures SameShown(s, s.WithSub(i, sub).WithHandler(h, hd))
  {
  }

  lemma DetachSame(s: State, h: nat)
    requires WellFormed(s) && h < |s.handlers| && (s.handlers[h].pc.Detaching? || s.handlers[h].pc.LeavingDetach?)
    ensures SameShown(s, HandlerStep(s, h))
  {
    var hd := s.handlers[h];
    var hd' := HandlerStep(s, h).handlers[h];
    match hd.Slot(hd.pc.stream)
    case None => HandlerSame(s, h, hd');
    case Some(i) => BothSame(s, i, s.subs[i].(registered := false), h, hd');
  }

  lemma CloseSame(s: State, h: nat)
    requires WellFormed(s) && h < |s.handlers| && HandlerFormed(s.handlers[h], |s.subs|)
    requires s.handlers[h].pc.Closing? || s.handlers[h].pc.LeavingClose?
    ensures SameShown(s, HandlerStep(s, h))
  {
    var hd, t := s.handlers[h], HandlerStep(s, h);
    var i := hd.Slot(hd.pc.stream).value;
    BothSame(s, i, t.subs[i], h, t.handlers[h]);
  }

  lemma LaunchSame(s: State, h: nat)
    requires WellFormed(s) && h < |s.handlers| && HandlerFormed(s.handlers[h], |s.subs|)
    requires s.handlers[h].pc.Launching?
    ensures SameShown(s, HandlerStep(s, h))
  {
    var hd, t := s.handlers[h], HandlerStep(s, h);
    var i := hd.Slot(hd.pc.stream).value;
    BothSame(s, i, t.subs[i], h, t.handlers[h]);
  }

  lemma QuietSame(s: State, h: nat)
    requires WellFormed(s) && h < |s.handlers|
    requires var pc := s.handlers[h].pc; pc == Starting || pc == Replying || pc == Typing || pc == LeavingConn
    ensures SameShown(s, HandlerStep(s, h))
  {
    HandlerSame(s, h, HandlerStep(s, h).handlers[h]);
  }

  lemma WriteSame(s: State, st: Stream, p: seq<byte>)
    requires DataInv(s)
    ensures SameShown(s, RingWrite(s, st, p))
  {
    WriteKeepsShown(s, st, p);
  }

  lemma ConnSame(s: State, a: Action)
    requires WellFormed(s) && Enabled(s, a) && (a.Receive? || a.ReadError? || a.PeerLeaves? || a.Disconnect?)
    ensures SameShown(s, Apply(s, a))
  {
    HandlerSame(s, a.h, Apply(s, a).handlers[a.h]);
  }

  lemma ChannelSame(s: State, a: Action)
    requires WellFormed(s) && Enabled(s, a) && (a.Dequeue? || a.Quit?)
    ensures SameShown(s, Apply(s, a))
  {
  }

  lemma StopSame(s: State, i: nat)
    requires i < |s.subs|
    ensures SameShown(s, s.WithSub(i, s.subs[i].(pump := Stopped)))
  {
  }

  // ------------------------------------------------ steps that do

  /** Subscription `i` puts its next chunk on its connection. */
  lemma SendKeepsOrder(s: State, h: nat, hd: Handler, i: nat, sub: Sub, c: Chunk)
    requires OrderInv(s) && h < |s.handlers| && i < |s.subs| && s.subs[i].owner == h
    requires sub.owner == h && sub.stream == s.subs[i].stream && Shown(sub) == Shown(s.subs[i]) + [c]
    requires hd.sent == s.handlers[h].sent + [Data(sub.stream, c, i)]
    ensures OrderInv(s.WithSub(i, sub).WithHandler(h, hd))
  {
    var t := s.WithSub(i, sub).WithHandler(h, hd);
    forall g | 0 <= g < |t.handlers| ensures HandlerOrder(t.handlers[g], g, t.subs) {
      assert HandlerOrder(s.handlers[g], g, s.subs);
      if g == h {
        SendOrder(s.handlers[h], h, s.subs, hd, i, sub, c);
      }
    }
  }

  lemma SendOrder(was: Handler, h: nat, subs: seq<Sub>, hd: Handler, i: nat, sub: Sub, c: Chunk)
    requires HandlerOrder(was, h, subs) && i < |subs| && subs[i].owner == h
    requires sub.owner == h && sub.stream == subs[i].stream && Shown(sub) == Shown(subs[i]) + [c]
    requires hd.sent == was.sent + [Data(sub.stream, c, i)]
    ensures HandlerOrder(hd, h, subs[i := sub])
  {
    forall j | 0 <= j < |subs| && subs[i := sub][j].owner == h ensures SentBy(hd.sent, j) == Shown(subs[i := sub][j]) {
      SentByAppend(was.sent, Data(sub.stream, c, i), j);
    }
  }

  lemma ReplayKeepsOrder(s: State, h: nat)
    requires Inv(s) && OrderInv(s) && h < |s.handlers| && s.handlers[h].pc.Replaying?
    ensures OrderInv(HandlerStep(s, h))
  {
    var hd := s.handlers[h];
    LinksFrom(s, h);
    var i := hd.Slot(hd.pc.stream).value;
    if Writable(hd, s.subs[i].replay) {
      ReplayShown(s, h, i);
      var hd' := HandlerStep(s, h).handlers[h];
      SendKeepsOrder(s, h, hd', i, s.subs[i].(replayed := true), s.subs[i].replay);
    } else {
      HandlerSame(s, h, hd.(pc := LeavingDetach(Out)));
      SameKeepsOrder(s, HandlerStep(s, h));
    }
  }

  lemma ReplayShown(s: State, h: nat, i: nat)
    requires Inv(s) && h < |s.handlers| && s.handlers[h].pc.Replaying?
    requires i < |s.subs| && s.handlers[h].Slot(s.handlers[h].pc.stream) == Some(i)
    ensures s.subs[i].owner == h && s.subs[i].stream == s.handlers[h].pc.stream
    ensures Shown(s.subs[i].(replayed := true)) == Shown(s.subs[i]) + [s.subs[i].replay]
  {
    assert SlotLinked(s, h, s.handlers[h].pc.stream);
    assert PumpOk(s.subs[i]);
  }

  lemma EmitKeepsOrder(s: State, i: nat)
    requires Inv(s) && OrderInv(s) && Enabled(s, Emit(i))
    ensures OrderInv(EmitStep(s, i))
  {
    var was := s.subs[i];
    var hd := s.handlers[was.owner];
    if Writable(hd, was.pump.chunk) {
      EmitShows(s, i);
      var sub := was.(pump := Waiting, emitted := was.emitted + 1);
      SendKeepsOrder(s, was.owner, Emitted(s, i).handlers[was.owner], i, sub, was.pump.chunk);
    } else {
      StopSame(s, i);
      SameKeepsOrder(s, EmitStep(s, i));
    }
  }

  /** No frame names a subscription that does not exist yet. */
  lemma {:induction false} NothingSentYet(sent: seq<Frame>, h: nat, subs: seq<Sub>)
    requires forall k :: 0 <= k < |sent| ==> SentFor(sent[k], h, subs)
    ensures SentBy(sent, |subs|) == []
    decreases |sent|
  {
    if sent != [] {
      NothingSentYet(sent[..|sent| - 1], h, subs);
      assert SentFor(sent[|sent| - 1], h, subs);
    }
  }

  lemma SnapshotKeepsOrder(s: State, h: nat)
    requires WellFormed(s) && OrderInv(s) && h < |s.handlers| && s.handlers[h].pc.Snapshotting?
    ensures OrderInv(HandlerStep(s, h))
  {
    var t := HandlerStep(s, h);
    var sub := t.subs[|s.subs|];
    assert t.subs == s.subs + [sub] && Shown(sub) == [];
    forall g | 0 <= g < |t.handlers| ensures HandlerOrder(t.handlers[g], g, t.subs) {
      assert HandlerOrder(s.handlers[g], g, s.subs) && t.handlers[g].sent == s.handlers[g].sent;
      OneMoreSub(s.handlers[g], g, s.subs, sub, t.handlers[g]);
    }
  }

  lemma OneMoreSub(was: Handler, g: nat, subs: seq<Sub>, sub: Sub, hd: Handler)
    requires HandlerOrder(was, g, subs) && Shown(sub) == [] && hd.sent == was.sent
    ensures HandlerOrder(hd, g, subs + [sub])
  {
    NothingSentYet(was.sent, g, subs);
    forall k | 0 <= k < |hd.sent| ensures SentFor(hd.sent[k], g, subs + [sub]) {
      assert SentFor(was.sent[k], g, subs);
    }
  }

  lemma AcceptKeepsOrder(s: State)
    requires WellFormed(s) && OrderInv(s)
    ensures OrderInv(Apply(s, Accept))
  {
    var t := Apply(s, Accept);
    forall h | 0 <= h < |t.handlers| ensures HandlerOrder(t.handlers[h], h, t.subs) {
      assert h < |s.handlers| ==> HandlerOrder(s.handlers[h], h, s.subs);
    }
  }

  // ------------------------------------------------ every step, every run

  lemma StepKeepsOrder(s: State, h: nat)
    requires Inv(s) && OrderInv(s) && Enabled(s, Step(h))
    ensures OrderInv(HandlerStep(s, h))
  {
    LinksFrom(s, h);
    match s.handlers[h].pc
    case Snapshotting(_, _) => SnapshotKeepsOrder(s, h);
    case Replaying(_) => ReplayKeepsOrder(s, h);
    case _ =>
      StepSame(s, h);
      SameKeepsOrder(s, HandlerStep(s, h));
  }

  lemma StepSame(s: State, h: nat)
    requires WellFormed(s) && Enabled(s, Step(h)) && HandlerFormed(s.handlers[h], |s.subs|)
    requires !s.handlers[h].pc.Snapshotting? && !s.handlers[h].pc.Replaying?
    ensures SameShown(s, HandlerStep(s, h))
  {
    match s.handlers[h].pc
    case Starting => QuietSame(s, h);
    case Replying => QuietSame(s, h);
    case Typing => QuietSame(s, h);
    case LeavingConn => QuietSame(s, h);
    case Launching(_) => LaunchSame(s, h);
    case Detaching(_, _) => DetachSame(s, h);
    case LeavingDetach(_) => DetachSame(s, h);
    case Closing(_, _) => CloseSame(s, h);
    case LeavingClose(_) => CloseSame(s, h);
  }

  lemma ActionSame(s: State, a: Action)
    requires Inv(s) && Enabled(s, a) && !a.Accept? && !a.Step? && !a.Emit?
    ensures SameShown(s, Apply(s, a))
  {
    match a
    case Write(st, p) => WriteSame(s, st, p);
    case Receive(_, _) => ConnSame(s, a);
    case ReadError(_) => ConnSame(s, a);
    case PeerLeaves(_) => ConnSame(s, a);
    case Disconnect(_) => ConnSame(s, a);
    case Dequeue(_) => ChannelSame(s, a);
    case Quit(_) => ChannelSame(s, a);
  }

  lemma ApplyKeepsOrder(s: State, a: Action)
    requires Inv(s) && OrderInv(s) && Enabled(s, a)
    ensures OrderInv(Apply(s, a))
  {
    match a
    case Accept => AcceptKeepsOrder(s);
    case Step(h) => StepKeepsOrder(s, h);
    case Emit(i) => EmitKeepsOrder(s, i);
    case _ =>
      ActionSame(s, a);
      SameKeepsOrder(s, Apply(s, a));
  }

  lemma {:induction false} RunKeepsOrder(s: State, actions: seq<Action>, t: State)
    requires Inv(s) && OrderInv(s) && Runs(s, actions, t)
    ensures OrderInv(t)
    decreases |actions|
  {
    if actions != [] {
      ApplyKeeps(s, actions[0]);
      ApplyKeepsOrder(s, actions[0]);
      RunKeepsOrder(Apply(s, actions[0]), actions[1..], t);
    }
  }

  /** However often a connection attached: each of its ring frames was sent for one of its
      own subscriptions to that stream, and those of one subscription, taken by
      themselves, are its replay and the chunks it has emitted, in order. */
  lemma FramesAreMerged(t: State, h: nat, k: nat, i: nat)
    requires Reachable(t) && h < |t.handlers|
    ensures k < |t.handlers[h].sent| ==> SentFor(t.handlers[h].sent[k], h, t.subs)
    ensures i < |t.subs| && t.subs[i].owner == h ==> SentBy(t.handlers[h].sent, i) == Shown(t.subs[i])
  {
    var s, actions :| Init(s) && Runs(s, actions, t);
    InitInv(s);
    RunKeepsOrder(s, actions, t);
    assert HandlerOrder(t.handlers[h], h, t.subs);
  }

  /** So the frames of each ATTACH by themselves are true to it: ascending, never
      overlapping, and without loss exactly the history from where the replay began. */
  lemma EachAttachAscends(s: State, i: nat, j: nat, k: nat)
    requires Reachable(s) && i < |s.subs| && s.subs[i].owner < |s.handlers|
    requires j < k < |SentBy(s.handlers[s.subs[i].owner].sent, i)|
    ensures var cs := SentBy(s.handlers[s.subs[i].owner].sent, i);
            cs[0] == s.subs[i].replay && cs[j].End() <= cs[k].offset && cs[k].data != []
  {
    ReachableInv(s);
    FramesAreMerged(s, s.subs[i].owner, 0, i);
    var sub := s.subs[i];
    assert LogOk(sub, s.History(sub.stream)) && PumpOk(sub);
    ShownAscends(sub.replay, sub.log, sub.emitted, j, k);
  }

  lemma EachAttachIsExact(s: State, i: nat)
    requires Reachable(s) && i < |s.subs| && s.subs[i].owner < |s.handlers| && s.subs[i].lost == 0
    ensures var cs := SentBy(s.handlers[s.subs[i].owner].sent, i);
            cs != [] ==>
              var start, end := cs[0].offset, cs[|cs| - 1].End();
              start <= end <= |s.History(s.subs[i].stream)| && Joined(cs) == s.History(s.subs[i].stream)[start..end]
  {
    ReachableInv(s);
    FramesAreMerged(s, s.subs[i].owner, 0, i);
    var sub := s.subs[i];
    assert LogOk(sub, s.History(sub.stream)) && PumpOk(sub);
    ShownIsExact(sub, s.History(sub.stream));
  }
}
