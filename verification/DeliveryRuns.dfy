/** What a run of the delivery actions adds to: histories only grow, subscriptions keep
    their owner, the offset they asked for and the replay they were given. */
module DeliveryRuns {
  import opened Bytes
  import opened Ring
  import opened Delivery
  import S = DeliverySafety

  /** Subscription `j` keeps all that was settled when it was registered. */
  predicate SameTicket(a: Sub, b: Sub) {
    b.owner == a.owner && b.stream == a.stream && b.asked == a.asked && b.replay == a.replay
  }

  ghost predicate SubsGrow(s: State, t: State) {
    && |s.subs| <= |t.subs|
    && (forall i :: 0 <= i < |s.subs| ==> SameTicket(s.subs[i], t.subs[i]))
    && (forall i :: |s.subs| <= i < |t.subs| ==> |s.History(t.subs[i].stream)| <= t.subs[i].replay.End())
  }

  ghost predicate Grows(s: State, t: State) {
    && t.capacity == s.capacity && s.out <= t.out && s.err <= t.err
    && |s.handlers| <= |t.handlers|
    && SubsGrow(s, t)
  }

  /** The replay is the one the ring gave at that moment for the offset asked for. */
  ghost predicate Ticket(capacity: nat, history: seq<byte>, sub: Sub) {
    && sub.replay.End() <= |history|
    && sub.replay == Replay(capacity, history[..sub.replay.End()], sub.asked)
  }

  ghost predicate AllTickets(s: State) {
    forall i :: 0 <= i < |s.subs| ==> Ticket(s.capacity, s.History(s.subs[i].stream), s.subs[i])
  }

  /** A handler that has taken a subscription for a stream owns one. */
  ghost predicate Owns(s: State, h: nat, st: Stream) {
    exists i :: 0 <= i < |s.subs| && s.subs[i].owner == h && s.subs[i].stream == st
  }

  ghost predicate AllOwned(s: State) {
    forall h, st :: 0 <= h < |s.handlers| && s.handlers[h].Taken(st) >= 1 ==> Owns(s, h, st)
  }

  // ------------------------------------------------ one action

  predicate SameSubs(a: seq<Sub>, b: seq<Sub>) {
    |a| == |b| && forall i :: 0 <= i < |a| ==> SameTicket(a[i], b[i])
  }

  lemma WriteGrows(s: State, st: Stream, p: seq<byte>)
    ensures var t := RingWrite(s, st, p);
            && Grows(s, t) && SameSubs(s.subs, t.subs) && t.handlers == s.handlers
  {
    match st
    case Out =>
    case Err =>
  }

  lemma SnapshotGrows(s: State, h: nat)
    requires WellFormed(s) && Enabled(s, Step(h)) && s.handlers[h].pc.Snapshotting?
    ensures Grows(s, HandlerStep(s, h))
    ensures AllTickets(s) ==> AllTickets(HandlerStep(s, h))
    ensures AllOwned(s) ==> AllOwned(HandlerStep(s, h))
  {
    var t := HandlerStep(s, h);
    var n := |s.subs|;
    var st := s.handlers[h].pc.stream;
    assert s.History(st)[..|s.History(st)|] == s.History(st);
    assert t.subs[n].owner == h && t.subs[n].stream == st;
    if AllOwned(s) {
      forall g, str | 0 <= g < |t.handlers| && t.handlers[g].Taken(str) >= 1 ensures Owns(t, g, str) {
        if g == h && str == st {
          assert t.subs[n].owner == g;
        } else {
          assert Owns(s, g, str);
          var i :| 0 <= i < |s.subs| && s.subs[i].owner == g && s.subs[i].stream == str;
          assert t.subs[i] == s.subs[i];
        }
      }
    }
  }

  /** Every other action leaves histories and tickets as they are. */
  ghost predicate Still(s: State, t: State) {
    && t.capacity == s.capacity && t.out == s.out && t.err == s.err
    && SameSubs(s.subs, t.subs)
    && (forall i :: 0 <= i < |s.subs| ==> t.subs[i].log == s.subs[i].log)
    && |s.handlers| <= |t.handlers|
    && (forall h :: 0 <= h < |s.handlers| ==>
          t.handlers[h].outs == s.handlers[h].outs && t.handlers[h].errs == s.handlers[h].errs)
    && (forall h :: |s.handlers| <= h < |t.handlers| ==> t.handlers[h].outs == 0 && t.handlers[h].errs == 0)
  }

  lemma HandlerStill(s: State, h: nat, hd: Handler)
    requires h < |s.handlers| && hd.outs == s.handlers[h].outs && hd.errs == s.handlers[h].errs
    ensures Still(s, s.WithHandler(h, hd))
  {
  }

  lemma BothStill(s: State, i: nat, sub: Sub, h: nat, hd: Handler)
    requires i < |s.subs| && SameTicket(s.subs[i], sub) && sub.log == s.subs[i].log
    requires h < |s.handlers| && hd.outs == s.handlers[h].outs && hd.errs == s.handlers[h].errs
    ensures Still(s, s.WithSub(i, sub).WithHandler(h, hd))
  {
  }

  lemma UnsubscribeStill(s: State, h: nat)
    requires WellFormed(s) && h < |s.handlers|
    requires var pc := s.handlers[h].pc; pc.Detaching? || pc.Closing? || pc.LeavingDetach? || pc.LeavingClose?
    ensures Still(s, HandlerStep(s, h))
  {
    var hd := s.handlers[h];
    assert HandlerFormed(hd, |s.subs|);
    var t := HandlerStep(s, h);
    var slot := hd.Slot(hd.pc.stream);
    if slot.None? {
      HandlerStill(s, h, t.handlers[h]);
    } else {
      BothStill(s, slot.value, t.subs[slot.value], h, t.handlers[h]);
    }
  }

  lemma AttachStill(s: State, h: nat)
    requires WellFormed(s) && h < |s.handlers| && (s.handlers[h].pc.Replaying? || s.handlers[h].pc.Launching?)
    ensures Still(s, HandlerStep(s, h))
  {
    var hd := s.handlers[h];
    assert HandlerFormed(hd, |s.subs|);
    var t := HandlerStep(s, h);
    var i := hd.Slot(hd.pc.stream).value;
    assert s.WithSub(i, s.subs[i]) == s;
    BothStill(s, i, t.subs[i], h, t.handlers[h]);
  }

  lemma QuietStill(s: State, h: nat)
    requires WellFormed(s) && h < |s.handlers|
    requires var pc := s.handlers[h].pc; pc == Starting || pc == Replying || pc == Typing || pc == LeavingConn
    ensures Still(s, HandlerStep(s, h))
  {
    HandlerStill(s, h, HandlerStep(s, h).handlers[h]);
  }

  lemma StepStill(s: State, h: nat)
    requires WellFormed(s) && Enabled(s, Step(h)) && !s.handlers[h].pc.Snapshotting?
    ensures Still(s, HandlerStep(s, h))
  {
    match s.handlers[h].pc
    case Starting => QuietStill(s, h);
    case Replying => QuietStill(s, h);
    case Typing => QuietStill(s, h);
    case LeavingConn => QuietStill(s, h);
    case Replaying(_) => AttachStill(s, h);
    case Launching(_) => AttachStill(s, h);
    case _ => UnsubscribeStill(s, h);
  }

  lemma OtherStill(s: State, a: Action)
    requires WellFormed(s) && Enabled(s, a) && !a.Write? && !a.Step?
    ensures Still(s, Apply(s, a))
  {
    match a
    case Receive(h, msg) => HandlerStill(s, h, Dispatch(s.handlers[h], msg));
    case ReadError(h) => HandlerStill(s, h, s.handlers[h].(pc := LeavingDetach(Out)));
    case PeerLeaves(h) => HandlerStill(s, h, Left(s.handlers[h]));
    case Disconnect(h) => HandlerStill(s, h, s.handlers[h].(link := Closed));
    case _ => PumpStill(s, a);
  }

  lemma PumpStill(s: State, a: Action)
    requires WellFormed(s) && Enabled(s, a) && (a.Accept? || a.Dequeue? || a.Emit? || a.Quit?)
    ensures Still(s, Apply(s, a))
  {
  }

  lemma StillKeeps(s: State, t: State)
    requires Still(s, t)
    ensures Grows(s, t)
    ensures AllTickets(s) ==> AllTickets(t)
    ensures AllOwned(s) ==> AllOwned(t)
  {
    if AllOwned(s) {
      forall h, st | 0 <= h < |t.handlers| && t.handlers[h].Taken(st) >= 1 ensures Owns(t, h, st) {
        assert Owns(s, h, st);
        var i :| 0 <= i < |s.subs| && s.subs[i].owner == h && s.subs[i].stream == st;
        assert SameTicket(s.subs[i], t.subs[i]);
      }
    }
  }

  lemma TicketGrows(capacity: nat, history: seq<byte>, p: seq<byte>, a: Sub, b: Sub)
    requires Ticket(capacity, history, a) && SameTicket(a, b)
    ensures Ticket(capacity, history + p, b)
  {
    assert (history + p)[..a.replay.End()] == history[..a.replay.End()];
  }

  lemma WriteKeeps(s: State, st: Stream, p: seq<byte>)
    ensures AllTickets(s) ==> AllTickets(RingWrite(s, st, p))
    ensures AllOwned(s) ==> AllOwned(RingWrite(s, st, p))
  {
    var t := RingWrite(s, st, p);
    WriteGrows(s, st, p);
    if AllTickets(s) {
      forall i | 0 <= i < |t.subs| ensures Ticket(t.capacity, t.History(t.subs[i].stream), t.subs[i]) {
        assert SameTicket(s.subs[i], t.subs[i]);
        if t.subs[i].stream == st {
          TicketGrows(s.capacity, s.History(st), p, s.subs[i], t.subs[i]);
        }
      }
    }
    if AllOwned(s) {
      forall h, str | 0 <= h < |t.handlers| && t.handlers[h].Taken(str) >= 1 ensures Owns(t, h, str) {
        assert Owns(s, h, str);
        var i :| 0 <= i < |s.subs| && s.subs[i].owner == h && s.subs[i].stream == str;
        assert SameTicket(s.subs[i], t.subs[i]);
      }
    }
  }

  lemma StepGrows(s: State, a: Action)
    requires WellFormed(s) && Enabled(s, a)
    ensures Grows(s, Apply(s, a))
    ensures AllTickets(s) ==> AllTickets(Apply(s, a))
    ensures AllOwned(s) ==> AllOwned(Apply(s, a))
  {
    match a
    case Write(st, p) =>
      WriteGrows(s, st, p);
      WriteKeeps(s, st, p);
    case Step(h) =>
      if s.handlers[h].pc.Snapshotting? {
        SnapshotGrows(s, h);
      } else {
        StepStill(s, h);
        StillKeeps(s, HandlerStep(s, h));
      }
    case _ =>
      OtherStill(s, a);
      StillKeeps(s, Apply(s, a));
  }

  // ------------------------------------------------ how large chunks are

  ghost predicate AllWithin(log: seq<Chunk>, limit: nat) {
    forall k :: 0 <= k < |log| ==> |log[k].data| <= limit
  }

  /** No chunk a subscription was ever given is larger than `limit`. */
  ghost predicate LogsWithin(s: State, limit: nat) {
    forall i :: 0 <= i < |s.subs| ==> AllWithin(s.subs[i].log, limit)
  }

  lemma StepWithin(s: State, a: Action, limit: nat)
    requires WellFormed(s) && Enabled(s, a) && LogsWithin(s, limit)
    requires a.Write? ==> |a.bytes| <= limit
    ensures LogsWithin(Apply(s, a), limit)
  {
    match a
    case Write(st, p) =>
    case Step(h) =>
      if !s.handlers[h].pc.Snapshotting? {
        StepStill(s, h);
      }
    case _ => OtherStill(s, a);
  }

  // ------------------------------------------------ runs

  lemma GrowsTrans(s: State, t: State, u: State)
    requires Grows(s, t) && Grows(t, u)
    ensures Grows(s, u)
  {
    forall i | |s.subs| <= i < |u.subs| ensures |s.History(u.subs[i].stream)| <= u.subs[i].replay.End() {
      assert i < |t.subs| ==> SameTicket(t.subs[i], u.subs[i]);
    }
  }

  lemma {:induction false} RunGrows(s: State, actions: seq<Action>, t: State)
    requires Runs(s, actions, t)
    ensures Grows(s, t)
    ensures AllTickets(s) ==> AllTickets(t)
    ensures AllOwned(s) ==> AllOwned(t)
    decreases |actions|
  {
    if actions != [] {
      var u := Apply(s, actions[0]);
      StepGrows(s, actions[0]);
      RunGrows(u, actions[1..], t);
      GrowsTrans(s, u, t);
    }
  }

  /** In every reachable state each replay is what the ring held for the offset asked
      for at the moment of the ATTACH. */
  lemma ReachableTickets(t: State)
    requires S.Reachable(t)
    ensures AllTickets(t) && AllOwned(t)
  {
    var s, actions :| Init(s) && Runs(s, actions, t);
    RunGrows(s, actions, t);
  }

  lemma {:induction false} RunsOn(s: State, first: seq<Action>, t: State, second: seq<Action>, u: State)
    requires Runs(s, first, t) && Runs(t, second, u)
    ensures Runs(s, first + second, u)
    decreases |first|
  {
    if first == [] {
      assert first + second == second;
    } else {
      RunsOn(Apply(s, first[0]), first[1..], t, second, u);
      assert (first + second)[1..] == first[1..] + second;
    }
  }

  lemma ReachableOn(t: State, actions: seq<Action>, u: State)
    requires S.Reachable(t) && Runs(t, actions, u)
    ensures S.Reachable(u)
  {
    var s, first :| Init(s) && Runs(s, first, t);
    RunsOn(s, first, t, actions, u);
  }
}
