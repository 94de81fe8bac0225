/** What the delivery invariants mean for a client: in every reachable state of
    every interleaving. */
module DeliveryTheorems {
  import opened Bytes
  import opened Options
  import opened Ring
  import opened Delivery
  import opened DeliverySafety
  import Protocol

  /** Every ring frame ever written to any connection carries true history. */
  lemma FramesAreTrue(s: State, h: nat, k: nat)
    requires Reachable(s) && h < |s.handlers| && k < |s.handlers[h].sent| && s.handlers[h].sent[k].Data?
    ensures var f := s.handlers[h].sent[k];
            && f.chunk.End() <= |s.History(f.stream)|
            && s.History(f.stream)[f.chunk.offset..f.chunk.End()] == f.chunk.data
            && |f.chunk.data| <= Protocol.MAX_DATA
  {
    ReachableInv(s);
    assert SentTrue(s, h);
  }

  lemma {:induction false} WithinReach(from: nat, log: seq<Chunk>, j: nat)
    requires Ascending(from, log) && j < |log|
    ensures from <= log[j].offset && log[j].End() <= Reach(from, log)
    decreases |log|
  {
    var n := |log| - 1;
    if j < n {
      WithinReach(from, log[..n], j);
    } else {
      AscendingReach(from, log[..n]);
    }
  }

  /** Seen from the client: each live chunk begins at or after the end of
      everything sent before it. */
  lemma {:induction false} AscendingPairs(from: nat, log: seq<Chunk>, j: nat, k: nat)
    requires Ascending(from, log) && j < k < |log|
    ensures from <= log[j].offset && log[j].End() <= log[k].offset
    decreases |log|
  {
    var n := |log| - 1;
    if k < n {
      AscendingPairs(from, log[..n], j, k);
    } else {
      WithinReach(from, log[..n], j);
    }
  }

  lemma {:induction false} AscendingReach(from: nat, log: seq<Chunk>)
    requires Ascending(from, log)
    ensures from <= Reach(from, log)
    decreases |log|
  {
    if log != [] {
      AscendingReach(from, log[..|log| - 1]);
    }
  }

  lemma {:induction false} TotalMonotone(log: seq<Chunk>, n: nat)
    requires n <= |log|
    ensures TotalBytes(log[..n]) <= TotalBytes(log)
    decreases |log|
  {
    if n == |log| {
      assert log[..n] == log;
    } else {
      TotalMonotone(log[..|log| - 1], n);
      assert log[..|log| - 1][..n] == log[..n];
    }
  }

  lemma {:induction false} ContiguousJoins(replay: Chunk, log: seq<Chunk>, history: seq<byte>)
    requires replay.TrueIn(history) && AllTrue(log, history)
    requires Contiguous(replay.End(), log)
    ensures var reach := Reach(replay.End(), log);
            && replay.offset <= reach <= |history|
            && Joined([replay] + log) == history[replay.offset..reach]
    decreases |log|
  {
    var all := [replay] + log;
    if log == [] {
      assert all[..0] == [];
    } else {
      var n := |log| - 1;
      ContiguousJoins(replay, log[..n], history);
      assert all[..n + 1] == [replay] + log[..n];
      var mid := Reach(replay.End(), log[..n]);
      assert history[replay.offset..mid] + history[mid..log[n].End()] == history[replay.offset..log[n].End()];
    }
  }

  lemma {:induction false} JoinedLength(replay: Chunk, log: seq<Chunk>)
    ensures |Joined([replay] + log)| == |replay.data| + TotalBytes(log)
    decreases |log|
  {
    var all := [replay] + log;
    if log == [] {
      assert all[..0] == [];
    } else {
      var n := |log| - 1;
      JoinedLength(replay, log[..n]);
      assert all[..n + 1] == [replay] + log[..n];
    }
  }

  lemma {:induction false} PrefixContiguous(from: nat, log: seq<Chunk>, n: nat)
    requires Contiguous(from, log) && n <= |log|
    ensures Contiguous(from, log[..n])
    decreases |log|
  {
    if n == |log| {
      assert log[..n] == log;
    } else {
      PrefixContiguous(from, log[..|log| - 1], n);
      assert log[..|log| - 1][..n] == log[..n];
    }
  }

  /** A connection that attached once: its ring frames are the replay followed by
      live chunks at strictly increasing offsets, none overlapping an earlier
      one, so that a gap always shows in the offsets. */
  lemma OneAttachAscends(s: State, i: nat, j: nat, k: nat)
    requires Reachable(s) && i < |s.subs|
    requires s.subs[i].owner < |s.handlers| && s.handlers[s.subs[i].owner].Taken(s.subs[i].stream) == 1
    requires var cs := Chunks(s.handlers[s.subs[i].owner].sent, s.subs[i].stream); j < k < |cs|
    ensures var cs := Chunks(s.handlers[s.subs[i].owner].sent, s.subs[i].stream);
            && cs[0] == s.subs[i].replay
            && cs[j].End() <= cs[k].offset
            && cs[k].data != []
  {
    ReachableInv(s);
    var sub := s.subs[i];
    assert LogOk(sub, s.History(sub.stream)) && PumpOk(sub);
    ShownAscends(sub.replay, sub.log, sub.emitted, j, k);
  }

  lemma ShownAscends(replay: Chunk, log: seq<Chunk>, n: nat, j: nat, k: nat)
    requires Ascending(replay.End(), log) && NoneEmpty(log) && j < k <= n <= |log|
    ensures var cs := [replay] + log[..n]; cs[j].End() <= cs[k].offset && cs[k].data != []
  {
    assert log[..n][k - 1] == log[k - 1];
    if j > 0 {
      AscendingPairs(replay.End(), log, j - 1, k - 1);
      assert log[..n][j - 1] == log[j - 1];
    } else {
      WithinReach(replay.End(), log, k - 1);
    }
  }

  lemma ShownIsExact(sub: Sub, history: seq<byte>)
    requires LogOk(sub, history) && PumpOk(sub) && sub.lost == 0
    ensures var cs := Shown(sub);
            cs != [] ==>
              var start, end := cs[0].offset, cs[|cs| - 1].End();
              start <= end <= |history| && Joined(cs) == history[start..end]
  {
    if sub.replayed {
      PrefixContiguous(sub.replay.End(), sub.log, sub.emitted);
      ContiguousJoins(sub.replay, sub.log[..sub.emitted], history);
    }
  }

  /** Until its channel overflows, the frames of a connection that attached once
      join up to exactly the history from the replay's start: no gap, no
      duplicate. */
  lemma OneAttachIsExact(s: State, i: nat)
    requires Reachable(s) && i < |s.subs|
    requires s.subs[i].owner < |s.handlers| && s.handlers[s.subs[i].owner].Taken(s.subs[i].stream) == 1
    requires s.subs[i].lost == 0
    ensures var cs := Chunks(s.handlers[s.subs[i].owner].sent, s.subs[i].stream);
            cs != [] ==>
              var start, end := cs[0].offset, cs[|cs| - 1].End();
              start <= end <= |s.History(s.subs[i].stream)| && Joined(cs) == s.History(s.subs[i].stream)[start..end]
  {
    ReachableInv(s);
    var sub := s.subs[i];
    assert LogOk(sub, s.History(sub.stream)) && PumpOk(sub);
    ShownIsExact(sub, s.History(sub.stream));
  }

  /** A live subscription with nothing left to send has delivered every byte from
      its replay's start on exactly when its channel never overflowed; otherwise
      it is short by precisely the lost bytes. */
  lemma CaughtUpIffNothingLost(s: State, i: nat)
    requires Reachable(s) && i < |s.subs|
    requires s.subs[i].owner < |s.handlers| && s.handlers[s.subs[i].owner].Taken(s.subs[i].stream) == 1
    requires s.subs[i].registered && s.subs[i].pump == Waiting && s.subs[i].queue == []
    ensures var cs := Chunks(s.handlers[s.subs[i].owner].sent, s.subs[i].stream);
            var history := s.History(s.subs[i].stream);
            && cs != [] && cs[0].offset <= |history|
            && |Joined(cs)| + s.subs[i].lost == |history| - cs[0].offset
            && (Joined(cs) == history[cs[0].offset..] <==> s.subs[i].lost == 0)
  {
    ReachableInv(s);
    var sub := s.subs[i];
    var history := s.History(sub.stream);
    assert LogOk(sub, history) && PumpOk(sub);
    assert sub.log[..sub.emitted] == sub.log;
    var cs := Chunks(s.handlers[sub.owner].sent, sub.stream);
    assert cs == [sub.replay] + sub.log;
    JoinedLength(sub.replay, sub.log);
    if sub.lost == 0 {
      ContiguousJoins(sub.replay, sub.log, history);
      assert history[cs[0].offset..] == history[cs[0].offset..|history|];
    }
  }

  /** ring.subs is exactly what the live handlers' local variables name, at most
      one per handler and stream; only a handler in the middle of Unsubscribe
      still names a subscription that has left the map. */
  lemma SubscriptionsAreOwned(s: State, i: nat)
    requires Reachable(s) && i < |s.subs|
    ensures s.subs[i].owner < |s.handlers|
    ensures var sub := s.subs[i];
            var hd := s.handlers[sub.owner];
            && (sub.registered <==> hd.Slot(sub.stream) == Some(i) && !Unsubscribing(hd.pc, sub.stream))
            && (forall j :: 0 <= j < |s.subs| && j != i
                            && s.subs[j].owner == sub.owner && s.subs[j].stream == sub.stream ==>
                  !(sub.registered && s.subs[j].registered))
  {
    ReachableInv(s);
    assert SubLinked(s, i);
    forall j | 0 <= j < |s.subs| && j != i && s.subs[j].owner == s.subs[i].owner && s.subs[j].stream == s.subs[i].stream
      ensures !(s.subs[i].registered && s.subs[j].registered)
    {
      assert SubLinked(s, j);
    }
  }

  /** Done is never closed twice; and when a handler is gone, each of its
      subscriptions has left the map and been closed exactly once. */
  lemma UnsubscribedExactlyOnce(s: State, i: nat)
    requires Reachable(s) && i < |s.subs|
    ensures s.subs[i].owner < |s.handlers|
    ensures s.subs[i].closes <= 1
    ensures s.handlers[s.subs[i].owner].pc == Gone ==> s.subs[i].closes == 1 && !s.subs[i].registered
  {
    ReachableInv(s);
    assert SubLinked(s, i);
    assert SlotLinked(s, s.subs[i].owner, s.subs[i].stream);
  }

  /** An ATTACH on an open connection is answered with a replay exactly when what
      the ring retains from there fits a frame; otherwise the handler leaves
      without having written anything. */
  lemma AttachAnswered(s: State, h: nat)
    requires Reachable(s) && h < |s.handlers| && s.handlers[h].pc.Snapshotting? && s.handlers[h].link == Up
    ensures WellFormed(s) && WellFormed(HandlerStep(s, h))
    ensures var pc := s.handlers[h].pc;
            var replay := Replay(s.capacity, s.History(pc.stream), pc.offset);
            var t := HandlerStep(HandlerStep(s, h), h);
            && |t.handlers| == |s.handlers|
            && t.handlers[h].sent == (if |replay.data| <= Protocol.MAX_DATA
                                      then s.handlers[h].sent + [Data(pc.stream, replay, |s.subs|)]
                                      else s.handlers[h].sent)
            && (t.handlers[h].pc == LeavingDetach(Out) <==> |replay.data| > Protocol.MAX_DATA)
  {
    ReachableInv(s);
    SnapshotFormed(s, h);
  }

  /** The ring sizes for which no ATTACH is ever turned away. */
  lemma EveryReplayFits(capacity: nat)
    ensures (forall history: seq<byte>, offset: int :: |Replay(capacity, history, offset).data| <= Protocol.MAX_DATA)
              <==> capacity <= Protocol.MAX_DATA
  {
    if capacity > Protocol.MAX_DATA {
      var history: seq<byte> := seq(capacity, _ => 0);
      assert |Replay(capacity, history, -1).data| == capacity;
    }
  }
}
