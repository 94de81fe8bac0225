/** What every interleaving of the delivery actions keeps. */
module DeliverySafety {
  import opened Bytes
  import opened Options
  import opened Ring
  import opened Delivery
  import Protocol

  // ------------------------------------------------ one subscription's data

  /** Where a run of chunks that follows a replay ending at `from` ends. */
  function Reach(from: nat, log: seq<Chunk>): nat {
    if log == [] then from else log[|log| - 1].End()
  }

  /** Each chunk begins no earlier than the run before it ends. */
  ghost predicate Ascending(from: nat, log: seq<Chunk>) {
    log == [] ||
    (Ascending(from, log[..|log| - 1]) && Reach(from, log[..|log| - 1]) <= log[|log| - 1].offset)
  }

  /** Each chunk begins exactly where the run before it ends. */
  ghost predicate Contiguous(from: nat, log: seq<Chunk>) {
    log == [] ||
    (Contiguous(from, log[..|log| - 1]) && Reach(from, log[..|log| - 1]) == log[|log| - 1].offset)
  }

  function TotalBytes(log: seq<Chunk>): nat {
    if log == [] then 0 else TotalBytes(log[..|log| - 1]) + |log[|log| - 1].data|
  }

  ghost predicate AllTrue(log: seq<Chunk>, history: seq<byte>) {
    forall k :: 0 <= k < |log| ==> log[k].TrueIn(history)
  }

  ghost predicate NoneEmpty(log: seq<Chunk>) {
    forall k :: 0 <= k < |log| ==> log[k].data != []
  }

  /** The log is true, ascending and, until something is lost, gapless; replay,
      log and losses together account for every byte since the subscription. */
  ghost predicate LogOk(sub: Sub, history: seq<byte>) {
    && sub.replay.TrueIn(history)
    && AllTrue(sub.log, history)
    && NoneEmpty(sub.log)
    && Ascending(sub.replay.End(), sub.log)
    && (sub.lost == 0 ==> Contiguous(sub.replay.End(), sub.log))
    && Reach(sub.replay.End(), sub.log) <= |history|
    && (sub.registered ==> sub.replay.End() + TotalBytes(sub.log) + sub.lost == |history|)
    && (sub.registered && sub.lost == 0 ==> Reach(sub.replay.End(), sub.log) == |history|)
  }

  /** Channel and pump hold exactly the part of the log not yet sent, in order. */
  ghost predicate PumpOk(sub: Sub) {
    && sub.emitted <= |sub.log|
    && match sub.pump {
         case NotStarted => sub.emitted == 0 && sub.queue == sub.log
         case Waiting => sub.replayed && sub.queue == sub.log[sub.emitted..]
         case Holding(c) =>
           && sub.replayed && sub.emitted < |sub.log|
           && c == sub.log[sub.emitted] && sub.queue == sub.log[sub.emitted + 1..]
         case Stopped => sub.replayed
       }
  }

  lemma TrueGrows(c: Chunk, history: seq<byte>, p: seq<byte>)
    requires c.TrueIn(history)
    ensures c.TrueIn(history + p)
  {
    assert (history + p)[c.offset..c.End()] == history[c.offset..c.End()];
  }

  lemma AllTrueGrows(log: seq<Chunk>, history: seq<byte>, p: seq<byte>)
    requires AllTrue(log, history)
    ensures AllTrue(log, history + p)
  {
    forall k | 0 <= k < |log| ensures log[k].TrueIn(history + p) {
      TrueGrows(log[k], history, p);
    }
  }

  lemma LogGrows(sub: Sub, history: seq<byte>, p: seq<byte>)
    requires LogOk(sub, history)
    requires !sub.registered || p == []
    ensures LogOk(sub, history + p)
  {
    if p == [] {
      assert history + p == history;
    } else {
      TrueGrows(sub.replay, history, p);
      AllTrueGrows(sub.log, history, p);
    }
  }

  lemma LogOffered(sub: Sub, history: seq<byte>, p: seq<byte>)
    requires LogOk(sub, history) && sub.registered && p != []
    ensures LogOk(Offered(sub, Chunk(|history|, p)), history + p)
  {
    var c := Chunk(|history|, p);
    TrueGrows(sub.replay, history, p);
    AllTrueGrows(sub.log, history, p);
    if |sub.queue| < CHANNEL_SLOTS {
      assert c.TrueIn(history + p);
      LogAppend(sub.replay.End(), sub.log, c, history + p);
    }
  }

  lemma LogAppend(from: nat, log: seq<Chunk>, c: Chunk, history: seq<byte>)
    requires AllTrue(log, history) && NoneEmpty(log) && Ascending(from, log)
    requires c.data != [] && c.TrueIn(history) && c.End() == |history|
    requires Reach(from, log) <= c.offset
    ensures var longer := log + [c];
            && AllTrue(longer, history) && NoneEmpty(longer) && Ascending(from, longer)
            && Reach(from, longer) == |history|
            && TotalBytes(longer) == TotalBytes(log) + |c.data|
            && (Contiguous(from, log) && Reach(from, log) == c.offset ==> Contiguous(from, longer))
  {
    assert (log + [c])[..|log|] == log;
  }

  lemma PumpOffered(sub: Sub, c: Chunk)
    requires PumpOk(sub)
    ensures PumpOk(Offered(sub, c))
  {
  }

  ghost predicate DataInv(s: State) {
    forall i :: 0 <= i < |s.subs| ==>
      LogOk(s.subs[i], s.History(s.subs[i].stream)) && PumpOk(s.subs[i])
  }

  // ------------------------------------------------ who owns what

  /** The handler is inside Unsubscribe for this stream, past the map removal. */
  predicate Unsubscribing(pc: Pc, st: Stream) {
    (pc.Closing? || pc.LeavingClose?) && pc.stream == st
  }

  ghost predicate SubLinked(s: State, i: nat)
    requires i < |s.subs| && s.subs[i].owner < |s.handlers|
  {
    var sub := s.subs[i];
    var hd := s.handlers[sub.owner];
    && sub.closes <= 1
    && (sub.closes == 0 <==> hd.Slot(sub.stream) == Some(i))
    && (sub.registered <==> hd.Slot(sub.stream) == Some(i) && !Unsubscribing(hd.pc, sub.stream))
    && hd.Taken(sub.stream) >= 1
    && |sub.replay.data| <= s.capacity
  }

  ghost predicate SlotLinked(s: State, h: nat, st: Stream)
    requires h < |s.handlers|
  {
    var hd := s.handlers[h];
    && (hd.Slot(st).Some? ==>
          && hd.Slot(st).value < |s.subs|
          && s.subs[hd.Slot(st).value].owner == h && s.subs[hd.Slot(st).value].stream == st)
    && (hd.pc.Snapshotting? && hd.pc.stream == st ==> hd.Slot(st).None?)
    && (hd.pc.Replaying? && hd.pc.stream == st && hd.Slot(st).Some? ==>
          s.subs[hd.Slot(st).value].pump == NotStarted && !s.subs[hd.Slot(st).value].replayed)
    && (hd.pc.Launching? && hd.pc.stream == st && hd.Slot(st).Some? ==>
          s.subs[hd.Slot(st).value].pump == NotStarted && s.subs[hd.Slot(st).value].replayed)
    && (PastLeaving(hd.pc, st) ==> hd.Slot(st).None?)
    && (hd.pc == Starting ==> hd.Slot(st).None?)
    && (hd.pc == Gone ==> hd.link == Closed)
  }

  /** The deferred clean-up has dealt with this stream. */
  predicate PastLeaving(pc: Pc, st: Stream) {
    pc == Gone || pc == LeavingConn || (st == Out && (pc == LeavingDetach(Err) || pc == LeavingClose(Err)))
  }

  ghost predicate LinkInv(s: State)
    requires WellFormed(s)
  {
    && (forall i :: 0 <= i < |s.subs| ==> SubLinked(s, i))
    && (forall h, st :: 0 <= h < |s.handlers| ==> SlotLinked(s, h, st))
    && (forall i, j :: 0 <= i < j < |s.subs|
                       && s.subs[i].owner == s.subs[j].owner && s.subs[i].stream == s.subs[j].stream ==>
          s.handlers[s.subs[i].owner].Taken(s.subs[i].stream) >= 2)
  }

  // ------------------------------------------------ what a connection carries

  /** The ring chunks among the frames of one stream, in order. */
  function Chunks(sent: seq<Frame>, st: Stream): seq<Chunk> {
    if sent == [] then []
    else
      var f := sent[|sent| - 1];
      var init := Chunks(sent[..|sent| - 1], st);
      if f.Data? && f.stream == st then init + [f.chunk] else init
  }

  lemma ChunksAppend(sent: seq<Frame>, f: Frame, st: Stream)
    ensures Chunks(sent + [f], st) ==
            if f.Data? && f.stream == st then Chunks(sent, st) + [f.chunk] else Chunks(sent, st)
  {
    assert (sent + [f])[..|sent|] == sent;
  }

  /** What a subscription has put on its connection. */
  function Shown(sub: Sub): seq<Chunk> {
    if sub.replayed && sub.emitted <= |sub.log| then [sub.replay] + sub.log[..sub.emitted] else []
  }

  ghost predicate SentTrue(s: State, h: nat)
    requires h < |s.handlers|
  {
    forall k :: 0 <= k < |s.handlers[h].sent| && s.handlers[h].sent[k].Data? ==>
      && s.handlers[h].sent[k].chunk.TrueIn(s.History(s.handlers[h].sent[k].stream))
      && |s.handlers[h].sent[k].chunk.data| <= Protocol.MAX_DATA
  }

  ghost predicate SentInv(s: State)
    requires WellFormed(s)
  {
    && (forall h :: 0 <= h < |s.handlers| ==> SentTrue(s, h))
    && (forall h, st :: 0 <= h < |s.handlers| && s.handlers[h].Taken(st) == 0 ==> Chunks(s.handlers[h].sent, st) == [])
    && (forall i :: 0 <= i < |s.subs| && s.handlers[s.subs[i].owner].Taken(s.subs[i].stream) == 1 ==>
          Chunks(s.handlers[s.subs[i].owner].sent, s.subs[i].stream) == Shown(s.subs[i]))
  }

  ghost predicate Inv(s: State) {
    s.capacity > 0 && WellFormed(s) && LinkInv(s) && DataInv(s) && SentInv(s)
  }

  lemma InitInv(s: State)
    requires Init(s)
    ensures Inv(s)
  {
  }

  // ------------------------------------------------ ring writes

  lemma WriteKeepsFormed(s: State, st: Stream, p: seq<byte>)
    requires WellFormed(s)
    ensures WellFormed(RingWrite(s, st, p))
  {
    var t := RingWrite(s, st, p);
    forall h | 0 <= h < |t.handlers| ensures HandlerFormed(t.handlers[h], |t.subs|) {
      assert HandlerFormed(s.handlers[h], |s.subs|);
    }
  }

  lemma WriteKeepsData(s: State, st: Stream, p: seq<byte>)
    requires DataInv(s)
    ensures DataInv(RingWrite(s, st, p))
  {
    var t := RingWrite(s, st, p);
    forall i | 0 <= i < |t.subs|
      ensures LogOk(t.subs[i], t.History(t.subs[i].stream)) && PumpOk(t.subs[i])
    {
      var sub := s.subs[i];
      if sub.stream == st {
        if sub.registered && p != [] {
          LogOffered(sub, s.History(st), p);
          PumpOffered(sub, Chunk(|s.History(st)|, p));
        } else {
          LogGrows(sub, s.History(st), p);
        }
      }
    }
  }

  /** Nothing about ownership depends on what the channels hold. */
  lemma WriteKeepsLinks(s: State, st: Stream, p: seq<byte>)
    requires WellFormed(s) && LinkInv(s) && WellFormed(RingWrite(s, st, p))
    ensures LinkInv(RingWrite(s, st, p))
  {
    WriteKeepsOwners(s, st, p);
    WriteKeepsSlots(s, st, p);
    WriteKeepsDistinct(s, st, p);
  }

  lemma WriteKeepsOwners(s: State, st: Stream, p: seq<byte>)
    requires WellFormed(s) && LinkInv(s)
    ensures var t := RingWrite(s, st, p);
            forall i :: 0 <= i < |t.subs| ==> t.subs[i].owner < |t.handlers| && SubLinked(t, i)
  {
    var t := RingWrite(s, st, p);
    forall i | 0 <= i < |t.subs| ensures t.subs[i].owner < |t.handlers| && SubLinked(t, i) {
      assert SubLinked(s, i);
    }
  }

  lemma WriteKeepsDistinct(s: State, st: Stream, p: seq<byte>)
    requires WellFormed(s) && LinkInv(s)
    ensures var t := RingWrite(s, st, p);
            forall i, j :: 0 <= i < j < |t.subs|
                           && t.subs[i].owner == t.subs[j].owner && t.subs[i].stream == t.subs[j].stream ==>
              t.subs[i].owner < |t.handlers| && t.handlers[t.subs[i].owner].Taken(t.subs[i].stream) >= 2
  {
  }

  lemma WriteKeepsSlots(s: State, st: Stream, p: seq<byte>)
    requires WellFormed(s) && LinkInv(s)
    ensures var t := RingWrite(s, st, p);
            forall h, str :: 0 <= h < |t.handlers| ==> SlotLinked(t, h, str)
  {
    var t := RingWrite(s, st, p);
    forall h, str | 0 <= h < |t.handlers| ensures SlotLinked(t, h, str) {
      assert SlotLinked(s, h, str);
    }
  }

  lemma WriteKeepsSent(s: State, st: Stream, p: seq<byte>)
    requires WellFormed(s) && DataInv(s) && SentInv(s) && WellFormed(RingWrite(s, st, p))
    ensures SentInv(RingWrite(s, st, p))
  {
    var t := RingWrite(s, st, p);
    forall h | 0 <= h < |t.handlers| ensures SentTrue(t, h) {
      SentTrueGrows(s, st, p, h);
    }
    WriteKeepsShown(s, st, p);
  }

  lemma WriteKeepsShown(s: State, st: Stream, p: seq<byte>)
    requires DataInv(s)
    ensures var t := RingWrite(s, st, p);
            forall i :: 0 <= i < |t.subs| ==> Shown(t.subs[i]) == Shown(s.subs[i])
  {
    var t := RingWrite(s, st, p);
    forall i | 0 <= i < |t.subs| ensures Shown(t.subs[i]) == Shown(s.subs[i]) {
      ShownIgnoresChannel(s.subs[i], Chunk(|s.History(st)|, p));
    }
  }

  lemma ShownIgnoresChannel(sub: Sub, c: Chunk)
    requires PumpOk(sub)
    ensures Shown(Offered(sub, c)) == Shown(sub)
  {
  }

  lemma SentTrueGrows(s: State, st: Stream, p: seq<byte>, h: nat)
    requires h < |s.handlers| && SentTrue(s, h)
    ensures SentTrue(RingWrite(s, st, p), h)
  {
    var t := RingWrite(s, st, p);
    var sent := s.handlers[h].sent;
    forall k | 0 <= k < |sent| && sent[k].Data?
      ensures sent[k].chunk.TrueIn(t.History(sent[k].stream))
    {
      TrueGrows(sent[k].chunk, s.History(sent[k].stream), p);
    }
  }

  // ------------------------------------------------ one handler and its pumps

  /** `t` differs from `s` only in handler `h` and the subscriptions it owns. */
  ghost predicate OnlyHandler(s: State, t: State, h: nat) {
    && h < |s.handlers| == |t.handlers|
    && t == s.(handlers := t.handlers, subs := t.subs)
    && |t.subs| == |s.subs|
    && (forall g :: 0 <= g < |s.handlers| && g != h ==> t.handlers[g] == s.handlers[g])
    && (forall i :: 0 <= i < |s.subs| ==> t.subs[i].owner == s.subs[i].owner && t.subs[i].stream == s.subs[i].stream)
    && (forall i :: 0 <= i < |s.subs| && s.subs[i].owner != h ==> t.subs[i] == s.subs[i])
    && t.handlers[h].outs == s.handlers[h].outs && t.handlers[h].errs == s.handlers[h].errs
  }

  lemma FormedByHandler(s: State, t: State, h: nat)
    requires WellFormed(s) && OnlyHandler(s, t, h) && HandlerFormed(t.handlers[h], |t.subs|)
    ensures WellFormed(t)
  {
    forall g | 0 <= g < |t.handlers| ensures HandlerFormed(t.handlers[g], |t.subs|) {
      assert g != h ==> HandlerFormed(s.handlers[g], |s.subs|);
    }
  }

  lemma LinksByHandler(s: State, t: State, h: nat)
    requires WellFormed(s) && LinkInv(s) && OnlyHandler(s, t, h) && WellFormed(t)
    requires forall i :: 0 <= i < |t.subs| && t.subs[i].owner == h ==> SubLinked(t, i)
    requires SlotLinked(t, h, Out) && SlotLinked(t, h, Err)
    ensures LinkInv(t)
  {
    forall i | 0 <= i < |t.subs| ensures SubLinked(t, i) {
      assert SubLinked(s, i);
    }
    forall g, st | 0 <= g < |t.handlers| ensures SlotLinked(t, g, st) {
      if g != h {
        assert SlotLinked(s, g, st);
      } else {
        assert st == Out || st == Err;
      }
    }
  }

  lemma SentByHandler(s: State, t: State, h: nat)
    requires WellFormed(s) && SentInv(s) && OnlyHandler(s, t, h) && WellFormed(t)
    requires SentTrue(t, h)
    requires forall st :: t.handlers[h].Taken(st) == 0 ==> Chunks(t.handlers[h].sent, st) == []
    requires forall i :: 0 <= i < |t.subs| && t.subs[i].owner == h && t.handlers[h].Taken(t.subs[i].stream) == 1 ==>
               Chunks(t.handlers[h].sent, t.subs[i].stream) == Shown(t.subs[i])
    ensures SentInv(t)
  {
    forall g | 0 <= g < |t.handlers| ensures SentTrue(t, g) {
      assert g != h ==> SentTrue(s, g);
    }
  }

  /** Everything ownership asks about handler `h`. */
  ghost predicate LinksOf(t: State, h: nat)
    requires h < |t.handlers|
  {
    && HandlerFormed(t.handlers[h], |t.subs|)
    && (forall i :: 0 <= i < |t.subs| && t.subs[i].owner == h ==> SubLinked(t, i))
    && SlotLinked(t, h, Out) && SlotLinked(t, h, Err)
  }

  lemma LinksFrom(s: State, h: nat)
    requires WellFormed(s) && LinkInv(s) && h < |s.handlers|
    ensures LinksOf(s, h)
  {
  }

  lemma InvByHandler(s: State, t: State, h: nat)
    requires Inv(s) && OnlyHandler(s, t, h) && LinksOf(t, h)
    requires SentTrue(t, h)
    requires forall st :: t.handlers[h].Taken(st) == 0 ==> Chunks(t.handlers[h].sent, st) == []
    requires forall i :: 0 <= i < |t.subs| && t.subs[i].owner == h && t.handlers[h].Taken(t.subs[i].stream) == 1 ==>
               Chunks(t.handlers[h].sent, t.subs[i].stream) == Shown(t.subs[i])
    requires forall i :: 0 <= i < |t.subs| && t.subs[i].owner == h ==>
               LogOk(t.subs[i], s.History(t.subs[i].stream)) && PumpOk(t.subs[i])
    ensures Inv(t)
  {
    FormedByHandler(s, t, h);
    LinksByHandler(s, t, h);
    SentByHandler(s, t, h);
  }

  predicate Plain(pc: Pc) {
    !(pc.Closing? || pc.LeavingClose? || pc.Replaying? || pc.Launching? || pc.Starting?)
  }

  /** A move that touches no subscription and sends nothing but a reply. */
  lemma QuietMove(s: State, h: nat, hd: Handler)
    requires Inv(s) && h < |s.handlers|
    requires hd == s.handlers[h].(pc := hd.pc, link := hd.link, sent := hd.sent)
    requires hd.sent == s.handlers[h].sent || hd.sent == s.handlers[h].sent + [Reply]
    requires hd.pc == s.handlers[h].pc ||
             (Plain(hd.pc) && !s.handlers[h].pc.Closing? && !s.handlers[h].pc.LeavingClose?)
    requires hd.pc.Snapshotting? ==> hd.Slot(hd.pc.stream).None?
    requires forall st :: PastLeaving(hd.pc, st) ==> hd.Slot(st).None?
    requires hd.pc == Gone ==> hd.link == Closed
    ensures Inv(s.WithHandler(h, hd))
  {
    var was := s.handlers[h];
    var t := s.WithHandler(h, hd);
    QuietLinks(s, h, hd);
    assert SentTrue(s, h);
    assert SentTrue(t, h);
    ChunksAppend(was.sent, Reply, Out);
    ChunksAppend(was.sent, Reply, Err);
    forall st ensures Chunks(hd.sent, st) == Chunks(was.sent, st) {
      assert st == Out || st == Err;
    }
    InvByHandler(s, t, h);
  }

  lemma QuietLinks(s: State, h: nat, hd: Handler)
    requires WellFormed(s) && LinkInv(s) && h < |s.handlers|
    requires hd == s.handlers[h].(pc := hd.pc, link := hd.link, sent := hd.sent)
    requires hd.pc == s.handlers[h].pc ||
             (Plain(hd.pc) && !s.handlers[h].pc.Closing? && !s.handlers[h].pc.LeavingClose?)
    requires hd.pc.Snapshotting? ==> hd.Slot(hd.pc.stream).None?
    requires forall st :: PastLeaving(hd.pc, st) ==> hd.Slot(st).None?
    requires hd.pc == Gone ==> hd.link == Closed
    ensures LinksOf(s.WithHandler(h, hd), h)
  {
    LinksFrom(s, h);
    var t := s.WithHandler(h, hd);
    forall i | 0 <= i < |t.subs| && t.subs[i].owner == h ensures SubLinked(t, i) {
      assert SubLinked(s, i);
    }
  }

  /** A move that changes one of the handler's own subscriptions without sending. */
  lemma OwnSubMove(s: State, h: nat, hd: Handler, i: nat, sub: Sub)
    requires Inv(s) && h < |s.handlers| && i < |s.subs| && s.subs[i].owner == h
    requires hd == s.handlers[h].(pc := hd.pc, out := hd.out, err := hd.err)
    requires sub == s.subs[i].(registered := sub.registered, closes := sub.closes, pump := sub.pump)
    requires sub.registered ==> s.subs[i].registered
    requires PumpOk(sub)
    requires LinksOf(s.WithSub(i, sub).WithHandler(h, hd), h)
    ensures Inv(s.WithSub(i, sub).WithHandler(h, hd))
  {
    var t := s.WithSub(i, sub).WithHandler(h, hd);
    assert LogOk(s.subs[i], s.History(s.subs[i].stream));
    assert LogOk(sub, s.History(sub.stream));
    assert SentTrue(s, h);
    assert SentTrue(t, h);
    InvByHandler(s, t, h);
  }

  lemma UnregisterLinks(s: State, h: nat, st: Stream, pc: Pc)
    requires WellFormed(s) && LinkInv(s) && h < |s.handlers| && s.handlers[h].Slot(st).Some?
    requires Plain(s.handlers[h].pc) && (pc.Closing? || pc.LeavingClose?) && pc.stream == st
    requires PastLeaving(pc, Out) ==> s.handlers[h].out.None?
    ensures s.handlers[h].Slot(st).value < |s.subs| && s.subs[s.handlers[h].Slot(st).value].owner == h
    ensures LinksOf(Unregister(s, s.handlers[h].Slot(st).value).WithHandler(h, s.handlers[h].(pc := pc)), h)
  {
    LinksFrom(s, h);
    var i := s.handlers[h].Slot(st).value;
    var t := Unregister(s, i).WithHandler(h, s.handlers[h].(pc := pc));
    forall j | 0 <= j < |t.subs| && t.subs[j].owner == h ensures SubLinked(t, j) {
      assert SubLinked(s, j);
    }
  }

  /** First half of Unsubscribe, in an ATTACH or in the clean-up. */
  lemma UnregisterMove(s: State, h: nat, st: Stream, pc: Pc)
    requires Inv(s) && h < |s.handlers| && s.handlers[h].Slot(st).Some?
    requires Plain(s.handlers[h].pc) && (pc.Closing? || pc.LeavingClose?) && pc.stream == st
    requires PastLeaving(pc, Out) ==> s.handlers[h].out.None?
    ensures s.handlers[h].Slot(st).value < |s.subs|
    ensures Inv(Unregister(s, s.handlers[h].Slot(st).value).WithHandler(h, s.handlers[h].(pc := pc)))
  {
    UnregisterLinks(s, h, st, pc);
    var i := s.handlers[h].Slot(st).value;
    assert PumpOk(s.subs[i]);
    OwnSubMove(s, h, s.handlers[h].(pc := pc), i, s.subs[i].(registered := false));
  }

  lemma CloseLinks(s: State, h: nat, st: Stream, pc: Pc)
    requires WellFormed(s) && LinkInv(s) && h < |s.handlers| && s.handlers[h].Slot(st).Some?
    requires Unsubscribing(s.handlers[h].pc, st)
    requires Plain(pc) && (pc.Snapshotting? ==> pc.stream == st) && pc != Gone
    requires PastLeaving(pc, Out) ==> st == Out || s.handlers[h].out.None?
    requires PastLeaving(pc, Err) ==> st == Err || s.handlers[h].err.None?
    ensures s.handlers[h].Slot(st).value < |s.subs| && s.subs[s.handlers[h].Slot(st).value].owner == h
    ensures var hd := s.handlers[h].WithSlot(st, None).(pc := pc);
            LinksOf(CloseDone(s, s.handlers[h].Slot(st).value).WithHandler(h, hd), h)
  {
    LinksFrom(s, h);
    var i := s.handlers[h].Slot(st).value;
    var t := CloseDone(s, i).WithHandler(h, s.handlers[h].WithSlot(st, None).(pc := pc));
    forall j | 0 <= j < |t.subs| && t.subs[j].owner == h ensures SubLinked(t, j) {
      assert SubLinked(s, j);
    }
  }

  /** Second half: Done is closed, and the local variable no longer names it. */
  lemma CloseMove(s: State, h: nat, st: Stream, pc: Pc)
    requires Inv(s) && h < |s.handlers| && s.handlers[h].Slot(st).Some?
    requires Unsubscribing(s.handlers[h].pc, st)
    requires Plain(pc) && (pc.Snapshotting? ==> pc.stream == st) && pc != Gone
    requires PastLeaving(pc, Out) ==> st == Out || s.handlers[h].out.None?
    requires PastLeaving(pc, Err) ==> st == Err || s.handlers[h].err.None?
    ensures s.handlers[h].Slot(st).value < |s.subs|
    ensures Inv(CloseDone(s, s.handlers[h].Slot(st).value).WithHandler(h, s.handlers[h].WithSlot(st, None).(pc := pc)))
  {
    CloseLinks(s, h, st, pc);
    var i := s.handlers[h].Slot(st).value;
    assert PumpOk(s.subs[i]);
    var sub := s.subs[i].(closes := s.subs[i].closes + 1);
    var hd := s.handlers[h].WithSlot(st, None).(pc := pc);
    assert CloseDone(s, i) == s.WithSub(i, sub);
    OwnSubMove(s, h, hd, i, sub);
  }

  lemma LaunchLinks(s: State, h: nat, pc: Pc)
    requires WellFormed(s) && LinkInv(s) && h < |s.handlers| && s.handlers[h].pc.Launching?
    requires pc.Detaching? || pc.Reading?
    ensures HandlerFormed(s.handlers[h], |s.subs|)
    ensures var i := s.handlers[h].Slot(s.handlers[h].pc.stream).value;
            && s.subs[i].owner == h && s.subs[i].pump == NotStarted && s.subs[i].replayed
            && LinksOf(s.WithSub(i, s.subs[i].(pump := Waiting)).WithHandler(h, s.handlers[h].(pc := pc)), h)
  {
    LinksFrom(s, h);
    var i := s.handlers[h].Slot(s.handlers[h].pc.stream).value;
    var t := s.WithSub(i, s.subs[i].(pump := Waiting)).WithHandler(h, s.handlers[h].(pc := pc));
    forall j | 0 <= j < |t.subs| && t.subs[j].owner == h ensures SubLinked(t, j) {
      assert SubLinked(s, j);
    }
  }

  /** startPump. */
  lemma LaunchMove(s: State, h: nat, pc: Pc)
    requires Inv(s) && h < |s.handlers| && s.handlers[h].pc.Launching?
    requires pc.Detaching? || pc.Reading?
    ensures HandlerFormed(s.handlers[h], |s.subs|)
    ensures var i := s.handlers[h].Slot(s.handlers[h].pc.stream).value;
            Inv(s.WithSub(i, s.subs[i].(pump := Waiting)).WithHandler(h, s.handlers[h].(pc := pc)))
  {
    LaunchLinks(s, h, pc);
    var i := s.handlers[h].Slot(s.handlers[h].pc.stream).value;
    assert PumpOk(s.subs[i]);
    OwnSubMove(s, h, s.handlers[h].(pc := pc), i, s.subs[i].(pump := Waiting));
  }

  lemma PumpLinks(s: State, i: nat, sub: Sub)
    requires WellFormed(s) && LinkInv(s) && i < |s.subs|
    requires s.subs[i].pump != NotStarted && sub.pump != NotStarted
    requires sub == s.subs[i].(queue := sub.queue, pump := sub.pump, emitted := sub.emitted)
    ensures LinksOf(s.WithSub(i, sub), sub.owner)
  {
    LinksFrom(s, sub.owner);
    var t := s.WithSub(i, sub);
    forall j | 0 <= j < |t.subs| && t.subs[j].owner == sub.owner ensures SubLinked(t, j) {
      assert SubLinked(s, j);
    }
  }

  /** The pump takes a chunk from its channel, sees Done closed, or gives up. */
  lemma PumpMove(s: State, i: nat, sub: Sub)
    requires Inv(s) && i < |s.subs|
    requires s.subs[i].pump != NotStarted && sub.pump != NotStarted
    requires sub == s.subs[i].(queue := sub.queue, pump := sub.pump)
    requires PumpOk(sub)
    ensures Inv(s.WithSub(i, sub))
  {
    PumpLinks(s, i, sub);
    var t := s.WithSub(i, sub);
    assert LogOk(s.subs[i], s.History(sub.stream));
    assert LogOk(sub, s.History(sub.stream));
    assert SentTrue(s, sub.owner);
    assert SentTrue(t, sub.owner);
    InvByHandler(s, t, sub.owner);
  }

  // ------------------------------------------------ moves that send a chunk

  /** A subscription puts its next chunk on its connection. */
  lemma SendMove(s: State, h: nat, hd: Handler, i: nat, sub: Sub, c: Chunk)
    requires Inv(s) && h < |s.handlers| && i < |s.subs| && s.subs[i].owner == h
    requires hd == s.handlers[h].(pc := hd.pc, sent := s.handlers[h].sent + [Data(sub.stream, c, i)])
    requires sub == s.subs[i].(pump := sub.pump, replayed := sub.replayed, emitted := sub.emitted)
    requires PumpOk(sub) && c.TrueIn(s.History(sub.stream)) && |c.data| <= Protocol.MAX_DATA
    requires Shown(sub) == Shown(s.subs[i]) + [c]
    requires LinksOf(s.WithSub(i, sub).WithHandler(h, hd), h)
    ensures Inv(s.WithSub(i, sub).WithHandler(h, hd))
  {
    var t := s.WithSub(i, sub).WithHandler(h, hd);
    assert LogOk(s.subs[i], s.History(s.subs[i].stream));
    assert LogOk(sub, s.History(sub.stream));
    SentGrows(s, h, hd, i, sub, c);
    InvByHandler(s, t, h);
  }

  lemma SentStaysTrue(s: State, t: State, h: nat, st: Stream, c: Chunk, i: nat)
    requires h < |s.handlers| == |t.handlers| && SentTrue(s, h) && t.out == s.out && t.err == s.err
    requires t.handlers[h].sent == s.handlers[h].sent + [Data(st, c, i)]
    requires c.TrueIn(s.History(st)) && |c.data| <= Protocol.MAX_DATA
    ensures SentTrue(t, h)
  {
  }

  /** The chunk lengthens what its own stream has shown and leaves the other alone. */
  lemma ShownGrows(s: State, h: nat, hd: Handler, i: nat, sub: Sub, c: Chunk, j: nat)
    requires WellFormed(s) && LinkInv(s) && SentInv(s) && h < |s.handlers| && i < |s.subs| && s.subs[i].owner == h
    requires hd == s.handlers[h].(pc := hd.pc, sent := s.handlers[h].sent + [Data(sub.stream, c, i)])
    requires sub == s.subs[i].(pump := sub.pump, replayed := sub.replayed, emitted := sub.emitted)
    requires Shown(sub) == Shown(s.subs[i]) + [c]
    requires j < |s.subs| && s.subs[j].owner == h && hd.Taken(s.subs[j].stream) == 1
    ensures Chunks(hd.sent, s.subs[j].stream) == Shown(if j == i then sub else s.subs[j])
  {
    ChunksAppend(s.handlers[h].sent, Data(sub.stream, c, i), s.subs[j].stream);
    assert j == i || s.subs[j].stream != sub.stream;
  }

  lemma SentGrows(s: State, h: nat, hd: Handler, i: nat, sub: Sub, c: Chunk)
    requires WellFormed(s) && LinkInv(s) && SentInv(s) && h < |s.handlers| && i < |s.subs| && s.subs[i].owner == h
    requires hd == s.handlers[h].(pc := hd.pc, sent := s.handlers[h].sent + [Data(sub.stream, c, i)])
    requires sub == s.subs[i].(pump := sub.pump, replayed := sub.replayed, emitted := sub.emitted)
    requires c.TrueIn(s.History(sub.stream)) && |c.data| <= Protocol.MAX_DATA
    requires Shown(sub) == Shown(s.subs[i]) + [c]
    ensures var t := s.WithSub(i, sub).WithHandler(h, hd);
            && SentTrue(t, h)
            && (forall st :: t.handlers[h].Taken(st) == 0 ==> Chunks(t.handlers[h].sent, st) == [])
            && (forall j :: 0 <= j < |t.subs| && t.subs[j].owner == h && t.handlers[h].Taken(t.subs[j].stream) == 1 ==>
                  Chunks(t.handlers[h].sent, t.subs[j].stream) == Shown(t.subs[j]))
  {
    var t := s.WithSub(i, sub).WithHandler(h, hd);
    assert SubLinked(s, i);
    SentStaysTrue(s, t, h, sub.stream, c, i);
    forall st | t.handlers[h].Taken(st) == 0 ensures Chunks(t.handlers[h].sent, st) == [] {
      ChunksAppend(s.handlers[h].sent, Data(sub.stream, c, i), st);
    }
    forall j | 0 <= j < |t.subs| && t.subs[j].owner == h && t.handlers[h].Taken(t.subs[j].stream) == 1
      ensures Chunks(t.handlers[h].sent, t.subs[j].stream) == Shown(t.subs[j])
    {
      ShownGrows(s, h, hd, i, sub, c, j);
    }
  }

  lemma ReplayLinks(s: State, h: nat, hd: Handler)
    requires WellFormed(s) && LinkInv(s) && h < |s.handlers| && s.handlers[h].pc.Replaying?
    requires hd == s.handlers[h].(pc := Launching(s.handlers[h].pc.stream), sent := hd.sent)
    ensures HandlerFormed(s.handlers[h], |s.subs|)
    ensures var i := s.handlers[h].Slot(s.handlers[h].pc.stream).value;
            && s.subs[i].owner == h && s.subs[i].stream == s.handlers[h].pc.stream
            && s.subs[i].pump == NotStarted && !s.subs[i].replayed
            && LinksOf(s.WithSub(i, s.subs[i].(replayed := true)).WithHandler(h, hd), h)
  {
    LinksFrom(s, h);
    var i := s.handlers[h].Slot(s.handlers[h].pc.stream).value;
    var t := s.WithSub(i, s.subs[i].(replayed := true)).WithHandler(h, hd);
    forall j | 0 <= j < |t.subs| && t.subs[j].owner == h ensures SubLinked(t, j) {
      assert SubLinked(s, j);
    }
  }

  lemma ReplayMove(s: State, h: nat)
    requires Inv(s) && h < |s.handlers| && s.handlers[h].pc.Replaying?
    requires Writable(s.handlers[h], s.subs[s.handlers[h].Slot(s.handlers[h].pc.stream).value].replay)
    ensures var was := s.handlers[h];
            var i := was.Slot(was.pc.stream).value;
            var f := Data(was.pc.stream, s.subs[i].replay, i);
            var hd := was.(pc := Launching(was.pc.stream), sent := was.sent + [f]);
            Inv(s.WithSub(i, s.subs[i].(replayed := true)).WithHandler(h, hd))
  {
    var was := s.handlers[h];
    assert HandlerFormed(was, |s.subs|);
    var i := was.Slot(was.pc.stream).value;
    var hd := was.(pc := Launching(was.pc.stream), sent := was.sent + [Data(was.pc.stream, s.subs[i].replay, i)]);
    var sub := s.subs[i].(replayed := true);
    ReplayLinks(s, h, hd);
    assert PumpOk(s.subs[i]);
    assert LogOk(s.subs[i], s.History(s.subs[i].stream));
    assert Shown(sub) == Shown(s.subs[i]) + [sub.replay];
    SendMove(s, h, hd, i, sub, sub.replay);
  }

  lemma EmitLinks(s: State, i: nat, sub: Sub, hd: Handler)
    requires WellFormed(s) && LinkInv(s) && i < |s.subs|
    requires s.subs[i].pump.Holding? && sub == s.subs[i].(pump := Waiting, emitted := s.subs[i].emitted + 1)
    requires hd == s.handlers[sub.owner].(sent := hd.sent)
    ensures LinksOf(s.WithSub(i, sub).WithHandler(sub.owner, hd), sub.owner)
  {
    LinksFrom(s, sub.owner);
    var t := s.WithSub(i, sub).WithHandler(sub.owner, hd);
    forall j | 0 <= j < |t.subs| && t.subs[j].owner == sub.owner ensures SubLinked(t, j) {
      assert SubLinked(s, j);
    }
  }

  lemma EmitShows(s: State, i: nat)
    requires DataInv(s) && i < |s.subs| && s.subs[i].pump.Holding?
    ensures var was := s.subs[i];
            var sub := was.(pump := Waiting, emitted := was.emitted + 1);
            && PumpOk(sub) && Shown(sub) == Shown(was) + [was.pump.chunk]
            && was.pump.chunk.TrueIn(s.History(was.stream))
  {
    var was := s.subs[i];
    assert PumpOk(was) && LogOk(was, s.History(was.stream));
    assert was.log[..was.emitted + 1] == was.log[..was.emitted] + [was.pump.chunk];
  }

  lemma EmitSends(s: State, i: nat)
    requires Inv(s) && Enabled(s, Emit(i))
    requires Writable(s.handlers[s.subs[i].owner], s.subs[i].pump.chunk)
    ensures Inv(Emitted(s, i))
  {
    var was := s.subs[i];
    var hd := s.handlers[was.owner];
    var sub := was.(pump := Waiting, emitted := was.emitted + 1);
    var hd' := hd.(sent := hd.sent + [Data(was.stream, was.pump.chunk, i)]);
    assert Emitted(s, i) == s.WithSub(i, sub).WithHandler(was.owner, hd');
    EmitLinks(s, i, sub, hd');
    EmitShows(s, i);
    SendMove(s, was.owner, hd', i, sub, was.pump.chunk);
  }

  lemma EmitMove(s: State, i: nat)
    requires Inv(s) && Enabled(s, Emit(i))
    ensures Inv(EmitStep(s, i))
  {
    var was := s.subs[i];
    if Writable(s.handlers[was.owner], was.pump.chunk) {
      EmitSends(s, i);
    } else {
      assert PumpOk(was);
      PumpMove(s, i, was.(pump := Stopped));
    }
  }

  // ------------------------------------------------ moves that add something

  lemma SnapshotFormed(s: State, h: nat)
    requires WellFormed(s) && h < |s.handlers| && s.handlers[h].pc.Snapshotting?
    ensures WellFormed(HandlerStep(s, h))
  {
    var t := HandlerStep(s, h);
    forall g | 0 <= g < |t.handlers| ensures HandlerFormed(t.handlers[g], |t.subs|) {
      assert HandlerFormed(s.handlers[g], |s.subs|);
    }
  }

  lemma SnapshotLinks(s: State, h: nat)
    requires WellFormed(s) && LinkInv(s) && h < |s.handlers| && s.handlers[h].pc.Snapshotting?
    requires WellFormed(HandlerStep(s, h))
    ensures LinkInv(HandlerStep(s, h))
  {
    var t := HandlerStep(s, h);
    SnapshotSlots(s, h);
    assert SlotLinked(s, h, s.handlers[h].pc.stream);
    forall i | 0 <= i < |t.subs| ensures SubLinked(t, i) {
      assert i < |s.subs| ==> SubLinked(s, i);
    }
    SnapshotDistinct(s, h);
  }

  lemma SnapshotSlots(s: State, h: nat)
    requires WellFormed(s) && LinkInv(s) && h < |s.handlers| && s.handlers[h].pc.Snapshotting?
    ensures var t := HandlerStep(s, h);
            forall g, st :: 0 <= g < |t.handlers| ==> SlotLinked(t, g, st)
  {
    var t := HandlerStep(s, h);
    forall g, st | 0 <= g < |t.handlers| ensures SlotLinked(t, g, st) {
      assert SlotLinked(s, g, st);
    }
  }

  lemma SnapshotDistinct(s: State, h: nat)
    requires WellFormed(s) && LinkInv(s) && h < |s.handlers| && s.handlers[h].pc.Snapshotting?
    ensures var t := HandlerStep(s, h);
            forall i, j :: 0 <= i < j < |t.subs|
                           && t.subs[i].owner == t.subs[j].owner && t.subs[i].stream == t.subs[j].stream ==>
              t.subs[i].owner < |t.handlers| && t.handlers[t.subs[i].owner].Taken(t.subs[i].stream) >= 2
  {
    var t := HandlerStep(s, h);
    forall i, j | 0 <= i < j < |t.subs| && t.subs[i].owner == t.subs[j].owner && t.subs[i].stream == t.subs[j].stream
      ensures t.subs[i].owner < |t.handlers| && t.handlers[t.subs[i].owner].Taken(t.subs[i].stream) >= 2
    {
      assert SubLinked(s, i);
    }
  }

  lemma SnapshotData(s: State, h: nat)
    requires WellFormed(s) && DataInv(s) && h < |s.handlers| && s.handlers[h].pc.Snapshotting?
    ensures DataInv(HandlerStep(s, h))
  {
    var t := HandlerStep(s, h);
    forall i | 0 <= i < |t.subs|
      ensures LogOk(t.subs[i], t.History(t.subs[i].stream)) && PumpOk(t.subs[i])
    {
      if i < |s.subs| {
        assert t.subs[i] == s.subs[i];
      }
    }
  }

  lemma SnapshotSent(s: State, h: nat)
    requires WellFormed(s) && LinkInv(s) && SentInv(s) && h < |s.handlers| && s.handlers[h].pc.Snapshotting?
    requires WellFormed(HandlerStep(s, h))
    ensures SentInv(HandlerStep(s, h))
  {
    var t := HandlerStep(s, h);
    forall g | 0 <= g < |t.handlers| ensures SentTrue(t, g) {
      assert SentTrue(s, g);
    }
    forall i | 0 <= i < |t.subs| && t.handlers[t.subs[i].owner].Taken(t.subs[i].stream) == 1
      ensures Chunks(t.handlers[t.subs[i].owner].sent, t.subs[i].stream) == Shown(t.subs[i])
    {
      assert i < |s.subs| ==> SubLinked(s, i);
    }
  }

  lemma SnapshotMove(s: State, h: nat)
    requires Inv(s) && h < |s.handlers| && s.handlers[h].pc.Snapshotting?
    ensures Inv(HandlerStep(s, h))
  {
    SnapshotFormed(s, h);
    SnapshotLinks(s, h);
    SnapshotData(s, h);
    SnapshotSent(s, h);
  }

  lemma AcceptMove(s: State)
    requires Inv(s)
    ensures Inv(Apply(s, Accept))
  {
    var t := Apply(s, Accept);
    forall g | 0 <= g < |t.handlers| ensures HandlerFormed(t.handlers[g], |t.subs|) {
      assert g < |s.handlers| ==> HandlerFormed(s.handlers[g], |s.subs|);
    }
    AcceptLinks(s);
    forall g | 0 <= g < |t.handlers| ensures SentTrue(t, g) {
      assert g < |s.handlers| ==> SentTrue(s, g);
    }
  }

  lemma AcceptLinks(s: State)
    requires WellFormed(s) && LinkInv(s) && WellFormed(Apply(s, Accept))
    ensures LinkInv(Apply(s, Accept))
  {
    var t := Apply(s, Accept);
    forall i | 0 <= i < |t.subs| ensures SubLinked(t, i) {
      assert SubLinked(s, i);
    }
    forall g, st | 0 <= g < |t.handlers| ensures SlotLinked(t, g, st) {
      assert g < |s.handlers| ==> SlotLinked(s, g, st);
    }
  }

  // ------------------------------------------------ every step, every run

  lemma AttachStepKeeps(s: State, h: nat)
    requires Inv(s) && Enabled(s, Step(h))
    requires s.handlers[h].pc.Snapshotting? || s.handlers[h].pc.Replaying? || s.handlers[h].pc.Launching?
    ensures Inv(HandlerStep(s, h))
  {
    var hd := s.handlers[h];
    match hd.pc
    case Snapshotting(_, _) => SnapshotMove(s, h);
    case Replaying(st) =>
      LinksFrom(s, h);
      if Writable(hd, s.subs[hd.Slot(st).value].replay) {
        ReplayMove(s, h);
      } else {
        QuietMove(s, h, hd.(pc := LeavingDetach(Out)));
      }
    case Launching(st) => LaunchMove(s, h, if st == Out && s.pipe then Detaching(Err, -1) else Reading);
  }

  lemma UnsubscribeStepKeeps(s: State, h: nat)
    requires Inv(s) && Enabled(s, Step(h))
    requires s.handlers[h].pc.Detaching? || s.handlers[h].pc.Closing?
    ensures Inv(HandlerStep(s, h))
  {
    var hd := s.handlers[h];
    match hd.pc
    case Detaching(st, offset) =>
      if hd.Slot(st).None? {
        QuietMove(s, h, hd.(pc := Snapshotting(st, offset)));
      } else {
        UnregisterMove(s, h, st, Closing(st, offset));
      }
    case Closing(st, offset) =>
      LinksFrom(s, h);
      CloseMove(s, h, st, Snapshotting(st, offset));
  }

  lemma CleanUpStepKeeps(s: State, h: nat)
    requires Inv(s) && Enabled(s, Step(h))
    requires s.handlers[h].pc.LeavingDetach? || s.handlers[h].pc.LeavingClose?
    ensures Inv(HandlerStep(s, h))
  {
    var hd := s.handlers[h];
    LinksFrom(s, h);
    match hd.pc
    case LeavingDetach(st) =>
      if hd.Slot(st).None? {
        QuietMove(s, h, hd.(pc := AfterLeaving(st)));
      } else {
        UnregisterMove(s, h, st, LeavingClose(st));
      }
    case LeavingClose(st) => CloseMove(s, h, st, AfterLeaving(st));
  }

  lemma HandlerStepKeeps(s: State, h: nat)
    requires Inv(s) && Enabled(s, Step(h))
    ensures Inv(HandlerStep(s, h))
  {
    var hd := s.handlers[h];
    match hd.pc
    case Starting => QuietMove(s, h, hd.(pc := Reading));
    case Replying => QuietMove(s, h, HandlerStep(s, h).handlers[h]);
    case Typing => QuietMove(s, h, hd.(pc := Reading));
    case LeavingConn =>
      LinksFrom(s, h);
      QuietMove(s, h, hd.(pc := Gone, link := Closed));
    case Snapshotting(_, _) => AttachStepKeeps(s, h);
    case Replaying(_) => AttachStepKeeps(s, h);
    case Launching(_) => AttachStepKeeps(s, h);
    case Detaching(_, _) => UnsubscribeStepKeeps(s, h);
    case Closing(_, _) => UnsubscribeStepKeeps(s, h);
    case _ => CleanUpStepKeeps(s, h);
  }

  lemma WriteMove(s: State, st: Stream, p: seq<byte>)
    requires Inv(s)
    ensures Inv(RingWrite(s, st, p))
  {
    WriteKeepsFormed(s, st, p);
    WriteKeepsData(s, st, p);
    WriteKeepsLinks(s, st, p);
    WriteKeepsSent(s, st, p);
  }

  /** The handler reads a message or fails to. */
  lemma ReadMove(s: State, a: Action)
    requires Inv(s) && Enabled(s, a) && (a.Receive? || a.ReadError?)
    ensures Inv(Apply(s, a))
  {
    match a
    case Receive(h, msg) => QuietMove(s, h, Dispatch(s.handlers[h], msg));
    case ReadError(h) => QuietMove(s, h, s.handlers[h].(pc := LeavingDetach(Out)));
  }

  /** The connection goes. */
  lemma LinkMove(s: State, a: Action)
    requires Inv(s) && Enabled(s, a) && (a.PeerLeaves? || a.Disconnect?)
    ensures Inv(Apply(s, a))
  {
    LinksFrom(s, a.h);
    match a
    case PeerLeaves(h) => QuietMove(s, h, Left(s.handlers[h]));
    case Disconnect(h) => QuietMove(s, h, s.handlers[h].(link := Closed));
  }

  lemma ChannelMove(s: State, a: Action)
    requires Inv(s) && Enabled(s, a) && (a.Dequeue? || a.Quit?)
    ensures Inv(Apply(s, a))
  {
    assert PumpOk(s.subs[a.i]);
    match a
    case Dequeue(i) => PumpMove(s, i, s.subs[i].(pump := Holding(s.subs[i].queue[0]), queue := s.subs[i].queue[1..]));
    case Quit(i) => PumpMove(s, i, s.subs[i].(pump := Stopped));
  }

  lemma ApplyKeeps(s: State, a: Action)
    requires Inv(s) && Enabled(s, a)
    ensures Inv(Apply(s, a))
  {
    match a
    case Write(st, p) => WriteMove(s, st, p);
    case Accept => AcceptMove(s);
    case Receive(_, _) => ReadMove(s, a);
    case ReadError(_) => ReadMove(s, a);
    case PeerLeaves(_) => LinkMove(s, a);
    case Disconnect(_) => LinkMove(s, a);
    case Step(h) => HandlerStepKeeps(s, h);
    case Dequeue(_) => ChannelMove(s, a);
    case Emit(i) => EmitMove(s, i);
    case Quit(_) => ChannelMove(s, a);
  }

  lemma {:induction false} RunKeeps(s: State, actions: seq<Action>, t: State)
    requires Inv(s) && Runs(s, actions, t)
    ensures Inv(t)
    decreases |actions|
  {
    if actions != [] {
      ApplyKeeps(s, actions[0]);
      RunKeeps(Apply(s, actions[0]), actions[1..], t);
    }
  }

  /** A state some run from an initial state ends in. */
  ghost predicate Reachable(t: State) {
    exists s, actions :: Init(s) && Runs(s, actions, t)
  }

  lemma ReachableInv(t: State)
    requires Reachable(t)
    ensures Inv(t)
  {
    var s, actions :| Init(s) && Runs(s, actions, t);
    InitInv(s);
    RunKeeps(s, actions, t);
  }
}
