/** What a connection is given is what its client asked for: the handlers of a run against
    the messages that run delivered to them. */
module DeliveryTalk {
  import opened Bytes
  import opened Options
  import opened Ring
  import opened Delivery
  import opened DeliverySafety
  import opened DeliveryRuns
  import Protocol

  /** What a handler has been told: the offsets of its ATTACHes, how many HELLO and STATUS
      requests, and whether it was told to stop by a SHUTDOWN or a failed read. */
  datatype Told = Told(asks: seq<int>, requests: nat, stopped: bool)

  function ToldBy(actions: seq<Action>, h: nat): Told {
    if actions == [] then Told([], 0, false)
    else Hear(ToldBy(actions[..|actions| - 1], h), actions[|actions| - 1], h)
  }

  function Hear(told: Told, a: Action, h: nat): Told {
    match a
    case Receive(g, msg) =>
      if g != h then told
      else
        (match msg
         case Attach(offset) => told.(asks := told.asks + [offset])
         case Request => told.(requests := told.requests + 1)
         case Shutdown => told.(stopped := true)
         case _ => told)
    case ReadError(g) => if g == h then told.(stopped := true) else told
    case _ => told
  }

  lemma ToldAppend(past: seq<Action>, a: Action, h: nat)
    ensures ToldBy(past + [a], h) == Hear(ToldBy(past, h), a, h)
  {
    assert (past + [a])[..|past|] == past;
  }

  /** The offsets of the subscriptions handler `h` ever took to a stream, in order. */
  function Asks(subs: seq<Sub>, h: nat, st: Stream): seq<int> {
    if subs == [] then []
    else
      var init, sub := Asks(subs[..|subs| - 1], h, st), subs[|subs| - 1];
      if sub.owner == h && sub.stream == st then init + [sub.asked] else init
  }

  lemma {:induction false} AsksSame(a: seq<Sub>, b: seq<Sub>, h: nat, st: Stream)
    requires SameSubs(a, b)
    ensures Asks(a, h, st) == Asks(b, h, st)
    decreases |a|
  {
    if a != [] {
      AsksSame(a[..|a| - 1], b[..|b| - 1], h, st);
    }
  }

  lemma AsksAppend(subs: seq<Sub>, sub: Sub, h: nat, st: Stream)
    ensures Asks(subs + [sub], h, st) ==
            if sub.owner == h && sub.stream == st then Asks(subs, h, st) + [sub.asked] else Asks(subs, h, st)
  {
    assert (subs + [sub])[..|subs|] == subs;
  }

  function Oldests(n: nat): seq<int> {
    seq(n, i => -1)
  }

  lemma OldestsMore(n: nat)
    ensures Oldests(n) + [-1] == Oldests(n + 1)
  {
  }

  // ------------------------------------------------ frames

  function ReplyCount(sent: seq<Frame>): nat {
    if sent == [] then 0 else ReplyCount(sent[..|sent| - 1]) + if sent[|sent| - 1] == Reply then 1 else 0
  }

  lemma ReplyCountAppend(sent: seq<Frame>, f: Frame)
    ensures ReplyCount(sent + [f]) == ReplyCount(sent) + if f == Reply then 1 else 0
  {
    assert (sent + [f])[..|sent|] == sent;
  }

  /** Frame `g` was sent after frame `f`. */
  ghost predicate SentAfter(sent: seq<Frame>, f: Frame, g: Frame) {
    exists k, m :: 0 <= k < m < |sent| && sent[k] == f && sent[m] == g
  }

  /** The replay frame of subscription `i`. */
  function ReplayOf(subs: seq<Sub>, i: nat): Frame
    requires i < |subs|
  {
    Data(subs[i].stream, subs[i].replay, i)
  }

  // ------------------------------------------------ the invariant

  /** Between two messages, or answering one that is not an ATTACH. */
  predicate Idle(pc: Pc) {
    pc == Starting || pc == Reading || pc == Replying || pc == Typing
  }

  predicate IsLeaving(pc: Pc) {
    pc.LeavingDetach? || pc.LeavingClose? || pc == LeavingConn || pc == Gone
  }

  predicate Started(subs: seq<Sub>, slot: Option<nat>) {
    slot.Some? && slot.value < |subs| && subs[slot.value].pump != NotStarted
  }

  /** The stdout half of an ATTACH is done. */
  predicate OutServed(hd: Handler, subs: seq<Sub>) {
    Started(subs, hd.out) && ReplayOf(subs, hd.out.value) in hd.sent
  }

  /** Both halves are, in this order; a terminal has no other half. */
  ghost predicate AllServed(pipe: bool, hd: Handler, subs: seq<Sub>) {
    && OutServed(hd, subs)
    && (pipe ==>
          && Started(subs, hd.err)
          && SentAfter(hd.sent, ReplayOf(subs, hd.out.value), ReplayOf(subs, hd.err.value)))
  }

  /** A replay that could not be written. */
  predicate Unwritable(hd: Handler, sub: Sub) {
    !sub.replayed && sub.pump == NotStarted && (hd.link != Up || |sub.replay.data| > Protocol.MAX_DATA)
  }

  ghost predicate GaveUp(hd: Handler, h: nat, subs: seq<Sub>) {
    exists i :: 0 <= i < |subs| && subs[i].owner == h && Unwritable(hd, subs[i])
  }

  /** How many subscriptions to stderr go with `n` to stdout. */
  function Errs(pipe: bool, n: nat): seq<int> {
    if pipe then Oldests(n) else []
  }

  /** Before the new subscription is taken. */
  predicate Taking(pc: Pc) {
    pc.Detaching? || pc.Closing? || pc.Snapshotting?
  }

  ghost predicate OnStdout(pipe: bool, hd: Handler, h: nat, subs: seq<Sub>, asks: seq<int>) {
    var n := |asks|;
    && n > 0
    && Asks(subs, h, Err) == Errs(pipe, n - 1)
    && (if Taking(hd.pc)
        then hd.pc.offset == asks[n - 1] && Asks(subs, h, Out) == asks[..n - 1]
        else Asks(subs, h, Out) == asks)
    && (hd.pc.Launching? && hd.out.Some? && hd.out.value < |subs| ==> ReplayOf(subs, hd.out.value) in hd.sent)
  }

  ghost predicate OnStderr(pipe: bool, hd: Handler, h: nat, subs: seq<Sub>, asks: seq<int>) {
    var n := |asks|;
    && pipe && n > 0
    && Asks(subs, h, Out) == asks && OutServed(hd, subs)
    && (if Taking(hd.pc)
        then hd.pc.offset == -1 && Asks(subs, h, Err) == Oldests(n - 1)
        else Asks(subs, h, Err) == Oldests(n))
    && (hd.pc.Launching? && hd.err.Some? && hd.err.value < |subs| ==>
          SentAfter(hd.sent, ReplayOf(subs, hd.out.value), ReplayOf(subs, hd.err.value)))
  }

  ghost predicate Progress(pipe: bool, hd: Handler, h: nat, subs: seq<Sub>, told: Told) {
    if IsLeaving(hd.pc) then told.stopped || GaveUp(hd, h, subs)
    else
      && !told.stopped
      && (if Idle(hd.pc) then
            && Asks(subs, h, Out) == told.asks
            && Asks(subs, h, Err) == Errs(pipe, |told.asks|)
            && (told.asks != [] ==> AllServed(pipe, hd, subs))
          else if hd.pc.stream == Out then OnStdout(pipe, hd, h, subs, told.asks)
          else OnStderr(pipe, hd, h, subs, told.asks))
  }

  ghost predicate Answered(hd: Handler, told: Told) {
    var n := ReplyCount(hd.sent) + if hd.pc == Replying then 1 else 0;
    n <= told.requests && (hd.link == Up ==> n == told.requests)
  }

  ghost predicate Talks(s: State, h: nat, told: Told)
    requires h < |s.handlers|
  {
    && Progress(s.pipe, s.handlers[h], h, s.subs, told) && Answered(s.handlers[h], told)
    && (!s.pipe ==> Asks(s.subs, h, Err) == [])
  }

  /** No later subscription of this handler and stream. */
  ghost predicate Latest(subs: seq<Sub>, h: nat, st: Stream, slot: Option<nat>) {
    slot.Some? ==> forall j :: slot.value < j < |subs| ==> subs[j].owner != h || subs[j].stream != st
  }

  ghost predicate SlotsLatest(s: State) {
    forall h :: 0 <= h < |s.handlers| ==>
      Latest(s.subs, h, Out, s.handlers[h].out) && Latest(s.subs, h, Err, s.handlers[h].err)
  }

  ghost predicate TalkInv(s: State, past: seq<Action>) {
    && (forall h :: 0 <= h < |s.handlers| ==> Talks(s, h, ToldBy(past, h)))
    && SlotsLatest(s)
    && (forall h: nat :: |s.handlers| <= h ==> ToldBy(past, h) == Told([], 0, false))
    && (forall h: nat, st :: |s.handlers| <= h ==> Asks(s.subs, h, st) == [])
  }

  // ------------------------------------------------ what keeps it

  /** Subscriptions may have moved, but not where an ATTACH looks. */
  predicate SameServing(a: Sub, b: Sub) {
    b.replayed == a.replayed && (b.pump == NotStarted <==> a.pump == NotStarted)
  }

  ghost predicate KeepsSubs(a: seq<Sub>, b: seq<Sub>, h: nat) {
    SameSubs(a, b) && forall i :: 0 <= i < |a| && a[i].owner == h ==> SameServing(a[i], b[i])
  }

  lemma AsksKept(a: seq<Sub>, b: seq<Sub>, h: nat)
    requires SameSubs(a, b)
    ensures Asks(b, h, Out) == Asks(a, h, Out) && Asks(b, h, Err) == Asks(a, h, Err)
  {
    AsksSame(a, b, h, Out);
    AsksSame(a, b, h, Err);
  }

  lemma StartedKept(hd: Handler, h: nat, a: seq<Sub>, b: seq<Sub>, st: Stream)
    requires KeepsSubs(a, b, h) && Started(a, hd.Slot(st)) && a[hd.Slot(st).value].owner == h
    ensures Started(b, hd.Slot(st)) && ReplayOf(b, hd.Slot(st).value) == ReplayOf(a, hd.Slot(st).value)
  {
    assert SameTicket(a[hd.Slot(st).value], b[hd.Slot(st).value]);
  }

  /** The handler's slots name its own subscriptions. */
  predicate OwnSlots(hd: Handler, h: nat, subs: seq<Sub>) {
    && (hd.out.Some? ==> hd.out.value < |subs| && subs[hd.out.value].owner == h && subs[hd.out.value].stream == Out)
    && (hd.err.Some? ==> hd.err.value < |subs| && subs[hd.err.value].owner == h && subs[hd.err.value].stream == Err)
  }

  lemma SlotsAreOwn(s: State, h: nat)
    requires WellFormed(s) && LinkInv(s) && h < |s.handlers|
    ensures OwnSlots(s.handlers[h], h, s.subs)
  {
    assert SlotLinked(s, h, Out) && SlotLinked(s, h, Err);
  }

  lemma ServedKept(pipe: bool, hd: Handler, h: nat, a: seq<Sub>, b: seq<Sub>)
    requires KeepsSubs(a, b, h) && OwnSlots(hd, h, a)
    ensures OutServed(hd, a) ==> OutServed(hd, b)
    ensures AllServed(pipe, hd, a) ==> AllServed(pipe, hd, b)
  {
    if OutServed(hd, a) {
      StartedKept(hd, h, a, b, Out);
    }
    if AllServed(pipe, hd, a) && pipe {
      StartedKept(hd, h, a, b, Err);
    }
  }

  lemma GaveUpKept(hd: Handler, h: nat, a: seq<Sub>, b: seq<Sub>)
    requires KeepsSubs(a, b, h) && GaveUp(hd, h, a)
    ensures GaveUp(hd, h, b)
  {
    var i :| 0 <= i < |a| && a[i].owner == h && Unwritable(hd, a[i]);
    assert SameTicket(a[i], b[i]) && Unwritable(hd, b[i]);
  }

  lemma ReplayKept(a: seq<Sub>, b: seq<Sub>, i: nat)
    requires SameSubs(a, b) && i < |a|
    ensures ReplayOf(b, i) == ReplayOf(a, i)
  {
    assert SameTicket(a[i], b[i]);
  }

  lemma ProgressKept(pipe: bool, hd: Handler, h: nat, a: seq<Sub>, b: seq<Sub>, told: Told)
    requires KeepsSubs(a, b, h) && OwnSlots(hd, h, a) && Progress(pipe, hd, h, a, told)
    ensures Progress(pipe, hd, h, b, told)
  {
    AsksKept(a, b, h);
    ServedKept(pipe, hd, h, a, b);
    if IsLeaving(hd.pc) && GaveUp(hd, h, a) {
      GaveUpKept(hd, h, a, b);
    }
    if hd.out.Some? {
      ReplayKept(a, b, hd.out.value);
    }
    if hd.err.Some? {
      ReplayKept(a, b, hd.err.value);
    }
  }

  /** More frames and a connection that is no better. */
  predicate Later(hd: Handler, hd': Handler) {
    && hd' == hd.(sent := hd'.sent, link := hd'.link) && hd.sent <= hd'.sent
    && (hd.link != Up ==> hd'.link != Up)
  }

  lemma AfterLater(sent: seq<Frame>, sent': seq<Frame>, f: Frame, g: Frame)
    requires sent <= sent' && SentAfter(sent, f, g)
    ensures SentAfter(sent', f, g)
  {
    var k, m :| 0 <= k < m < |sent| && sent[k] == f && sent[m] == g;
    assert sent'[k] == f && sent'[m] == g;
  }

  lemma GaveUpLater(hd: Handler, hd': Handler, h: nat, subs: seq<Sub>)
    requires Later(hd, hd') && GaveUp(hd, h, subs)
    ensures GaveUp(hd', h, subs)
  {
    var i :| 0 <= i < |subs| && subs[i].owner == h && Unwritable(hd, subs[i]);
    assert Unwritable(hd', subs[i]);
  }

  lemma ServedLater(pipe: bool, hd: Handler, hd': Handler, subs: seq<Sub>)
    requires Later(hd, hd')
    ensures OutServed(hd, subs) ==> OutServed(hd', subs)
    ensures AllServed(pipe, hd, subs) ==> AllServed(pipe, hd', subs)
  {
    if AllServed(pipe, hd, subs) && pipe {
      AfterLater(hd.sent, hd'.sent, ReplayOf(subs, hd.out.value), ReplayOf(subs, hd.err.value));
    }
  }

  lemma ProgressLater(pipe: bool, hd: Handler, hd': Handler, h: nat, subs: seq<Sub>, told: Told)
    requires Later(hd, hd') && OwnSlots(hd, h, subs) && Progress(pipe, hd, h, subs, told)
    ensures Progress(pipe, hd', h, subs, told)
  {
    ServedLater(pipe, hd, hd', subs);
    if IsLeaving(hd.pc) && GaveUp(hd, h, subs) {
      GaveUpLater(hd, hd', h, subs);
    }
    if hd.pc.Launching? && hd.pc.stream == Err && !IsLeaving(hd.pc) && hd.err.Some? {
      AfterLater(hd.sent, hd'.sent, ReplayOf(subs, hd.out.value), ReplayOf(subs, hd.err.value));
    }
  }

  // ------------------------------------------------ one handler's step

  lemma AnsweredSame(hd: Handler, hd': Handler, told: Told)
    requires Answered(hd, told) && hd'.sent == hd.sent && (hd'.link == Up ==> hd.link == Up)
    requires (hd'.pc == Replying) == (hd.pc == Replying)
    ensures Answered(hd', told)
  {
  }

  /** Unsubscribe moves on within its half of the ATTACH, or within the clean-up. */
  predicate SamePhase(a: Pc, b: Pc) {
    || (IsLeaving(a) && IsLeaving(b))
    || (Taking(a) && Taking(b) && a.stream == b.stream && a.offset == b.offset)
  }

  lemma PhaseKept(pipe: bool, hd: Handler, hd': Handler, h: nat, subs: seq<Sub>, told: Told)
    requires SamePhase(hd.pc, hd'.pc) && Progress(pipe, hd, h, subs, told)
    requires hd'.sent == hd.sent && (hd.link != Up ==> hd'.link != Up)
    requires Taking(hd.pc) && hd.pc.stream == Err ==> hd'.out == hd.out
    ensures Progress(pipe, hd', h, subs, told)
  {
    if IsLeaving(hd.pc) && GaveUp(hd, h, subs) {
      var i :| 0 <= i < |subs| && subs[i].owner == h && Unwritable(hd, subs[i]);
      assert Unwritable(hd', subs[i]);
    }
  }

  lemma SnapshotProgress(pipe: bool, hd: Handler, hd': Handler, h: nat, subs: seq<Sub>, sub: Sub, told: Told)
    requires hd.pc.Snapshotting? && Progress(pipe, hd, h, subs, told)
    requires sub.owner == h && sub.stream == hd.pc.stream && sub.asked == hd.pc.offset
    requires hd'.pc == Replaying(hd.pc.stream) && hd'.sent == hd.sent
    requires hd.pc.stream == Err ==> hd'.out == hd.out
    ensures Progress(pipe, hd', h, subs + [sub], told)
  {
    AsksAppend(subs, sub, h, Out);
    AsksAppend(subs, sub, h, Err);
    var n := |told.asks|;
    if hd.pc.stream == Out {
      assert told.asks == told.asks[..n - 1] + [told.asks[n - 1]];
    } else {
      OldestsMore(n - 1);
    }
  }

  lemma ReplayProgress(pipe: bool, hd: Handler, hd': Handler, h: nat, a: seq<Sub>, b: seq<Sub>, told: Told)
    requires hd.pc.Replaying? && Progress(pipe, hd, h, a, told) && SameSubs(a, b) && OwnSlots(hd, h, a)
    requires forall i :: 0 <= i < |a| ==> (b[i].pump == NotStarted <==> a[i].pump == NotStarted)
    requires hd.Slot(hd.pc.stream).Some?
    requires hd' == hd.(pc := Launching(hd.pc.stream), sent := hd.sent + [ReplayOf(a, hd.Slot(hd.pc.stream).value)])
    ensures Progress(pipe, hd', h, b, told)
  {
    AsksKept(a, b, h);
    ReplayKept(a, b, hd.Slot(hd.pc.stream).value);
    if hd.pc.stream == Err {
      ReplayKept(a, b, hd.out.value);
      var f := ReplayOf(a, hd.out.value);
      var k :| 0 <= k < |hd.sent| && hd.sent[k] == f;
      assert hd'.sent[k] == f && hd'.sent[|hd.sent|] == ReplayOf(a, hd.err.value);
    }
  }

  lemma LaunchProgress(pipe: bool, hd: Handler, hd': Handler, h: nat, a: seq<Sub>, b: seq<Sub>, told: Told)
    requires hd.pc.Launching? && Progress(pipe, hd, h, a, told) && SameSubs(a, b) && OwnSlots(hd, h, a)
    requires hd.Slot(hd.pc.stream).Some? && b[hd.Slot(hd.pc.stream).value].pump != NotStarted
    requires forall i :: 0 <= i < |a| && a[i].pump != NotStarted ==> b[i].pump != NotStarted
    requires hd' == hd.(pc := if hd.pc.stream == Out && pipe then Detaching(Err, -1) else Reading)
    ensures Progress(pipe, hd', h, b, told)
  {
    AsksKept(a, b, h);
    ReplayKept(a, b, hd.Slot(hd.pc.stream).value);
    if hd.pc.stream == Err {
      ReplayKept(a, b, hd.out.value);
    }
  }

  // ------------------------------------------------ one action

  /** Only handler `h` and its own subscriptions are touched. */
  ghost predicate Touches(s: State, t: State, h: nat) {
    && t.pipe == s.pipe && h < |s.handlers| == |t.handlers| && SameSubs(s.subs, t.subs)
    && (forall g :: 0 <= g < |s.handlers| && g != h ==> t.handlers[g] == s.handlers[g])
    && (forall i :: 0 <= i < |s.subs| && s.subs[i].owner != h ==> SameServing(s.subs[i], t.subs[i]))
  }

  lemma OthersTalk(s: State, t: State, h: nat, past: seq<Action>, a: Action)
    requires WellFormed(s) && LinkInv(s) && TalkInv(s, past) && Touches(s, t, h)
    requires forall g: nat :: g != h ==> Hear(ToldBy(past, g), a, g) == ToldBy(past, g)
    requires Talks(t, h, Hear(ToldBy(past, h), a, h)) && SlotsLatest(t)
    ensures TalkInv(t, past + [a])
  {
    forall g | 0 <= g < |t.handlers| ensures Talks(t, g, ToldBy(past + [a], g)) {
      ToldAppend(past, a, g);
      if g != h {
        OtherTalks(s, t, g, ToldBy(past, g));
      }
    }
    forall g: nat | |t.handlers| <= g ensures ToldBy(past + [a], g) == Told([], 0, false) {
      ToldAppend(past, a, g);
    }
    forall g: nat, st | |t.handlers| <= g ensures Asks(t.subs, g, st) == [] {
      AsksSame(s.subs, t.subs, g, st);
    }
  }

  lemma OtherTalks(s: State, t: State, g: nat, told: Told)
    requires WellFormed(s) && LinkInv(s) && g < |s.handlers| == |t.handlers| && Talks(s, g, told)
    requires t.pipe == s.pipe && KeepsSubs(s.subs, t.subs, g) && t.handlers[g] == s.handlers[g]
    ensures Talks(t, g, told)
  {
    SlotsAreOwn(s, g);
    ProgressKept(s.pipe, s.handlers[g], g, s.subs, t.subs, told);
    AsksKept(s.subs, t.subs, g);
  }

  /** A step of Unsubscribe. */
  lemma UnsubscribeTalks(s: State, h: nat, told: Told)
    requires WellFormed(s) && LinkInv(s) && h < |s.handlers| && Talks(s, h, told)
    requires var pc := s.handlers[h].pc; pc.Detaching? || pc.Closing? || pc.LeavingDetach? || pc.LeavingClose?
    ensures Touches(s, HandlerStep(s, h), h) && Talks(HandlerStep(s, h), h, told)
  {
    UnsubscribeTouches(s, h);
    SlotsAreOwn(s, h);
    UnsubscribedTalks(s, HandlerStep(s, h), h, told);
  }

  lemma UnsubscribedTalks(s: State, t: State, h: nat, told: Told)
    requires h < |s.handlers| && OwnSlots(s.handlers[h], h, s.subs) && Talks(s, h, told) && Unsubscribed(s, t, h)
    ensures Talks(t, h, told)
  {
    var hd := s.handlers[h];
    ProgressKept(s.pipe, hd, h, s.subs, t.subs, told);
    PhaseKept(s.pipe, hd, t.handlers[h], h, t.subs, told);
    AsksKept(s.subs, t.subs, h);
  }

  lemma HandlerTouches(s: State, h: nat, hd: Handler)
    requires h < |s.handlers|
    ensures var t := s.WithHandler(h, hd); Touches(s, t, h) && KeepsSubs(s.subs, t.subs, h)
  {
  }

  lemma BothTouch(s: State, i: nat, sub: Sub, h: nat, hd: Handler)
    requires i < |s.subs| && h < |s.handlers| && s.subs[i].owner == h && SameTicket(s.subs[i], sub)
    ensures var t := s.WithSub(i, sub).WithHandler(h, hd);
            && Touches(s, t, h) && (SameServing(s.subs[i], sub) ==> KeepsSubs(s.subs, t.subs, h))
  {
  }

  /** What Unsubscribe leaves alone. */
  ghost predicate Unsubscribed(s: State, t: State, h: nat)
    requires h < |s.handlers|
  {
    && Touches(s, t, h) && KeepsSubs(s.subs, t.subs, h)
    && SamePhase(s.handlers[h].pc, t.handlers[h].pc)
    && t.handlers[h].sent == s.handlers[h].sent && t.handlers[h].link == s.handlers[h].link
    && (Taking(s.handlers[h].pc) && s.handlers[h].pc.stream == Err ==> t.handlers[h].out == s.handlers[h].out)
  }

  lemma DetachTouches(s: State, h: nat)
    requires WellFormed(s) && h < |s.handlers| && OwnSlots(s.handlers[h], h, s.subs)
    requires s.handlers[h].pc.Detaching? || s.handlers[h].pc.LeavingDetach?
    ensures Unsubscribed(s, HandlerStep(s, h), h)
  {
    var hd, hd' := s.handlers[h], HandlerStep(s, h).handlers[h];
    match hd.Slot(hd.pc.stream)
    case None => HandlerTouches(s, h, hd');
    case Some(i) => BothTouch(s, i, s.subs[i].(registered := false), h, hd');
  }

  lemma CloseTouches(s: State, h: nat)
    requires WellFormed(s) && h < |s.handlers| && OwnSlots(s.handlers[h], h, s.subs)
    requires HandlerFormed(s.handlers[h], |s.subs|)
    requires s.handlers[h].pc.Closing? || s.handlers[h].pc.LeavingClose?
    ensures Unsubscribed(s, HandlerStep(s, h), h)
  {
    var hd, t := s.handlers[h], HandlerStep(s, h);
    var i := hd.Slot(hd.pc.stream).value;
    BothTouch(s, i, t.subs[i], h, t.handlers[h]);
  }

  lemma UnsubscribeTouches(s: State, h: nat)
    requires WellFormed(s) && LinkInv(s) && h < |s.handlers|
    requires var pc := s.handlers[h].pc; pc.Detaching? || pc.Closing? || pc.LeavingDetach? || pc.LeavingClose?
    ensures Unsubscribed(s, HandlerStep(s, h), h)
  {
    SlotsAreOwn(s, h);
    if s.handlers[h].pc.Detaching? || s.handlers[h].pc.LeavingDetach? {
      DetachTouches(s, h);
    } else {
      CloseTouches(s, h);
    }
  }

  lemma RestTalks(s: State, h: nat, told: Told)
    requires WellFormed(s) && h < |s.handlers| && Talks(s, h, told)
    requires s.handlers[h].pc == Starting || s.handlers[h].pc == Typing
    ensures Touches(s, HandlerStep(s, h), h) && Talks(HandlerStep(s, h), h, told)
  {
    HandlerTouches(s, h, HandlerStep(s, h).handlers[h]);
  }

  lemma ReplyTalks(s: State, h: nat, told: Told)
    requires WellFormed(s) && h < |s.handlers| && OwnSlots(s.handlers[h], h, s.subs) && Talks(s, h, told)
    requires s.handlers[h].pc == Replying
    ensures Touches(s, HandlerStep(s, h), h) && Talks(HandlerStep(s, h), h, told)
  {
    var hd, hd' := s.handlers[h], HandlerStep(s, h).handlers[h];
    HandlerTouches(s, h, hd');
    ReplyCountAppend(hd.sent, Reply);
    ServedLater(s.pipe, hd, hd.(sent := hd'.sent), s.subs);
  }

  lemma GoneTalks(s: State, h: nat, told: Told)
    requires WellFormed(s) && h < |s.handlers| && Talks(s, h, told) && s.handlers[h].pc == LeavingConn
    ensures Touches(s, HandlerStep(s, h), h) && Talks(HandlerStep(s, h), h, told)
  {
    var hd, hd' := s.handlers[h], HandlerStep(s, h).handlers[h];
    HandlerTouches(s, h, hd');
    PhaseKept(s.pipe, hd, hd', h, s.subs, told);
  }

  lemma ReplayTalks(s: State, h: nat, told: Told)
    requires WellFormed(s) && LinkInv(s) && h < |s.handlers| && Talks(s, h, told) && s.handlers[h].pc.Replaying?
    ensures Touches(s, HandlerStep(s, h), h) && Talks(HandlerStep(s, h), h, told)
  {
    var hd := s.handlers[h];
    assert HandlerFormed(hd, |s.subs|);
    SlotsAreOwn(s, h);
    assert SlotLinked(s, h, hd.pc.stream);
    if Writable(hd, s.subs[hd.Slot(hd.pc.stream).value].replay) {
      ReplaySentTalks(s, h, told);
    } else {
      ReplayLostTalks(s, h, told);
    }
  }

  lemma ReplaySentTalks(s: State, h: nat, told: Told)
    requires WellFormed(s) && h < |s.handlers| && OwnSlots(s.handlers[h], h, s.subs) && Talks(s, h, told)
    requires s.handlers[h].pc.Replaying? && HandlerFormed(s.handlers[h], |s.subs|)
    requires Writable(s.handlers[h], s.subs[s.handlers[h].Slot(s.handlers[h].pc.stream).value].replay)
    ensures Touches(s, HandlerStep(s, h), h) && Talks(HandlerStep(s, h), h, told)
  {
    var hd, t := s.handlers[h], HandlerStep(s, h);
    var i := hd.Slot(hd.pc.stream).value;
    BothTouch(s, i, t.subs[i], h, t.handlers[h]);
    ReplayProgress(s.pipe, hd, t.handlers[h], h, s.subs, t.subs, told);
    ReplyCountAppend(hd.sent, ReplayOf(s.subs, i));
    AsksKept(s.subs, t.subs, h);
  }

  lemma ReplayLostTalks(s: State, h: nat, told: Told)
    requires WellFormed(s) && h < |s.handlers| && OwnSlots(s.handlers[h], h, s.subs) && Talks(s, h, told)
    requires s.handlers[h].pc.Replaying? && HandlerFormed(s.handlers[h], |s.subs|)
    requires var sub := s.subs[s.handlers[h].Slot(s.handlers[h].pc.stream).value];
             !Writable(s.handlers[h], sub.replay) && !sub.replayed && sub.pump == NotStarted
    ensures Touches(s, HandlerStep(s, h), h) && Talks(HandlerStep(s, h), h, told)
  {
    var hd' := HandlerStep(s, h).handlers[h];
    HandlerTouches(s, h, hd');
    var i := s.handlers[h].Slot(s.handlers[h].pc.stream).value;
    assert s.subs[i].owner == h && Unwritable(hd', s.subs[i]);
  }

  lemma LaunchTalks(s: State, h: nat, told: Told)
    requires WellFormed(s) && LinkInv(s) && h < |s.handlers| && Talks(s, h, told) && s.handlers[h].pc.Launching?
    ensures Touches(s, HandlerStep(s, h), h) && Talks(HandlerStep(s, h), h, told)
  {
    assert HandlerFormed(s.handlers[h], |s.subs|);
    SlotsAreOwn(s, h);
    LaunchedTalks(s, h, told);
  }

  lemma LaunchedTalks(s: State, h: nat, told: Told)
    requires WellFormed(s) && h < |s.handlers| && OwnSlots(s.handlers[h], h, s.subs) && Talks(s, h, told)
    requires s.handlers[h].pc.Launching? && HandlerFormed(s.handlers[h], |s.subs|)
    ensures Touches(s, HandlerStep(s, h), h) && Talks(HandlerStep(s, h), h, told)
  {
    var hd, t := s.handlers[h], HandlerStep(s, h);
    var i := hd.Slot(hd.pc.stream).value;
    BothTouch(s, i, t.subs[i], h, t.handlers[h]);
    LaunchProgress(s.pipe, hd, t.handlers[h], h, s.subs, t.subs, told);
    AsksKept(s.subs, t.subs, h);
  }

  lemma StepTalks(s: State, h: nat, told: Told)
    requires WellFormed(s) && LinkInv(s) && Enabled(s, Step(h)) && Talks(s, h, told)
    requires !s.handlers[h].pc.Snapshotting?
    ensures Touches(s, HandlerStep(s, h), h) && Talks(HandlerStep(s, h), h, told)
  {
    match s.handlers[h].pc
    case Starting => RestTalks(s, h, told);
    case Typing => RestTalks(s, h, told);
    case Replying =>
      SlotsAreOwn(s, h);
      ReplyTalks(s, h, told);
    case LeavingConn => GoneTalks(s, h, told);
    case Replaying(_) => ReplayTalks(s, h, told);
    case Launching(_) => LaunchTalks(s, h, told);
    case Detaching(_, _) => UnsubscribeTalks(s, h, told);
    case Closing(_, _) => UnsubscribeTalks(s, h, told);
    case LeavingDetach(_) => UnsubscribeTalks(s, h, told);
    case LeavingClose(_) => UnsubscribeTalks(s, h, told);
  }

  lemma ServedMore(pipe: bool, hd: Handler, g: nat, subs: seq<Sub>, sub: Sub)
    requires OwnSlots(hd, g, subs)
    ensures OutServed(hd, subs) ==> OutServed(hd, subs + [sub])
    ensures AllServed(pipe, hd, subs) ==> AllServed(pipe, hd, subs + [sub])
    ensures hd.out.Some? ==> ReplayOf(subs + [sub], hd.out.value) == ReplayOf(subs, hd.out.value)
    ensures hd.err.Some? ==> ReplayOf(subs + [sub], hd.err.value) == ReplayOf(subs, hd.err.value)
  {
  }

  lemma GaveUpMore(hd: Handler, g: nat, subs: seq<Sub>, sub: Sub)
    requires GaveUp(hd, g, subs)
    ensures GaveUp(hd, g, subs + [sub])
  {
    var i :| 0 <= i < |subs| && subs[i].owner == g && Unwritable(hd, subs[i]);
    assert (subs + [sub])[i] == subs[i];
  }

  /** A new subscription is no other handler's business. */
  lemma ProgressMore(pipe: bool, hd: Handler, g: nat, subs: seq<Sub>, sub: Sub, told: Told)
    requires sub.owner != g && OwnSlots(hd, g, subs) && Progress(pipe, hd, g, subs, told)
    ensures Progress(pipe, hd, g, subs + [sub], told)
  {
    AsksAppend(subs, sub, g, Out);
    AsksAppend(subs, sub, g, Err);
    ServedMore(pipe, hd, g, subs, sub);
    if IsLeaving(hd.pc) && GaveUp(hd, g, subs) {
      GaveUpMore(hd, g, subs, sub);
    }
  }

  lemma SnapshotTalks(s: State, h: nat, past: seq<Action>)
    requires WellFormed(s) && LinkInv(s) && TalkInv(s, past) && Enabled(s, Step(h)) && s.handlers[h].pc.Snapshotting?
    requires SlotsLatest(HandlerStep(s, h))
    ensures TalkInv(HandlerStep(s, h), past + [Step(h)])
  {
    var t := HandlerStep(s, h);
    var more := t.subs[|s.subs|];
    forall g | 0 <= g < |t.handlers| ensures Talks(t, g, ToldBy(past + [Step(h)], g)) {
      ToldAppend(past, Step(h), g);
      AsksAppend(s.subs, more, g, Err);
      if g == h {
        SnapshotProgress(s.pipe, s.handlers[h], t.handlers[h], h, s.subs, more, ToldBy(past, h));
        AnsweredSame(s.handlers[h], t.handlers[h], ToldBy(past, h));
      } else {
        SlotsAreOwn(s, g);
        ProgressMore(s.pipe, s.handlers[g], g, s.subs, more, ToldBy(past, g));
      }
    }
    forall g: nat | |t.handlers| <= g ensures ToldBy(past + [Step(h)], g) == Told([], 0, false) {
      ToldAppend(past, Step(h), g);
    }
    forall g: nat, st | |t.handlers| <= g ensures Asks(t.subs, g, st) == [] {
      AsksAppend(s.subs, more, g, st);
    }
  }

  lemma AttachTalks(s: State, h: nat, offset: int, told: Told)
    requires WellFormed(s) && Enabled(s, Receive(h, Attach(offset))) && Talks(s, h, told)
    ensures var t := Apply(s, Receive(h, Attach(offset)));
            Touches(s, t, h) && Talks(t, h, told.(asks := told.asks + [offset]))
  {
    HandlerTouches(s, h, s.handlers[h].(pc := Detaching(Out, offset)));
    assert (told.asks + [offset])[..|told.asks|] == told.asks;
  }

  /** A message, or none. */
  lemma HearTalks(s: State, a: Action, told: Told)
    requires WellFormed(s) && Enabled(s, a) && (a.Receive? || a.ReadError?) && Talks(s, a.h, told)
    ensures Touches(s, Apply(s, a), a.h) && Talks(Apply(s, a), a.h, Hear(told, a, a.h))
  {
    if a.Receive? && a.msg.Attach? {
      AttachTalks(s, a.h, a.msg.offset, told);
    } else {
      HandlerTouches(s, a.h, Apply(s, a).handlers[a.h]);
    }
  }

  lemma LinkTalks(s: State, a: Action, told: Told)
    requires WellFormed(s) && LinkInv(s) && Enabled(s, a) && (a.PeerLeaves? || a.Disconnect?)
    requires Talks(s, a.h, told)
    ensures Touches(s, Apply(s, a), a.h) && Talks(Apply(s, a), a.h, told)
  {
    var hd, hd' := s.handlers[a.h], Apply(s, a).handlers[a.h];
    SlotsAreOwn(s, a.h);
    ProgressLater(s.pipe, hd, hd', a.h, s.subs, told);
    AnsweredSame(hd, hd', told);
  }

  /** A pump moves, and may send on its owner's connection. */
  lemma PumpTalks(s: State, a: Action, told: Told)
    requires WellFormed(s) && LinkInv(s) && Enabled(s, a) && (a.Dequeue? || a.Emit? || a.Quit?)
    requires Talks(s, s.subs[a.i].owner, told)
    ensures Touches(s, Apply(s, a), s.subs[a.i].owner) && Talks(Apply(s, a), s.subs[a.i].owner, told)
  {
    var h, t := s.subs[a.i].owner, Apply(s, a);
    PumpTouches(s, a);
    var hd, hd' := s.handlers[h], t.handlers[h];
    SlotsAreOwn(s, h);
    ProgressKept(s.pipe, hd, h, s.subs, t.subs, told);
    AsksKept(s.subs, t.subs, h);
    StillOwn(hd, h, s.subs, t.subs);
    ProgressLater(s.pipe, hd, hd', h, t.subs, told);
    ReplyCountAppend(hd.sent, Data(s.subs[a.i].stream, if a.Emit? then s.subs[a.i].pump.chunk else Chunk(0, []), a.i));
  }

  lemma StillOwn(hd: Handler, h: nat, a: seq<Sub>, b: seq<Sub>)
    requires OwnSlots(hd, h, a) && SameSubs(a, b)
    ensures OwnSlots(hd, h, b)
  {
    assert hd.out.Some? ==> SameTicket(a[hd.out.value], b[hd.out.value]);
    assert hd.err.Some? ==> SameTicket(a[hd.err.value], b[hd.err.value]);
  }

  lemma PumpTouches(s: State, a: Action)
    requires WellFormed(s) && Enabled(s, a) && (a.Dequeue? || a.Emit? || a.Quit?)
    ensures var h, t := s.subs[a.i].owner, Apply(s, a);
            && Touches(s, t, h) && KeepsSubs(s.subs, t.subs, h)
            && Later(s.handlers[h], t.handlers[h])
            && (t.handlers[h].sent == s.handlers[h].sent ||
                (a.Emit? &&
                 t.handlers[h].sent == s.handlers[h].sent + [Data(s.subs[a.i].stream, s.subs[a.i].pump.chunk, a.i)]))
  {
    var h, t := s.subs[a.i].owner, Apply(s, a);
    SameHandler(s, h);
    if a.Emit? {
      EmitTouches(s, a.i);
    } else {
      BothTouch(s, a.i, t.subs[a.i], h, s.handlers[h]);
      assert t == s.WithSub(a.i, t.subs[a.i]);
      SameHandler(t, h);
    }
  }

  lemma SameHandler(s: State, h: nat)
    requires h < |s.handlers|
    ensures s.WithHandler(h, s.handlers[h]) == s
  {
  }

  lemma EmitTouches(s: State, i: nat)
    requires WellFormed(s) && Enabled(s, Emit(i))
    ensures var h, t := s.subs[i].owner, EmitStep(s, i);
            && Touches(s, t, h) && KeepsSubs(s.subs, t.subs, h)
            && t.handlers[h] == s.handlers[h].(sent := t.handlers[h].sent)
            && (t.handlers[h].sent == s.handlers[h].sent ||
                t.handlers[h].sent == s.handlers[h].sent + [Data(s.subs[i].stream, s.subs[i].pump.chunk, i)])
  {
    var h, t := s.subs[i].owner, EmitStep(s, i);
    if Writable(s.handlers[h], s.subs[i].pump.chunk) {
      BothTouch(s, i, t.subs[i], h, t.handlers[h]);
    } else {
      BothTouch(s, i, t.subs[i], h, s.handlers[h]);
      assert t == s.WithSub(i, t.subs[i]);
      SameHandler(t, h);
    }
  }

  lemma WriteServes(s: State, st: Stream, p: seq<byte>)
    ensures var t := RingWrite(s, st, p);
            && t.pipe == s.pipe && t.handlers == s.handlers
            && SameSubs(s.subs, t.subs) && forall h :: KeepsSubs(s.subs, t.subs, h)
  {
    WriteGrows(s, st, p);
  }

  lemma WriteTalks(s: State, st: Stream, p: seq<byte>, past: seq<Action>)
    requires WellFormed(s) && LinkInv(s) && TalkInv(s, past) && SlotsLatest(RingWrite(s, st, p))
    ensures TalkInv(RingWrite(s, st, p), past + [Write(st, p)])
  {
    var t := RingWrite(s, st, p);
    WriteServes(s, st, p);
    forall g | 0 <= g < |t.handlers| ensures Talks(t, g, ToldBy(past + [Write(st, p)], g)) {
      ToldAppend(past, Write(st, p), g);
      OtherTalks(s, t, g, ToldBy(past, g));
    }
    forall g: nat | |t.handlers| <= g ensures ToldBy(past + [Write(st, p)], g) == Told([], 0, false) {
      ToldAppend(past, Write(st, p), g);
    }
    forall g: nat, str | |t.handlers| <= g ensures Asks(t.subs, g, str) == [] {
      AsksSame(s.subs, t.subs, g, str);
    }
  }

  lemma AcceptTalks(s: State, past: seq<Action>)
    requires WellFormed(s) && TalkInv(s, past) && SlotsLatest(Apply(s, Accept))
    ensures TalkInv(Apply(s, Accept), past + [Accept])
  {
    var t := Apply(s, Accept);
    forall g: nat ensures ToldBy(past + [Accept], g) == ToldBy(past, g) {
      ToldAppend(past, Accept, g);
    }
    forall g | 0 <= g < |t.handlers| ensures Talks(t, g, ToldBy(past + [Accept], g)) {
      if g < |s.handlers| {
        assert Talks(s, g, ToldBy(past, g));
      } else {
        assert Asks(s.subs, g, Out) == [] && Asks(s.subs, g, Err) == [];
      }
    }
  }

  // ------------------------------------------------ every run

  /** Slots are emptied, or keep what they name. */
  predicate SlotsKeep(hd: Handler, hd': Handler) {
    (hd'.out == hd.out || hd'.out == None) && (hd'.err == hd.err || hd'.err == None)
  }

  lemma LatestKept(s: State, t: State)
    requires SlotsLatest(s) && SameSubs(s.subs, t.subs) && |s.handlers| <= |t.handlers|
    requires forall h :: 0 <= h < |s.handlers| ==> SlotsKeep(s.handlers[h], t.handlers[h])
    requires forall h :: |s.handlers| <= h < |t.handlers| ==> t.handlers[h].out == None && t.handlers[h].err == None
    ensures SlotsLatest(t)
  {
    forall h | 0 <= h < |t.handlers|
      ensures Latest(t.subs, h, Out, t.handlers[h].out) && Latest(t.subs, h, Err, t.handlers[h].err)
    {
      assert h < |s.handlers| ==>
          Latest(s.subs, h, Out, s.handlers[h].out) && Latest(s.subs, h, Err, s.handlers[h].err);
      forall j | 0 <= j < |t.subs| ensures t.subs[j].owner == s.subs[j].owner && t.subs[j].stream == s.subs[j].stream {
        assert SameTicket(s.subs[j], t.subs[j]);
      }
    }
  }

  lemma StepKeepsSlots(s: State, h: nat)
    requires WellFormed(s) && Enabled(s, Step(h)) && !s.handlers[h].pc.Snapshotting?
    requires HandlerFormed(s.handlers[h], |s.subs|)
    ensures var t := HandlerStep(s, h);
            && t.handlers == s.handlers[h := t.handlers[h]]
            && SlotsKeep(s.handlers[h], t.handlers[h])
  {
    if s.handlers[h].pc.Closing? || s.handlers[h].pc.LeavingClose? {
      CloseKeepsSlots(s, h);
    }
  }

  lemma CloseKeepsSlots(s: State, h: nat)
    requires WellFormed(s) && h < |s.handlers| && HandlerFormed(s.handlers[h], |s.subs|)
    requires s.handlers[h].pc.Closing? || s.handlers[h].pc.LeavingClose?
    ensures var t := HandlerStep(s, h);
            && t.handlers == s.handlers[h := t.handlers[h]]
            && SlotsKeep(s.handlers[h], t.handlers[h])
  {
  }

  lemma SnapshotLatest(s: State, h: nat)
    requires WellFormed(s) && SlotsLatest(s) && Enabled(s, Step(h)) && s.handlers[h].pc.Snapshotting?
    requires s.handlers[h].Slot(s.handlers[h].pc.stream).None?
    ensures SlotsLatest(HandlerStep(s, h))
  {
    var t := HandlerStep(s, h);
    forall g | 0 <= g < |t.handlers|
      ensures Latest(t.subs, g, Out, t.handlers[g].out) && Latest(t.subs, g, Err, t.handlers[g].err)
    {
      assert Latest(s.subs, g, Out, s.handlers[g].out) && Latest(s.subs, g, Err, s.handlers[g].err);
    }
  }

  lemma OtherLatest(s: State, a: Action)
    requires WellFormed(s) && SlotsLatest(s) && Enabled(s, a) && !a.Step? && !a.Write?
    ensures SlotsLatest(Apply(s, a))
  {
    OtherStill(s, a);
    LatestKept(s, Apply(s, a));
  }

  lemma ApplyLatest(s: State, a: Action)
    requires Inv(s) && SlotsLatest(s) && Enabled(s, a)
    ensures SlotsLatest(Apply(s, a))
  {
    match a
    case Write(st, p) =>
      WriteGrows(s, st, p);
      LatestKept(s, Apply(s, a));
    case Step(h) =>
      if s.handlers[h].pc.Snapshotting? {
        assert SlotLinked(s, h, s.handlers[h].pc.stream);
        SnapshotLatest(s, h);
      } else {
        StepStill(s, h);
        assert HandlerFormed(s.handlers[h], |s.subs|);
        StepKeepsSlots(s, h);
        LatestKept(s, HandlerStep(s, h));
      }
    case _ => OtherLatest(s, a);
  }

  lemma ApplyTalks(s: State, past: seq<Action>, a: Action)
    requires Inv(s) && TalkInv(s, past) && Enabled(s, a)
    ensures TalkInv(Apply(s, a), past + [a])
  {
    ApplyLatest(s, a);
    match a
    case Write(st, p) => WriteTalks(s, st, p, past);
    case Accept => AcceptTalks(s, past);
    case Receive(_, _) => ConnTalks(s, past, a);
    case ReadError(_) => ConnTalks(s, past, a);
    case PeerLeaves(_) => ConnTalks(s, past, a);
    case Disconnect(_) => ConnTalks(s, past, a);
    case Step(h) =>
      if s.handlers[h].pc.Snapshotting? {
        SnapshotTalks(s, h, past);
      } else {
        StepTalks(s, h, ToldBy(past, h));
        OthersTalk(s, Apply(s, a), h, past, a);
      }
    case _ =>
      PumpTalks(s, a, ToldBy(past, s.subs[a.i].owner));
      OthersTalk(s, Apply(s, a), s.subs[a.i].owner, past, a);
  }

  lemma ConnTalks(s: State, past: seq<Action>, a: Action)
    requires WellFormed(s) && LinkInv(s) && TalkInv(s, past) && Enabled(s, a) && SlotsLatest(Apply(s, a))
    requires a.Receive? || a.ReadError? || a.PeerLeaves? || a.Disconnect?
    ensures TalkInv(Apply(s, a), past + [a])
  {
    if a.Receive? || a.ReadError? {
      HearTalks(s, a, ToldBy(past, a.h));
    } else {
      LinkTalks(s, a, ToldBy(past, a.h));
    }
    OthersTalk(s, Apply(s, a), a.h, past, a);
  }

  lemma {:induction false} RunTalks(s: State, past: seq<Action>, actions: seq<Action>, t: State)
    requires Inv(s) && TalkInv(s, past) && Runs(s, actions, t)
    ensures Inv(t) && TalkInv(t, past + actions)
    decreases |actions|
  {
    if actions == [] {
      assert past + actions == past;
    } else {
      ApplyKeeps(s, actions[0]);
      ApplyTalks(s, past, actions[0]);
      RunTalks(Apply(s, actions[0]), past + [actions[0]], actions[1..], t);
      assert past + [actions[0]] + actions[1..] == past + actions;
    }
  }

  lemma FromTheStart(s: State, actions: seq<Action>, t: State)
    requires Init(s) && Runs(s, actions, t)
    ensures Inv(t) && TalkInv(t, actions) && Reachable(t) && AllTickets(t) && t.pipe == s.pipe
  {
    InitInv(s);
    RunTalks(s, [], actions, t);
    assert [] + actions == actions;
    assert Reachable(t);
    ReachableTickets(t);
    PipeStays(s, actions, t);
  }

  lemma {:induction false} PipeStays(s: State, actions: seq<Action>, t: State)
    requires Runs(s, actions, t)
    ensures t.pipe == s.pipe
    decreases |actions|
  {
    if actions != [] {
      if actions[0].Step? {
        assert HandlerFormed(s.handlers[actions[0].h], |s.subs|);
      }
      PipeStays(Apply(s, actions[0]), actions[1..], t);
    }
  }

  /** Subscription `i` is open, its pump runs, and it began with what the ring held for
      `asked`, which is on the connection. */
  ghost predicate Serves(s: State, h: nat, st: Stream, i: nat, asked: int) {
    && h < |s.handlers| && i < |s.subs|
    && s.subs[i].owner == h && s.subs[i].stream == st && s.subs[i].asked == asked
    && s.subs[i].registered && s.subs[i].closes == 0 && s.subs[i].pump != NotStarted
    && s.subs[i].replay.End() <= |s.History(st)|
    && s.subs[i].replay == Replay(s.capacity, s.History(st)[..s.subs[i].replay.End()], asked)
    && Data(st, s.subs[i].replay, i) in s.handlers[h].sent
  }

  /** Whatever happens in between: a handler that waits for a message has taken one stdout
      subscription for each ATTACH it was sent, for exactly the offset asked for, and in
      pipe mode one to all of stderr for each; the latest of them, `i` and `j`, are open
      and served, stdout before stderr. A terminal has no stderr subscription. */
  lemma AttachesAreServed(s: State, actions: seq<Action>, t: State, h: nat) returns (i: nat, j: nat)
    requires Init(s) && Runs(s, actions, t) && h < |t.handlers| && Idle(t.handlers[h].pc)
    ensures var asks := ToldBy(actions, h).asks;
            && Asks(t.subs, h, Out) == asks
            && Asks(t.subs, h, Err) == (if s.pipe then seq(|asks|, k => -1) else [])
            && (asks != [] ==> Serves(t, h, Out, i, asks[|asks| - 1]))
            && (asks != [] && s.pipe ==>
                  && Serves(t, h, Err, j, -1)
                  && t.subs[j].replay.offset == Oldest(t.capacity, t.err[..t.subs[j].replay.End()])
                  && SentAfter(t.handlers[h].sent, Data(Out, t.subs[i].replay, i), Data(Err, t.subs[j].replay, j)))
  {
    FromTheStart(s, actions, t);
    i, j := ServedNow(t, h, ToldBy(actions, h));
  }

  /** On a terminal nobody ever subscribes to stderr, at any point of an ATTACH. */
  lemma NoStderrOnTerminal(s: State, actions: seq<Action>, t: State)
    requires Init(s) && Runs(s, actions, t) && !s.pipe
    ensures forall i :: 0 <= i < |t.subs| ==> t.subs[i].stream == Out
  {
    FromTheStart(s, actions, t);
    forall i | 0 <= i < |t.subs| ensures t.subs[i].stream == Out {
      var h := t.subs[i].owner;
      assert h < |t.handlers| ==> Talks(t, h, ToldBy(actions, h));
      assert Asks(t.subs, h, Err) == [];
      AsksNothing(t.subs, h, i);
    }
  }

  lemma {:induction false} AsksNothing(subs: seq<Sub>, h: nat, i: nat)
    requires i < |subs| && subs[i].owner == h && Asks(subs, h, Err) == []
    ensures subs[i].stream == Out
    decreases |subs|
  {
    if i < |subs| - 1 {
      AsksNothing(subs[..|subs| - 1], h, i);
    }
  }

  lemma ServedNow(t: State, h: nat, told: Told) returns (i: nat, j: nat)
    requires Inv(t) && SlotsLatest(t) && AllTickets(t) && h < |t.handlers| && Idle(t.handlers[h].pc)
    requires Talks(t, h, told)
    ensures Asks(t.subs, h, Out) == told.asks && Asks(t.subs, h, Err) == Errs(t.pipe, |told.asks|)
    ensures told.asks != [] ==> Serves(t, h, Out, i, told.asks[|told.asks| - 1])
    ensures told.asks != [] && t.pipe ==>
              && Serves(t, h, Err, j, -1)
              && t.subs[j].replay.offset == Oldest(t.capacity, t.err[..t.subs[j].replay.End()])
              && SentAfter(t.handlers[h].sent, Data(Out, t.subs[i].replay, i), Data(Err, t.subs[j].replay, j))
  {
    i, j := 0, 0;
    if told.asks != [] {
      SlotsAreOwn(t, h);
      OutIsServed(t, h, told.asks);
      i := t.handlers[h].out.value;
      if t.pipe {
        ErrIsServed(t, h, |told.asks|);
        j := t.handlers[h].err.value;
      }
    }
  }

  lemma OutIsServed(t: State, h: nat, asks: seq<int>)
    requires Inv(t) && SlotsLatest(t) && AllTickets(t) && h < |t.handlers| && Idle(t.handlers[h].pc) && asks != []
    requires OwnSlots(t.handlers[h], h, t.subs) && OutServed(t.handlers[h], t.subs) && Asks(t.subs, h, Out) == asks
    ensures var i := t.handlers[h].out.value;
            Serves(t, h, Out, i, asks[|asks| - 1]) && ReplayOf(t.subs, i) == Data(Out, t.subs[i].replay, i)
  {
    SlotServes(t, h, Out, asks);
  }

  lemma ErrIsServed(t: State, h: nat, n: nat)
    requires Inv(t) && SlotsLatest(t) && AllTickets(t) && h < |t.handlers| && Idle(t.handlers[h].pc) && n > 0
    requires OwnSlots(t.handlers[h], h, t.subs) && AllServed(true, t.handlers[h], t.subs)
    requires Asks(t.subs, h, Err) == Oldests(n)
    ensures var j := t.handlers[h].err.value;
            && Serves(t, h, Err, j, -1) && ReplayOf(t.subs, j) == Data(Err, t.subs[j].replay, j)
            && t.subs[j].replay.offset == Oldest(t.capacity, t.err[..t.subs[j].replay.End()])
  {
    var hd := t.handlers[h];
    InOrder(hd.sent, ReplayOf(t.subs, hd.out.value), ReplayOf(t.subs, hd.err.value));
    SlotServes(t, h, Err, Oldests(n));
  }

  lemma InOrder(sent: seq<Frame>, f: Frame, g: Frame)
    requires SentAfter(sent, f, g)
    ensures f in sent && g in sent
  {
  }

  /** The subscription in the slot is the latest one taken. */
  lemma SlotServes(t: State, h: nat, st: Stream, asks: seq<int>)
    requires Inv(t) && SlotsLatest(t) && AllTickets(t) && h < |t.handlers| && Idle(t.handlers[h].pc) && asks != []
    requires OwnSlots(t.handlers[h], h, t.subs) && Started(t.subs, t.handlers[h].Slot(st))
    requires Asks(t.subs, h, st) == asks
    requires ReplayOf(t.subs, t.handlers[h].Slot(st).value) in t.handlers[h].sent
    ensures Serves(t, h, st, t.handlers[h].Slot(st).value, asks[|asks| - 1])
  {
    var i := t.handlers[h].Slot(st).value;
    SlotIsOpen(t, h, st);
    assert Latest(t.subs, h, Out, t.handlers[h].out) && Latest(t.subs, h, Err, t.handlers[h].err);
    LatestAsked(t.subs, h, st, i);
    TicketOf(t, i);
  }

  lemma SlotIsOpen(t: State, h: nat, st: Stream)
    requires WellFormed(t) && LinkInv(t) && h < |t.handlers| && Idle(t.handlers[h].pc)
    requires OwnSlots(t.handlers[h], h, t.subs) && t.handlers[h].Slot(st).Some?
    ensures var sub := t.subs[t.handlers[h].Slot(st).value];
            sub.owner == h && sub.stream == st && sub.registered && sub.closes == 0
  {
    assert SubLinked(t, t.handlers[h].Slot(st).value);
  }

  lemma TicketOf(t: State, i: nat)
    requires AllTickets(t) && i < |t.subs|
    ensures var sub := t.subs[i];
            && sub.replay.End() <= |t.History(sub.stream)|
            && sub.replay == Replay(t.capacity, t.History(sub.stream)[..sub.replay.End()], sub.asked)
  {
    assert Ticket(t.capacity, t.History(t.subs[i].stream), t.subs[i]);
  }

  lemma {:induction false} LatestAsked(subs: seq<Sub>, h: nat, st: Stream, i: nat)
    requires i < |subs| && subs[i].owner == h && subs[i].stream == st
    requires forall j :: i < j < |subs| ==> subs[j].owner != h || subs[j].stream != st
    ensures Asks(subs, h, st) != [] && Asks(subs, h, st)[|Asks(subs, h, st)| - 1] == subs[i].asked
    decreases |subs|
  {
    if i < |subs| - 1 {
      LatestAsked(subs[..|subs| - 1], h, st, i);
    }
  }

  /** A handler leaves only because it was told to or a replay of its own could not be
      written, and when told to it does. */
  lemma LeavesForAReason(s: State, actions: seq<Action>, t: State, h: nat)
    requires Init(s) && Runs(s, actions, t) && h < |t.handlers|
    ensures ToldBy(actions, h).stopped ==> IsLeaving(t.handlers[h].pc)
    ensures IsLeaving(t.handlers[h].pc) ==>
              || ToldBy(actions, h).stopped
              || exists i :: 0 <= i < |t.subs| && t.subs[i].owner == h && !t.subs[i].replayed
                             && (t.handlers[h].link != Up || |t.subs[i].replay.data| > Protocol.MAX_DATA)
  {
    FromTheStart(s, actions, t);
    assert Talks(t, h, ToldBy(actions, h));
  }

  /** Every HELLO and STATUS request is answered once while the connection is up, and
      none is answered twice. */
  lemma RequestsAreAnswered(s: State, actions: seq<Action>, t: State, h: nat)
    requires Init(s) && Runs(s, actions, t) && h < |t.handlers|
    ensures ReplyCount(t.handlers[h].sent) <= ToldBy(actions, h).requests
    ensures t.handlers[h].link == Up && t.handlers[h].pc != Replying ==>
              ReplyCount(t.handlers[h].sent) == ToldBy(actions, h).requests
  {
    FromTheStart(s, actions, t);
    assert Talks(t, h, ToldBy(actions, h));
  }
}
