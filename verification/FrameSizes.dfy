/** The server never offers WriteFrame a ring frame that is too large: live chunks are no
    larger than the pump's read buffer, replays no larger than the ring. */
module FrameSizes {
  import opened Options
  import opened Lifecycle
  import opened LifecycleRuns
  import D = Delivery
  import Output
  import P = Protocol
  import R = DeliveryRuns
  import S = DeliverySafety

  ghost predicate InHandSmall(src: Source) {
    src.pc.Storing? ==> |src.pc.chunk| <= Output.READ_SIZE
  }

  /** What a pump holds, and what any subscription was ever given, is one read. */
  ghost predicate Small(s: State) {
    InHandSmall(s.out) && InHandSmall(s.err) && R.LogsWithin(s.d, Output.READ_SIZE)
  }

  lemma SourceSmall(s: State, a: Action)
    requires D.WellFormed(s.d) && Enabled(s, a) && OfSource(a) && InHandSmall(s.out) && InHandSmall(s.err)
    ensures InHandSmall(Control(s, a).out) && InHandSmall(Control(s, a).err)
    ensures Effect(s, a).Some? ==> Effect(s, a).value.Write? && |Effect(s, a).value.bytes| <= Output.READ_SIZE
  {
    match a.st
    case Out =>
    case Err =>
  }

  lemma OtherSmall(s: State, a: Action)
    requires D.WellFormed(s.d) && Enabled(s, a) && !OfSource(a) && InHandSmall(s.out) && InHandSmall(s.err)
    ensures InHandSmall(Control(s, a).out) && InHandSmall(Control(s, a).err)
    ensures Effect(s, a).Some? ==> !Effect(s, a).value.Write?
  {
  }

  lemma EffectSmall(d: D.State, b: Option<D.Action>)
    requires D.WellFormed(d) && (b.Some? ==> D.Enabled(d, b.value)) && R.LogsWithin(d, Output.READ_SIZE)
    requires b.Some? && b.value.Write? ==> |b.value.bytes| <= Output.READ_SIZE
    ensures R.LogsWithin(Through(d, b), Output.READ_SIZE)
  {
    if b.Some? {
      R.StepWithin(d, b.value, Output.READ_SIZE);
    }
  }

  lemma StepSmall(s: State, a: Action)
    requires D.WellFormed(s.d) && Enabled(s, a) && Small(s)
    ensures Small(Apply(s, a))
  {
    if OfSource(a) {
      SourceSmall(s, a);
    } else {
      OtherSmall(s, a);
    }
    EffectSmall(s.d, Effect(s, a));
  }

  lemma {:induction false} RunSmall(s: State, actions: seq<Action>, t: State)
    requires Runs(s, actions, t) && Small(s)
    ensures Small(t)
    decreases |actions|
  {
    if actions != [] {
      StepSmall(s, actions[0]);
      RunSmall(Apply(s, actions[0]), actions[1..], t);
    }
  }

  lemma ReachableSmall(t: State)
    requires Reachable(t)
    ensures Small(t)
  {
    var s, actions :| Init(s) && Runs(s, actions, t);
    RunSmall(s, actions, t);
  }

  /** A pump is never stopped by the size of its chunk: it is stopped only when the
      connection no longer takes anything. Whatever the ring size. */
  lemma LiveFramesFit(s: State, i: nat)
    requires Reachable(s) && i < |s.d.subs| && s.d.subs[i].pump.Holding?
    ensures |s.d.subs[i].pump.chunk.data| <= Output.READ_SIZE <= P.MAX_DATA
    ensures D.WellFormed(s.d) && D.Enabled(s.d, D.Emit(i))
    ensures s.d.handlers[s.d.subs[i].owner].link == D.Up ==> D.EmitStep(s.d, i) == D.Emitted(s.d, i)
  {
    ReachableSmall(s);
    ReachableInv(s);
    assert S.PumpOk(s.d.subs[i]);
  }

  lemma ReplaySent(d: D.State, h: nat)
    requires D.WellFormed(d) && S.LinkInv(d) && d.capacity <= P.MAX_DATA
    requires h < |d.handlers| && d.handlers[h].pc.Replaying? && d.handlers[h].link == D.Up
    ensures D.HandlerStep(d, h).handlers[h].pc == D.Launching(d.handlers[h].pc.stream)
  {
    var hd := d.handlers[h];
    assert D.HandlerFormed(hd, |d.subs|) && S.SlotLinked(d, h, hd.pc.stream);
    assert S.SubLinked(d, hd.Slot(hd.pc.stream).value);
  }

  /** With a ring of at most 2^24 - 9 bytes no handler is stopped by the size of a
      replay either. */
  lemma ReplayFramesFit(s: State, h: nat)
    requires Reachable(s) && s.d.capacity <= P.MAX_DATA
    requires h < |s.d.handlers| && s.d.handlers[h].pc.Replaying? && s.d.handlers[h].link == D.Up
    ensures D.WellFormed(s.d) && D.HandlerStep(s.d, h).handlers[h].pc == D.Launching(s.d.handlers[h].pc.stream)
  {
    ReachableInv(s);
    ReplaySent(s.d, h);
  }
}
