/** How internal/apps/controller.go decides that an install has finished: polls of
    the rebuild unit against a unit that starts some time after it was kicked. */
module Settle {
  import opened Options

  /** settleGrace, in seconds. */
  const GRACE: int := 30

  /** pendingID ("" for none), pendingAt, pendingSeen and the keys of lastErrByID. */
  datatype Pending = Pending(id: string, at: int, seen: bool, errors: set<string>)

  const IDLE := Pending("", 0, false, {})

  /** settlePending gets past its two guards. */
  predicate Settles(p: Pending, running: bool, now: int) {
    p.id != "" && !running && (p.seen || now - p.at >= GRACE)
  }

  function AfterPoll(p: Pending, running: bool, failed: bool, now: int): Pending {
    if p.id == "" then p
    else if running then p.(seen := true)
    else if !Settles(p, running, now) then p
    else p.(id := "", seen := false, errors := if failed then p.errors + {p.id} else p.errors)
  }

  /** Without a kick only the old error goes. */
  function AfterInstall(p: Pending, id: string, now: int, kicked: bool): Pending {
    if kicked then Pending(id, now, false, p.errors - {id}) else p.(errors := p.errors - {id})
  }

  function AfterUninstall(p: Pending, id: string): Pending {
    var q := p.(errors := p.errors - {id});
    if p.id == id then q.(id := "", seen := false) else q
  }

  class Controller {
    var pendingID: string
    var pendingAt: int
    var pendingSeen: bool
    var lastErrByID: map<string, string>

    function Abstract(): Pending
      reads this
    {
      Pending(pendingID, pendingAt, pendingSeen, lastErrByID.Keys)
    }

    constructor ()
      ensures Abstract() == IDLE
    {
      pendingID, pendingAt, pendingSeen, lastErrByID := "", 0, false, map[];
    }

    /** One poll with what the unit reports: `running` and, if it is not, whether its
        last run failed. */
    method SettlePending(running: bool, failed: bool, now: int)
      modifies this
      ensures Abstract() == AfterPoll(old(Abstract()), running, failed, now)
      ensures pendingID == "" <==>
              old(pendingID) == "" || (!running && (old(pendingSeen) || now - old(pendingAt) >= 30))
      ensures pendingID != "" ==> pendingID == old(pendingID) && pendingSeen == (old(pendingSeen) || running)
      ensures pendingAt == old(pendingAt)
      ensures lastErrByID.Keys ==
              old(lastErrByID).Keys + if old(pendingID) != pendingID && failed then {old(pendingID)} else {}
    {
      if pendingID == "" {
        return;
      }
      if running {
        pendingSeen := true;
        return;
      }
      if !pendingSeen && now - pendingAt < GRACE {
        return;
      }
      var pending := pendingID;
      pendingID, pendingSeen := "", false;
      if failed {
        lastErrByID := lastErrByID[pending := "nixos-rebuild switch failed"];
      }
    }

    /** On a host that is not NixOS nothing is kicked; elsewhere the kick can be refused. */
    method Install(id: string, now: int, nixOS: bool, accepted: bool) returns (ok: bool)
      modifies this
      ensures ok == (!nixOS || accepted)
      ensures Abstract() == AfterInstall(old(Abstract()), id, now, nixOS && accepted)
      ensures nixOS && accepted ==> pendingID == id && pendingAt == now && !pendingSeen
      ensures !(nixOS && accepted) ==>
              pendingID == old(pendingID) && pendingAt == old(pendingAt) && pendingSeen == old(pendingSeen)
      ensures lastErrByID == old(lastErrByID) - {id}
    {
      lastErrByID := lastErrByID - {id};
      if !nixOS {
        return true;
      }
      if !accepted {
        return false;
      }
      pendingID, pendingAt, pendingSeen := id, now, false;
      ok := true;
    }

    method Uninstall(id: string)
      modifies this
      ensures Abstract() == AfterUninstall(old(Abstract()), id)
      ensures pendingID == if old(pendingID) == id then "" else old(pendingID)
      ensures pendingAt == old(pendingAt) && (old(pendingID) != id ==> pendingSeen == old(pendingSeen))
      ensures lastErrByID == old(lastErrByID) - {id}
    {
      lastErrByID := lastErrByID - {id};
      if pendingID == id {
        pendingID, pendingSeen := "", false;
      }
    }
  }

  // ------------------------------------------------ with the unit and a clock

  /** The rebuild unit: the last run that started and the last that finished, both
      numbered by the kick that caused them, and a kick that has not started yet. */
  datatype Unit = Unit(running: bool, started: nat, finished: nat, failed: bool, queued: Option<nat>, kickedAt: int)

  /** `kicks` numbers the kicks; `mine` is the one of the pending install. */
  datatype State = State(p: Pending, u: Unit, now: int, kicks: nat, mine: nat)

  datatype Action =
    | Install(id: string, kicked: bool)
    | Uninstall(id: string, kicked: bool)
    | Rebuild                // kicked by hand
    | Start
    | Finish(failed: bool)
    | Tick(dt: int)
    | Poll

  predicate Init(s: State) {
    s.p == IDLE && s.u == Unit(false, 0, 0, false, None, 0) && s.kicks == 0 && s.mine == 0
  }

  /** Kicks do not overlap, and a kicked run starts within the grace period. */
  predicate Enabled(s: State, a: Action) {
    match a
    case Install(id, kicked) => id != "" && (kicked ==> !s.u.running && s.u.queued.None?)
    case Uninstall(_, kicked) => kicked ==> !s.u.running && s.u.queued.None?
    case Rebuild => !s.u.running && s.u.queued.None?
    case Start => s.u.queued.Some?
    case Finish(_) => s.u.running
    case Tick(dt) => dt > 0 && (s.u.queued.Some? ==> s.now + dt < s.u.kickedAt + GRACE)
    case Poll => true
  }

  function Kicked(s: State): State {
    s.(kicks := s.kicks + 1, u := s.u.(queued := Some(s.kicks + 1), kickedAt := s.now))
  }

  function Apply(s: State, a: Action): State
    requires Enabled(s, a)
  {
    match a
    case Install(id, kicked) =>
      var p := AfterInstall(s.p, id, s.now, kicked);
      if kicked then Kicked(s).(p := p, mine := s.kicks + 1) else s.(p := p)
    case Uninstall(id, kicked) => (if kicked then Kicked(s) else s).(p := AfterUninstall(s.p, id))
    case Rebuild => Kicked(s)
    case Start => s.(u := s.u.(running := true, started := s.u.queued.value, queued := None))
    case Finish(failed) => s.(u := s.u.(running := false, finished := s.u.started, failed := failed))
    case Tick(dt) => s.(now := s.now + dt)
    case Poll => s.(p := AfterPoll(s.p, s.u.running, s.u.failed, s.now))
  }

  ghost predicate Runs(s: State, actions: seq<Action>, t: State)
    decreases |actions|
  {
    if actions == [] then s == t
    else Enabled(s, actions[0]) && Runs(Apply(s, actions[0]), actions[1..], t)
  }

  ghost predicate Inv(s: State) {
    && (s.u.queued.Some? ==>
          !s.u.running && s.u.queued.value == s.kicks == s.u.started + 1 && s.now < s.u.kickedAt + GRACE)
    && (s.u.queued.None? ==> s.u.started == s.kicks)
    && (if s.u.running then s.u.finished + 1 == s.u.started else s.u.finished == s.u.started)
    && (s.p.id != "" ==>
          && 0 < s.mine <= s.kicks
          && (s.p.seen ==> s.u.started >= s.mine)
          && (s.u.started < s.mine ==> s.u.kickedAt == s.p.at))
  }

  lemma InvStep(s: State, a: Action)
    requires Inv(s) && Enabled(s, a)
    ensures Inv(Apply(s, a))
  {
  }

  lemma {:induction false} InvRun(s: State, actions: seq<Action>, t: State)
    requires Inv(s) && Runs(s, actions, t)
    ensures Inv(t)
    decreases |actions|
  {
    if actions != [] {
      InvStep(s, actions[0]);
      InvRun(Apply(s, actions[0]), actions[1..], t);
    }
  }

  /** Never too early, for every schedule of kicks and polls: when a poll settles an
      install, the run that install kicked has finished. */
  lemma SettlesOnAFinishedRun(s: State, actions: seq<Action>, t: State)
    requires Init(s) && Runs(s, actions, t) && Settles(t.p, t.u.running, t.now)
    ensures t.u.finished >= t.mine
  {
    InvRun(s, actions, t);
  }

  /** A kick that does not go with the pending install of `id`. */
  predicate Foreign(a: Action, id: string) {
    a.Rebuild? || (a.Uninstall? && a.kicked && a.id != id)
  }

  /** A rebuild that somebody else kicked has started, or a later one. */
  ghost predicate Overtaken(after: seq<Action>, id: string) {
    exists i, j :: 0 <= i < j < |after| && Foreign(after[i], id) && after[j] == Start
  }

  ghost predicate NoInstall(after: seq<Action>) {
    forall i :: 0 <= i < |after| && after[i].Install? ==> !after[i].kicked
  }

  lemma OvertakenCons(a: Action, rest: seq<Action>, id: string)
    ensures Overtaken([a] + rest, id) <==> (Foreign(a, id) && Start in rest) || Overtaken(rest, id)
  {
    var all := [a] + rest;
    if Foreign(a, id) && Start in rest {
      var j :| 0 <= j < |rest| && rest[j] == Start;
      assert all[0] == a && all[j + 1] == Start;
    }
    if Overtaken(rest, id) {
      var i, j :| 0 <= i < j < |rest| && Foreign(rest[i], id) && rest[j] == Start;
      assert all[i + 1] == rest[i] && all[j + 1] == rest[j];
    }
    if Overtaken(all, id) {
      var i, j :| 0 <= i < j < |all| && Foreign(all[i], id) && all[j] == Start;
      assert all[j] == rest[j - 1];
      assert i > 0 ==> all[i] == rest[i - 1];
    }
  }

  lemma {:induction false} StaysIdle(s: State, after: seq<Action>, t: State)
    requires s.p.id == "" && Runs(s, after, t) && NoInstall(after)
    ensures t.p.id == ""
    decreases |after|
  {
    if after != [] {
      StaysIdle(Apply(s, after[0]), after[1..], t);
    }
  }

  /** From a state in which install number `mine` of `id` is pending to one in which it
      still is: whether another run has started by then. */
  lemma {:induction false} WhoStarted(s: State, after: seq<Action>, t: State, id: string)
    requires Inv(s) && s.p.id == id && id != "" && Runs(s, after, t) && NoInstall(after) && t.p.id == id
    ensures t.mine == s.mine
    ensures t.u.started > s.mine <==>
            s.u.started > s.mine || (s.kicks > s.mine && Start in after) || Overtaken(after, id)
    decreases |after|
  {
    if after != [] {
      var a, rest, u := after[0], after[1..], Apply(s, after[0]);
      InvStep(s, a);
      assert after == [a] + rest;
      OvertakenCons(a, rest, id);
      if u.p.id == "" {
        StaysIdle(u, rest, t);
      }
      WhoStarted(u, rest, t, id);
    }
  }

  /** Exactly when a settling poll reads the result of the install it settles: no
      rebuild has started since that was kicked, after that install, by hand or by the
      uninstall of another app. */
  lemma SettlesWithOwnResultIff(
      s: State, before: seq<Action>, u: State, id: string, after: seq<Action>, t: State)
    requires Init(s) && Runs(s, before, u) && Enabled(u, Install(id, true))
    requires Runs(Apply(u, Install(id, true)), after, t) && NoInstall(after)
    requires Settles(t.p, t.u.running, t.now)
    ensures t.p.id == id
    ensures t.u.finished == t.mine <==> !Overtaken(after, id)
  {
    InvRun(s, before, u);
    InvStep(u, Install(id, true));
    var v := Apply(u, Install(id, true));
    InvRun(v, after, t);
    StillThisOne(v, after, t);
    WhoStarted(v, after, t, id);
  }

  lemma {:induction false} StillThisOne(s: State, after: seq<Action>, t: State)
    requires Runs(s, after, t) && NoInstall(after) && t.p.id != ""
    ensures t.p.id == s.p.id
    decreases |after|
  {
    if after != [] {
      StillThisOne(Apply(s, after[0]), after[1..], t);
    }
  }

  // ------------------------------------------------ when an install settles

  /** Some poll of the run finds the unit running. */
  ghost predicate SeenRunning(s: State, after: seq<Action>)
    decreases |after|
  {
    after != [] && Enabled(s, after[0]) &&
    ((after[0].Poll? && s.u.running) || SeenRunning(Apply(s, after[0]), after[1..]))
  }

  /** The run ends the install of `id` kicked at time `at`: it is uninstalled, or polled
      while the unit is idle, 30 seconds after the kick or after a poll saw the unit run. */
  ghost predicate Ended(s: State, after: seq<Action>, id: string, at: int, seen: bool)
    decreases |after|
  {
    after != [] && Enabled(s, after[0]) &&
    (|| (after[0].Uninstall? && after[0].id == id)
     || (after[0].Poll? && !s.u.running && (s.now - at >= 30 || seen))
     || Ended(Apply(s, after[0]), after[1..], id, at, seen || (after[0].Poll? && s.u.running)))
  }

  lemma {:induction false} PendingUntilEnded(s: State, after: seq<Action>, t: State, id: string)
    requires id != "" && s.p.id == id && Runs(s, after, t) && NoInstall(after)
    ensures t.p.id == if Ended(s, after, id, s.p.at, s.p.seen) then "" else id
    ensures t.p.id == id ==> t.p.at == s.p.at && (t.p.seen <==> s.p.seen || SeenRunning(s, after))
    decreases |after|
  {
    if after != [] {
      var u := Apply(s, after[0]);
      if u.p.id == id {
        PendingUntilEnded(u, after[1..], t, id);
      } else {
        StaysIdle(u, after[1..], t);
      }
    }
  }

  /** Whatever happened before and happens after an install is kicked at time `u.now`:
      it is pending until it is uninstalled or a poll finds its end. A poll settles it
      exactly when the unit is idle and 30 seconds have passed since the kick or some
      poll saw the unit run; its own run has finished then, and it gets an error exactly
      when the unit's last run failed. Any other poll leaves it and the errors alone. */
  lemma SettlesExactlyWhen(
      s: State, before: seq<Action>, u: State, id: string, after: seq<Action>, t: State)
    requires Init(s) && Runs(s, before, u) && Enabled(u, Install(id, true))
    requires Runs(Apply(u, Install(id, true)), after, t) && NoInstall(after)
    ensures var v := Apply(u, Install(id, true));
            t.p.id == if Ended(v, after, id, u.now, false) then "" else id
    ensures var v, polled := Apply(u, Install(id, true)), Apply(t, Poll).p;
            t.p.id == id ==>
              && (polled.id == "" <==> !t.u.running && (t.now - u.now >= 30 || SeenRunning(v, after)))
              && (polled.id == "" ==>
                    && t.u.finished >= t.mine
                    && polled.errors == t.p.errors + if t.u.failed then {id} else {})
              && (polled.id != "" ==> polled.id == id && polled.errors == t.p.errors)
  {
    InvRun(s, before, u);
    InvStep(u, Install(id, true));
    var v := Apply(u, Install(id, true));
    InvRun(v, after, t);
    PendingUntilEnded(v, after, t, id);
  }

  lemma {:induction false} SplitRun(s: State, actions: seq<Action>, t: State, k: nat) returns (u: State)
    requires Runs(s, actions, t) && k <= |actions|
    ensures Runs(s, actions[..k], u) && Runs(u, actions[k..], t)
    decreases k
  {
    if k == 0 {
      assert actions[..0] == [] && actions[0..] == actions;
      return s;
    }
    u := SplitRun(Apply(s, actions[0]), actions[1..], t, k - 1);
    assert actions[..k][1..] == actions[1..][..k - 1];
    assert actions[1..][k - 1..] == actions[k..];
  }

  /** Every install that is pending in a reachable state is one that `SettlesExactlyWhen`
      speaks of. */
  lemma PendingWasKicked(s: State, actions: seq<Action>, t: State) returns (k: nat, u: State)
    requires Init(s) && Runs(s, actions, t) && t.p.id != ""
    ensures k < |actions| && actions[k] == Install(t.p.id, true)
    ensures Runs(s, actions[..k], u) && Enabled(u, actions[k])
    ensures Runs(Apply(u, actions[k]), actions[k + 1..], t) && NoInstall(actions[k + 1..])
  {
    k := |actions|;
    while 0 < k && !(actions[k - 1].Install? && actions[k - 1].kicked)
      invariant k <= |actions| && NoInstall(actions[k..])
    {
      k := k - 1;
    }
    if k == 0 {
      assert actions[0..] == actions;
      StaysIdle(s, actions, t);
      assert false;
    } else {
      k := k - 1;
      u := SplitRun(s, actions, t, k);
      assert actions[k..][1..] == actions[k + 1..] && actions[k..] != [];
      StillThisOne(Apply(u, actions[k]), actions[k + 1..], t);
    }
  }

  /** While an install is pending, only another install or its own uninstall kicks. */
  predicate Undisturbed(s: State, a: Action) {
    s.p.id != "" ==> !a.Rebuild? && (a.Uninstall? && a.kicked ==> a.id == s.p.id)
  }

  ghost predicate AllUndisturbed(s: State, actions: seq<Action>)
    decreases |actions|
  {
    actions == [] ||
    (Enabled(s, actions[0]) && Undisturbed(s, actions[0]) && AllUndisturbed(Apply(s, actions[0]), actions[1..]))
  }

  lemma {:induction false} LatestIsMine(s: State, actions: seq<Action>, t: State)
    requires Inv(s) && (s.p.id != "" ==> s.mine == s.kicks)
    requires Runs(s, actions, t) && AllUndisturbed(s, actions)
    ensures Inv(t) && (t.p.id != "" ==> t.mine == t.kicks)
    decreases |actions|
  {
    if actions != [] {
      InvStep(s, actions[0]);
      LatestIsMine(Apply(s, actions[0]), actions[1..], t);
    }
  }

  /** Undisturbed, whatever the schedule of polls: the install is recorded as failed
      exactly when its own run failed, and no other entry changes. */
  lemma SettlesWithItsOwnResult(s: State, actions: seq<Action>, t: State)
    requires Init(s) && Runs(s, actions, t) && AllUndisturbed(s, actions)
    requires Settles(t.p, t.u.running, t.now)
    ensures t.u.finished == t.mine
    ensures var after := Apply(t, Poll).p;
            && after.id == ""
            && after.errors == if t.u.failed then t.p.errors + {t.p.id} else t.p.errors
  {
    LatestIsMine(s, actions, t);
  }

  /** Disturbed it can be wrong: an unpolled install that succeeded is marked failed
      by the rebuild that an uninstall of another app kicks. */
  lemma BlamedForAnotherRun(s: State) returns (actions: seq<Action>, t: State)
    requires Init(s)
    ensures Runs(s, actions, t)
    ensures t.p.id == "" && "jq" in t.p.errors && Finish(true) in actions
    ensures [Install("jq", true), Start, Finish(false)] <= actions
  {
    var s1 := Apply(s, Install("jq", true));
    var s2 := Apply(s1, Start);
    var s3 := Apply(s2, Finish(false));
    var s4 := Apply(s3, Uninstall("fd", true));
    var s5 := Apply(s4, Start);
    var s6 := Apply(s5, Poll);
    var s7 := Apply(s6, Finish(true));
    t := Apply(s7, Poll);
    var last := [Finish(true), Poll];
    assert last[1..] == [Poll];
    assert Runs(s6, last, t);
    var mid := [Start, Poll] + last;
    assert mid[1..] == [Poll] + last && ([Poll] + last)[1..] == last;
    assert Runs(s4, mid, t);
    var rest := [Uninstall("fd", true)] + mid;
    assert rest[1..] == mid;
    assert Runs(s3, rest, t);
    actions := [Install("jq", true), Start, Finish(false)] + rest;
    assert actions[1..] == [Start, Finish(false)] + rest;
    assert ([Start, Finish(false)] + rest)[1..] == [Finish(false)] + rest;
    assert ([Finish(false)] + rest)[1..] == rest;
    assert actions[7 - 1] == Finish(true);
  }
}
