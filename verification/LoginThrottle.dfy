/** The login throttle of internal/auth/sso.go: a pruned list of accepted attempts
    per address, against the rule over the whole history of attempts. */
module LoginThrottle {
  const WINDOW := 60
  const MAX_ATTEMPTS := 10

  datatype Call = Call(ip: string, now: int)

  function Recent(ts: seq<int>, cut: int): (r: seq<int>)
    ensures |r| <= |ts|
  {
    if ts == [] then []
    else
      var init := Recent(ts[..|ts| - 1], cut);
      if ts[|ts| - 1] >= cut then init + [ts[|ts| - 1]] else init
  }

  /** The list the throttle stores for `ip` after these calls. */
  function Stored(calls: seq<Call>, ip: string): seq<int> {
    if calls == [] then []
    else
      var past, c := calls[..|calls| - 1], calls[|calls| - 1];
      if c.ip != ip then Stored(past, ip)
      else
        var kept := Recent(Stored(past, ip), c.now - WINDOW);
        if |kept| >= MAX_ATTEMPTS then kept else kept + [c.now]
  }

  /** The throttle's answer to `c` after these calls. */
  predicate Allowed(calls: seq<Call>, c: Call) {
    |Recent(Stored(calls, c.ip), c.now - WINDOW)| < MAX_ATTEMPTS
  }

  /** Every attempt of `ip` that was ever accepted. */
  function Accepted(calls: seq<Call>, ip: string): seq<int> {
    if calls == [] then []
    else
      var past, c := calls[..|calls| - 1], calls[|calls| - 1];
      if c.ip == ip && Allowed(past, c) then Accepted(past, ip) + [c.now] else Accepted(past, ip)
  }

  /** How many of `ts` lie in the closed interval from `lo` to `hi`. */
  function CountIn(ts: seq<int>, lo: int, hi: int): nat {
    if ts == [] then 0
    else CountIn(ts[..|ts| - 1], lo, hi) + if lo <= ts[|ts| - 1] <= hi then 1 else 0
  }

  /** The clock never goes back between two calls. */
  ghost predicate ClockOk(calls: seq<Call>) {
    forall i, j :: 0 <= i < j < |calls| ==> calls[i].now <= calls[j].now
  }

  /** No call of this address came at a later time. */
  ghost predicate NeverAfter(calls: seq<Call>, ip: string, now: int) {
    forall i :: 0 <= i < |calls| && calls[i].ip == ip ==> calls[i].now <= now
  }

  // ------------------------------------------------ the store

  /** attempts[ip] in the store is the pruned list of all calls so far. */
  class Throttle {
    var attempts: map<string, seq<int>>
    ghost var calls: seq<Call>

    function Of(ip: string): seq<int>
      reads this`attempts
    {
      if ip in attempts then attempts[ip] else []
    }

    ghost predicate Valid()
      reads this
    {
      forall ip :: Of(ip) == Stored(calls, ip)
    }

    constructor ()
      ensures Valid() && calls == [] && attempts == map[]
    {
      attempts, calls := map[], [];
    }

    method RateLimitOK(ip: string, now: int) returns (ok: bool)
      requires Valid()
      modifies this
      ensures Valid()
      ensures calls == old(calls) + [Call(ip, now)]
      ensures ok == Allowed(old(calls), Call(ip, now))
      ensures attempts == old(attempts)[ip := Stored(calls, ip)]
    {
      ghost var c := Call(ip, now);
      assert (calls + [c])[..|calls|] == calls;
      var cut := now - WINDOW;
      var all := Of(ip);
      var kept: seq<int> := [];
      for i := 0 to |all|
        invariant kept == Recent(all[..i], cut)
      {
        assert all[..i + 1][..i] == all[..i];
        if all[i] >= cut {
          kept := kept + [all[i]];
        }
      }
      assert all[..|all|] == all;
      ok := |kept| < MAX_ATTEMPTS;
      attempts := attempts[ip := if ok then kept + [now] else kept];
      calls := calls + [c];
    }
  }

  // ------------------------------------------------ against the full history

  lemma {:induction false} RecentTwice(ts: seq<int>, cut: int, later: int)
    requires cut <= later
    ensures Recent(Recent(ts, cut), later) == Recent(ts, later)
    decreases |ts|
  {
    if ts != [] {
      var n := |ts| - 1;
      RecentTwice(ts[..n], cut, later);
      RecentAppend(Recent(ts[..n], cut), ts[n], later);
    }
  }

  lemma RecentAppend(ts: seq<int>, t: int, cut: int)
    ensures Recent(ts + [t], cut) == if t >= cut then Recent(ts, cut) + [t] else Recent(ts, cut)
  {
    assert (ts + [t])[..|ts|] == ts;
  }

  lemma CountAppend(ts: seq<int>, t: int, lo: int, hi: int)
    ensures CountIn(ts + [t], lo, hi) == CountIn(ts, lo, hi) + if lo <= t <= hi then 1 else 0
  {
    assert (ts + [t])[..|ts|] == ts;
  }

  lemma {:induction false} RecentCounts(ts: seq<int>, lo: int, hi: int)
    requires forall i :: 0 <= i < |ts| ==> ts[i] <= hi
    ensures |Recent(ts, lo)| == CountIn(ts, lo, hi)
    decreases |ts|
  {
    if ts != [] {
      RecentCounts(ts[..|ts| - 1], lo, hi);
    }
  }

  lemma {:induction false} AcceptedInPast(calls: seq<Call>, ip: string, hi: int)
    requires NeverAfter(calls, ip, hi)
    ensures forall i :: 0 <= i < |Accepted(calls, ip)| ==> Accepted(calls, ip)[i] <= hi
    decreases |calls|
  {
    if calls != [] {
      AcceptedInPast(calls[..|calls| - 1], ip, hi);
    }
  }

  /** Pruning forgets nothing that a later cut would still count. */
  lemma {:induction false} PruningIsSafe(calls: seq<Call>, ip: string, cut: int)
    requires NeverAfter(calls, ip, cut + WINDOW)
    ensures Recent(Stored(calls, ip), cut) == Recent(Accepted(calls, ip), cut)
    decreases |calls|
  {
    if calls != [] {
      var past, c := calls[..|calls| - 1], calls[|calls| - 1];
      PruningIsSafe(past, ip, cut);
      if c.ip == ip {
        var kept := Recent(Stored(past, ip), c.now - WINDOW);
        RecentTwice(Stored(past, ip), c.now - WINDOW, cut);
        RecentAppend(kept, c.now, cut);
        RecentAppend(Accepted(past, ip), c.now, cut);
      }
    }
  }

  /** The rule, as long as this address was never seen at a later time: accepted
      exactly when fewer than ten of its attempts were accepted in the last sixty
      seconds, both ends included. */
  lemma ThrottleRule(calls: seq<Call>, c: Call)
    requires NeverAfter(calls, c.ip, c.now)
    ensures Allowed(calls, c) <==> CountIn(Accepted(calls, c.ip), c.now - 60, c.now) < 10
  {
    PruningIsSafe(calls, c.ip, c.now - WINDOW);
    AcceptedInPast(calls, c.ip, c.now);
    RecentCounts(Accepted(calls, c.ip), c.now - WINDOW, c.now);
  }

  lemma InThePast(calls: seq<Call>, c: Call)
    requires ClockOk(calls + [c])
    ensures ClockOk(calls)
    ensures NeverAfter(calls, c.ip, c.now)
  {
    var all := calls + [c];
    forall i, j | 0 <= i < j < |calls| ensures calls[i].now <= calls[j].now {
      assert all[i].now <= all[j].now;
    }
    forall i | 0 <= i < |calls| && calls[i].ip == c.ip ensures calls[i].now <= c.now {
      assert all[i].now <= all[|calls|].now;
    }
  }

  /** Sliding windows: no sixty seconds of any run see more than ten accepted
      attempts from one address. */
  lemma {:induction false} AtMostTenPerWindow(calls: seq<Call>, ip: string, from: int)
    requires ClockOk(calls)
    ensures CountIn(Accepted(calls, ip), from, from + 60) <= 10
    decreases |calls|
  {
    if calls != [] {
      var past, c := calls[..|calls| - 1], calls[|calls| - 1];
      assert past + [c] == calls;
      InThePast(past, c);
      AtMostTenPerWindow(past, ip, from);
      if c.ip == ip && Allowed(past, c) {
        CountAppend(Accepted(past, ip), c.now, from, from + WINDOW);
        if from <= c.now <= from + WINDOW {
          ThrottleRule(past, c);
          AcceptedInPast(past, ip, c.now);
          WiderWindow(Accepted(past, ip), from, from + WINDOW, c.now - WINDOW, c.now);
        }
      }
    }
  }

  lemma {:induction false} WiderWindow(ts: seq<int>, lo: int, hi: int, lo': int, hi': int)
    requires lo' <= lo && forall i :: 0 <= i < |ts| ==> ts[i] <= hi'
    ensures CountIn(ts, lo, hi) <= CountIn(ts, lo', hi')
    decreases |ts|
  {
    if ts != [] {
      WiderWindow(ts[..|ts| - 1], lo, hi, lo', hi');
    }
  }

  /** Whatever the clock does, the stored list stays short. */
  lemma {:induction false} StoredIsShort(calls: seq<Call>, ip: string)
    ensures |Stored(calls, ip)| <= 10
    decreases |calls|
  {
    if calls != [] {
      StoredIsShort(calls[..|calls| - 1], ip);
    }
  }

  lemma {:induction false} RejectedIsForgotten(before: seq<Call>, r: Call, after: seq<Call>, ip: string)
    requires ClockOk(before + [r] + after) && !Allowed(before, r)
    ensures Accepted(before + [r] + after, ip) == Accepted(before + after, ip)
    decreases |after|
  {
    if after == [] {
      assert (before + [r] + after)[..|before|] == before;
      assert before + after == before;
    } else {
      var n, c := |after| - 1, after[|after| - 1];
      LastOf(before + [r], after);
      LastOf(before, after);
      RejectedIsForgotten(before, r, after[..n], ip);
      RejectedIsForgotten(before, r, after[..n], c.ip);
      Dropped(before, r, after);
      SameAnswer(before + [r] + after[..n], before + after[..n], c);
    }
  }

  lemma LastOf(before: seq<Call>, after: seq<Call>)
    requires after != []
    ensures var all, n := before + after, |after| - 1;
            all[..|all| - 1] == before + after[..n] && all == before + after[..n] + [after[n]]
  {
  }

  /** The throttle's answer depends on the accepted attempts alone. */
  lemma SameAnswer(calls: seq<Call>, others: seq<Call>, c: Call)
    requires ClockOk(calls + [c]) && ClockOk(others + [c]) && Accepted(calls, c.ip) == Accepted(others, c.ip)
    ensures Allowed(calls, c) == Allowed(others, c)
  {
    InThePast(calls, c);
    ThrottleRule(calls, c);
    InThePast(others, c);
    ThrottleRule(others, c);
  }

  lemma Dropped(before: seq<Call>, r: Call, after: seq<Call>)
    requires ClockOk(before + [r] + after)
    ensures ClockOk(before + after)
  {
    var with, without := before + [r] + after, before + after;
    forall i, j | 0 <= i < j < |without| ensures without[i].now <= without[j].now {
      assert with[if i < |before| then i else i + 1].now <= with[if j < |before| then j else j + 1].now;
    }
  }

  /** A rejected attempt never extends the lock-out: all later answers, to any
      address, are what they would have been without it. */
  lemma RejectionHasNoEffect(before: seq<Call>, r: Call, after: seq<Call>, c: Call)
    requires ClockOk(before + [r] + after + [c]) && !Allowed(before, r)
    ensures Allowed(before + [r] + after, c) == Allowed(before + after, c)
  {
    InThePast(before + [r] + after, c);
    RejectedIsForgotten(before, r, after, c.ip);
    assert before + [r] + (after + [c]) == before + [r] + after + [c];
    Dropped(before, r, after + [c]);
    assert before + (after + [c]) == before + after + [c];
    SameAnswer(before + [r] + after, before + after, c);
  }

  // ------------------------------------------------ a clock that goes back

  function Burst(n: nat, ip: string, now: int): seq<Call> {
    if n == 0 then [] else Burst(n - 1, ip, now) + [Call(ip, now)]
  }

  function Times(n: nat, now: int): (ts: seq<int>)
    ensures |ts| == n
  {
    if n == 0 then [] else Times(n - 1, now) + [now]
  }

  lemma {:induction false} RecentTimes(n: nat, now: int, cut: int)
    ensures Recent(Times(n, now), cut) == if now >= cut then Times(n, now) else []
  {
    if n > 0 {
      RecentTimes(n - 1, now, cut);
      assert Times(n, now) == Times(n - 1, now) + [now];
      RecentAppend(Times(n - 1, now), now, cut);
    }
  }

  lemma OneMore(past: seq<Call>, c: Call, ts: seq<int>)
    requires Stored(past, c.ip) == ts && Accepted(past, c.ip) == ts
    requires Recent(ts, c.now - WINDOW) == ts && |ts| < MAX_ATTEMPTS
    ensures Stored(past + [c], c.ip) == ts + [c.now]
    ensures Accepted(past + [c], c.ip) == ts + [c.now]
  {
    var all := past + [c];
    assert all[..|all| - 1] == past && all[|all| - 1] == c;
    assert Allowed(past, c);
    assert Accepted(all, c.ip) == Accepted(past, c.ip) + [c.now];
    assert Stored(all, c.ip) == Recent(Stored(past, c.ip), c.now - WINDOW) + [c.now];
  }

  lemma {:induction false} BurstAccepted(n: nat, ip: string, now: int)
    requires n <= MAX_ATTEMPTS
    ensures Stored(Burst(n, ip, now), ip) == Times(n, now)
    ensures Accepted(Burst(n, ip, now), ip) == Times(n, now)
  {
    if n > 0 {
      BurstAccepted(n - 1, ip, now);
      RecentTimes(n - 1, now, now - WINDOW);
      OneMore(Burst(n - 1, ip, now), Call(ip, now), Times(n - 1, now));
    }
  }

  lemma {:induction false} CountTimes(n: nat, now: int, hi: int)
    requires now <= hi
    ensures CountIn(Times(n, now), now, hi) == n
  {
    if n > 0 {
      CountTimes(n - 1, now, hi);
      CountAppend(Times(n - 1, now), now, now, hi);
    }
  }

  /** The latest time at which this address was seen. */
  ghost predicate LatestIs(calls: seq<Call>, ip: string, latest: int) {
    NeverAfter(calls, ip, latest) && exists i :: 0 <= i < |calls| && calls[i] == Call(ip, latest)
  }

  ghost predicate RuleHolds(calls: seq<Call>, c: Call) {
    Allowed(calls, c) <==> CountIn(Accepted(calls, c.ip), c.now - WINDOW, c.now) < MAX_ATTEMPTS
  }

  lemma {:induction false} BurstLatest(n: nat, ip: string, now: int)
    requires n > 0
    ensures LatestIs(Burst(n, ip, now), ip, now)
  {
    if n > 1 {
      BurstLatest(n - 1, ip, now);
    }
    assert Burst(n, ip, now)[|Burst(n, ip, now)| - 1] == Call(ip, now);
  }

  lemma {:induction false} NoneInside(n: nat, now: int, hi: int)
    requires hi < now
    ensures CountIn(Times(n, now), hi - WINDOW, hi) == 0
  {
    if n > 0 {
      NoneInside(n - 1, now, hi);
      CountAppend(Times(n - 1, now), now, hi - WINDOW, hi);
    }
  }

  lemma FullTooEarly(n: nat, ip: string, latest: int, now: int)
    requires now < latest && n == MAX_ATTEMPTS
    ensures !RuleHolds(Burst(n, ip, latest), Call(ip, now))
  {
    BurstAccepted(n, ip, latest);
    RecentTimes(n, latest, now - WINDOW);
    NoneInside(n, latest, now);
  }

  lemma BurstTooEarly(ip: string, latest: int, now: int)
    requires now < latest
    ensures !RuleHolds(Burst(MAX_ATTEMPTS, ip, latest), Call(ip, now))
  {
    FullTooEarly(MAX_ATTEMPTS, ip, latest, now);
  }

  /** Exactly when the rule can be relied on: for every history in which the address
      was last seen at `latest` iff the clock is not behind that. */
  lemma RuleIffClockNotBehind(ip: string, latest: int, now: int)
    ensures (forall calls :: LatestIs(calls, ip, latest) ==> RuleHolds(calls, Call(ip, now))) <==> latest <= now
  {
    if latest <= now {
      forall calls | LatestIs(calls, ip, latest) ensures RuleHolds(calls, Call(ip, now)) {
        ThrottleRule(calls, Call(ip, now));
      }
    } else {
      BurstLatest(MAX_ATTEMPTS, ip, latest);
      BurstTooEarly(ip, latest, now);
    }
  }

  /** Being behind lets too many through as well: ten attempts, one more at `latest`
      which forgets them, and with the clock set back to `now` an eleventh. */
  lemma ClockSetBack(n: nat, ip: string, latest: int, now: int)
    requires now < latest && n == MAX_ATTEMPTS
    ensures var calls := Burst(n, ip, now - WINDOW) + [Call(ip, latest)];
            && LatestIs(calls, ip, latest) && Allowed(calls, Call(ip, now))
            && CountIn(Accepted(calls, ip), now - WINDOW, now) == MAX_ATTEMPTS
  {
    var burst, late := Burst(n, ip, now - WINDOW), Call(ip, latest);
    var calls := burst + [late];
    assert calls[..|burst|] == burst && calls[|burst|] == late;
    BurstAccepted(n, ip, now - WINDOW);
    RecentTimes(n, now - WINDOW, latest - WINDOW);
    assert Stored(calls, ip) == [latest];
    assert Accepted(calls, ip) == Times(n, now - WINDOW) + [latest];
    CountTimes(n, now - WINDOW, now);
    CountAppend(Times(n, now - WINDOW), latest, now - WINDOW, now);
    BurstSeen(n, ip, now - WINDOW, latest);
  }

  lemma BurstSeen(n: nat, ip: string, now: int, latest: int)
    requires now <= latest
    ensures LatestIs(Burst(n, ip, now) + [Call(ip, latest)], ip, latest)
  {
    var burst := Burst(n, ip, now);
    assert (burst + [Call(ip, latest)])[|burst|] == Call(ip, latest);
    BurstTimes(n, ip, now);
  }

  lemma {:induction false} BurstTimes(n: nat, ip: string, now: int)
    ensures forall i :: 0 <= i < |Burst(n, ip, now)| ==> Burst(n, ip, now)[i] == Call(ip, now)
  {
    if n > 0 {
      BurstTimes(n - 1, ip, now);
    }
  }

  /** Exactly when an eleventh attempt is impossible: for every history in which the
      address was last seen at `latest` iff the clock is not behind that. */
  lemma NoEleventhIffClockNotBehind(ip: string, latest: int, now: int)
    ensures (forall calls :: LatestIs(calls, ip, latest) && Allowed(calls, Call(ip, now)) ==>
               CountIn(Accepted(calls, ip), now - WINDOW, now) < MAX_ATTEMPTS) <==>
            latest <= now
  {
    if latest <= now {
      forall calls | LatestIs(calls, ip, latest) && Allowed(calls, Call(ip, now))
        ensures CountIn(Accepted(calls, ip), now - WINDOW, now) < MAX_ATTEMPTS
      {
        ThrottleRule(calls, Call(ip, now));
      }
    } else {
      ClockSetBack(MAX_ATTEMPTS, ip, latest, now);
    }
  }
}
