/** The notification hub of internal/notify/hub.go: per branch the last fifty
    notifications, an unread count and a summary of the latest one. */
module NotifyHub {
  import opened Options

  const MAX_PER_BRANCH := 50

  datatype Result<+T> = Ok(value: T) | Err(error: Error)
  datatype Error = NoTarget | NoResolver | UnknownSession

  datatype Notification = Notification(
    kind: string, message: string, title: string, detail: string, createdAt: int,
    requestId: string, actions: seq<(string, string)>, tabId: string, tabName: string,
    agentKind: string, resolved: bool)

  datatype BranchState = BranchState(
    unread: nat, lastMessage: string, lastType: string, lastAt: Option<int>, entries: seq<Notification>)

  const EMPTY := BranchState(0, "", "", None, [])

  /** What can happen to one branch. */
  datatype Op = Add(n: Notification) | Resolve(requestId: string) | Clear

  // ------------------------------------------------ one step

  /** An entry that a request id still refers to. */
  predicate Open(n: Notification, id: string) {
    n.requestId == id && !n.resolved
  }

  /** The first open entry of `id`, or -1. */
  function FirstOpen(ns: seq<Notification>, id: string): (i: int)
    ensures -1 <= i < |ns|
    ensures i >= 0 ==> Open(ns[i], id)
    ensures forall k :: 0 <= k < (if i < 0 then |ns| else i) ==> !Open(ns[k], id)
  {
    if ns == [] then -1
    else if Open(ns[0], id) then 0
    else
      var r := FirstOpen(ns[1..], id);
      if r < 0 then -1 else r + 1
  }

  function Target(ns: seq<Notification>, id: string): int {
    if id == "" then -1 else FirstOpen(ns, id)
  }

  function LastFifty(ns: seq<Notification>): seq<Notification> {
    if |ns| <= MAX_PER_BRANCH then ns else ns[|ns| - MAX_PER_BRANCH..]
  }

  function Resolved(n: Notification): Notification {
    n.(resolved := true, actions := [])
  }

  function ResolveAll(ns: seq<Notification>, id: string): (r: seq<Notification>)
    ensures |r| == |ns|
    ensures forall k :: 0 <= k < |ns| ==> r[k] == if Open(ns[k], id) then Resolved(ns[k]) else ns[k]
  {
    seq(|ns|, k requires 0 <= k < |ns| => if Open(ns[k], id) then Resolved(ns[k]) else ns[k])
  }

  function Step(s: BranchState, op: Op): BranchState {
    match op
    case Add(n) =>
      var i := Target(s.entries, n.requestId);
      var t := s.(lastMessage := n.message, lastType := n.kind, lastAt := Some(n.createdAt));
      if i >= 0 then t.(entries := s.entries[i := n])
      else t.(entries := LastFifty(s.entries + [n]), unread := s.unread + 1)
    case Resolve(id) => if id == "" then s else s.(entries := ResolveAll(s.entries, id))
    case Clear => s.(unread := 0)
  }

  function After(ops: seq<Op>): BranchState {
    if ops == [] then EMPTY else Step(After(ops[..|ops| - 1]), ops[|ops| - 1])
  }

  // ------------------------------------------------ the unbounded log behind it

  /** Every entry the branch ever had, in order of arrival. Only the last fifty can
      still be refreshed or resolved. */
  function Log(ops: seq<Op>): seq<Notification> {
    if ops == [] then [] else LogStep(Log(ops[..|ops| - 1]), ops[|ops| - 1])
  }

  function Evicted(log: seq<Notification>): nat {
    |log| - |LastFifty(log)|
  }

  function LogStep(log: seq<Notification>, op: Op): seq<Notification> {
    match op
    case Add(n) =>
      var i := Target(LastFifty(log), n.requestId);
      if i >= 0 then log[Evicted(log) + i := n] else log + [n]
    case Resolve(id) =>
      if id == "" then log else log[..Evicted(log)] + ResolveAll(LastFifty(log), id)
    case Clear => log
  }

  lemma TailUpdate(log: seq<Notification>, i: nat, n: Notification)
    requires i < |LastFifty(log)|
    ensures LastFifty(log[Evicted(log) + i := n]) == LastFifty(log)[i := n]
  {
  }

  lemma TailAppend(log: seq<Notification>, n: Notification)
    ensures LastFifty(log + [n]) == LastFifty(LastFifty(log) + [n])
  {
  }

  lemma TailReplace(log: seq<Notification>, tail: seq<Notification>)
    requires |tail| == |LastFifty(log)|
    ensures LastFifty(log[..Evicted(log)] + tail) == tail
  {
  }

  lemma StepTail(s: BranchState, log: seq<Notification>, op: Op)
    requires s.entries == LastFifty(log)
    ensures Step(s, op).entries == LastFifty(LogStep(log, op))
  {
    match op
    case Add(n) =>
      var i := Target(s.entries, n.requestId);
      if i >= 0 {
        TailUpdate(log, i, n);
      } else {
        TailAppend(log, n);
      }
    case Resolve(id) => TailReplace(log, ResolveAll(s.entries, id));
    case Clear =>
  }

  /** The branch shows the last fifty of all entries it ever had. */
  lemma {:induction false} EntriesAreLogTail(ops: seq<Op>)
    ensures After(ops).entries == LastFifty(Log(ops))
    decreases |ops|
  {
    if ops != [] {
      var past := ops[..|ops| - 1];
      EntriesAreLogTail(past);
      StepTail(After(past), Log(past), ops[|ops| - 1]);
    }
  }

  // ------------------------------------------------ what every run keeps

  /** No two open entries answer to the same request id. */
  ghost predicate OneOpenPerId(ns: seq<Notification>) {
    forall i, j :: 0 <= i < j < |ns| && ns[i].requestId == ns[j].requestId && ns[i].requestId != "" ==>
      ns[i].resolved || ns[j].resolved
  }

  lemma StepKeepsOneOpen(s: BranchState, op: Op)
    requires OneOpenPerId(s.entries)
    ensures OneOpenPerId(Step(s, op).entries)
  {
    match op
    case Add(n) =>
      var i := Target(s.entries, n.requestId);
      if i < 0 {
        assert OneOpenPerId(s.entries + [n]);
      }
    case Resolve(_) =>
    case Clear =>
  }

  /** At most fifty entries, and at most one open entry per request id. */
  lemma {:induction false} HubInvariant(ops: seq<Op>)
    ensures |After(ops).entries| <= MAX_PER_BRANCH
    ensures OneOpenPerId(After(ops).entries)
    decreases |ops|
  {
    if ops != [] {
      HubInvariant(ops[..|ops| - 1]);
      StepKeepsOneOpen(After(ops[..|ops| - 1]), ops[|ops| - 1]);
    }
  }

  lemma LogStepKeeps(log: seq<Notification>, op: Op, i: nat)
    requires i < |log|
    ensures var after := LogStep(log, op);
            && |log| <= |after|
            && Evicted(log) <= Evicted(after)
            && (log[i].resolved || i < Evicted(log) ==> after[i] == log[i])
  {
    match op
    case Add(n) => AddKeeps(log, n, i);
    case Resolve(id) =>
      assert i >= Evicted(log) ==> LastFifty(log)[i - Evicted(log)] == log[i];
    case Clear =>
  }

  lemma AddKeeps(log: seq<Notification>, n: Notification, i: nat)
    requires i < |log|
    ensures var after := LogStep(log, Add(n));
            && |log| <= |after|
            && (log[i].resolved || i < Evicted(log) ==> after[i] == log[i])
  {
    var w := LastFifty(log);
    var k := Target(w, n.requestId);
    if k >= 0 {
      assert w[k] == log[Evicted(log) + k];
    }
  }

  /** A resolved entry never changes again, and neither does an evicted one. */
  lemma {:induction false} ResolvedIsFinal(before: seq<Op>, after: seq<Op>, i: nat)
    requires i < |Log(before)|
    requires Log(before)[i].resolved || i < Evicted(Log(before))
    ensures i < |Log(before + after)| && Log(before + after)[i] == Log(before)[i]
    ensures Evicted(Log(before)) <= Evicted(Log(before + after))
    decreases |after|
  {
    if after == [] {
      assert before + after == before;
    } else {
      var n := |after| - 1;
      ResolvedIsFinal(before, after[..n], i);
      LogOfLast(before, after);
      LogStepKeeps(Log(before + after[..n]), after[n], i);
    }
  }

  lemma LogOfLast(before: seq<Op>, after: seq<Op>)
    requires after != []
    ensures Log(before + after) == LogStep(Log(before + after[..|after| - 1]), after[|after| - 1])
  {
    assert (before + after)[..|before + after| - 1] == before + after[..|after| - 1];
  }

  function SinceClear(ops: seq<Op>): nat {
    if ops == [] || ops[|ops| - 1].Clear? then 0 else 1 + SinceClear(ops[..|ops| - 1])
  }

  lemma {:induction false} SinceClearFits(ops: seq<Op>)
    ensures SinceClear(ops) <= |ops|
    decreases |ops|
  {
    if ops != [] && !ops[|ops| - 1].Clear? {
      SinceClearFits(ops[..|ops| - 1]);
    }
  }

  lemma ArrivalStep(s: BranchState, log: seq<Notification>, op: Op)
    requires s.entries == LastFifty(log) && !op.Clear?
    ensures Step(s, op).unread - s.unread == |LogStep(log, op)| - |log|
  {
  }

  lemma ArrivalOf(ops: seq<Op>)
    requires ops != [] && !ops[|ops| - 1].Clear?
    ensures var past := ops[..|ops| - 1];
            After(ops).unread - After(past).unread == |Log(ops)| - |Log(past)|
  {
    var past, op := ops[..|ops| - 1], ops[|ops| - 1];
    EntriesAreLogTail(past);
    ArrivalStep(After(past), Log(past), op);
  }

  lemma SamePrefix(ops: seq<Op>, k: nat)
    requires ops != [] && k < |ops|
    ensures ops[..|ops| - 1][..|ops| - 1 - k] == ops[..|ops| - 1 - k]
  {
  }

  /** The unread count is the number of entries that arrived since the last Clear;
      refreshing an open entry is not an arrival. */
  lemma {:induction false} UnreadCountsArrivals(ops: seq<Op>)
    ensures SinceClear(ops) <= |ops|
    ensures After(ops).unread == |Log(ops)| - |Log(ops[..|ops| - SinceClear(ops)])|
    decreases |ops|
  {
    SinceClearFits(ops);
    if ops != [] {
      var past, op := ops[..|ops| - 1], ops[|ops| - 1];
      if op.Clear? {
        assert ops[..|ops|] == ops;
      } else {
        UnreadCountsArrivals(past);
        ArrivalOf(ops);
        SamePrefix(ops, SinceClear(past));
      }
    }
  }

  /** The latest notification of a run, if it had any. */
  function Latest(ops: seq<Op>): Option<Notification> {
    if ops == [] then None
    else match ops[|ops| - 1]
         case Add(n) => Some(n)
         case _ => Latest(ops[..|ops| - 1])
  }

  /** The summary describes the latest notification, refresh or not. */
  lemma {:induction false} SummaryIsLatest(ops: seq<Op>)
    ensures var s := After(ops);
            match Latest(ops)
            case None => s.lastMessage == "" && s.lastType == "" && s.lastAt == None
            case Some(n) => s.lastMessage == n.message && s.lastType == n.kind && s.lastAt == Some(n.createdAt)
    decreases |ops|
  {
    if ops != [] {
      SummaryIsLatest(ops[..|ops| - 1]);
    }
  }

  /** A Resolve marks the entries waiting under its id and takes away their actions; all
      else stays. */
  ghost predicate Settled(s: BranchState, t: BranchState, id: string) {
    && t == s.(entries := t.entries) && |t.entries| == |s.entries|
    && forall k :: 0 <= k < |s.entries| ==>
         t.entries[k] == if s.entries[k].requestId == id && !s.entries[k].resolved
                         then s.entries[k].(resolved := true, actions := []) else s.entries[k]
  }

  /** After a Resolve nothing open answers to that id, and at most one entry changed. */
  lemma ResolveSettles(ops: seq<Op>, id: string)
    requires id != ""
    ensures var s, t := After(ops), After(ops + [Resolve(id)]);
            && Settled(s, t, id)
            && FirstOpen(t.entries, id) == -1
            && forall i, j :: 0 <= i < j < |s.entries| ==> t.entries[i] == s.entries[i] || t.entries[j] == s.entries[j]
  {
    assert (ops + [Resolve(id)])[..|ops|] == ops;
    HubInvariant(ops);
    var s := After(ops);
    var t := After(ops + [Resolve(id)]);
    assert t.entries == ResolveAll(s.entries, id);
    assert forall k :: 0 <= k < |t.entries| ==> !Open(t.entries[k], id);
  }

  // ------------------------------------------------ the hub

  predicate IsSpace(c: char) {
    || '\t' <= c <= '\r' || c == ' ' || c == '\U{85}' || c == '\U{A0}' || c == '\U{1680}'
    || '\U{2000}' <= c <= '\U{200A}' || c == '\U{2028}' || c == '\U{2029}' || c == '\U{202F}'
    || c == '\U{205F}' || c == '\U{3000}'
  }

  function TrimSpace(s: string): (t: string)
    ensures |t| <= |s|
    ensures t != "" ==> !IsSpace(t[0]) && !IsSpace(t[|t| - 1])
    decreases |s|
  {
    if s == "" then ""
    else if IsSpace(s[0]) then TrimSpace(s[1..])
    else if IsSpace(s[|s| - 1]) then TrimSpace(s[..|s| - 1])
    else s
  }

  /** What is left of a text is all but the spaces around it. */
  lemma {:induction false} TrimSpaceIs(s: string) returns (i: nat, j: nat)
    ensures i <= j <= |s| && TrimSpace(s) == s[i..j]
    ensures forall k :: 0 <= k < i || j <= k < |s| ==> IsSpace(s[k])
    decreases |s|
  {
    if s == "" {
      return 0, 0;
    } else if IsSpace(s[0]) {
      i, j := TrimSpaceIs(s[1..]);
      assert forall k :: 0 < k < |s| ==> s[k] == s[1..][k - 1];
      return i + 1, j + 1;
    } else if IsSpace(s[|s| - 1]) {
      i, j := TrimSpaceIs(s[..|s| - 1]);
      assert forall k :: 0 <= k < |s| - 1 ==> s[k] == s[..|s| - 1][k];
    } else {
      return 0, |s|;
    }
  }

  /** The tab id up to its first colon. */
  function AgentKind(tabId: string): (kind: string)
    ensures ':' !in kind && kind <= tabId && (kind == tabId || tabId[|kind|] == ':')
  {
    if tabId == "" || tabId[0] == ':' then "" else [tabId[0]] + AgentKind(tabId[1..])
  }

  function Key(repo: string, branch: string): string {
    repo + "/" + branch
  }

  /** Branches are kept apart as long as repo ids have no slash. */
  lemma {:induction false} KeysDiffer(repo: string, branch: string, repo': string, branch': string)
    requires '/' !in repo && '/' !in repo'
    ensures Key(repo, branch) == Key(repo', branch') <==> repo == repo' && branch == branch'
    decreases |repo|
  {
    var k, k' := Key(repo, branch), Key(repo', branch');
    if k == k' {
      assert |repo| <= |repo'| ==> k'[|repo|] == '/';
      assert |repo'| <= |repo| ==> k[|repo'|] == '/';
      assert |repo| == |repo'|;
      assert repo == k[..|repo|] && repo' == k'[..|repo'|];
      assert branch == k[|repo| + 1..] && branch' == k'[|repo'| + 1..];
    }
  }

  datatype Request = Request(
    requestId: string, kind: string, title: string, message: string, detail: string,
    actions: seq<(string, string)>, tabId: string, tabName: string)

  /** A request of a hook: the branch by its ids, or by its tmux session. */
  datatype HookRequest = HookRequest(
    tmuxSession: string, repo: string, branch: string, kind: string, message: string, title: string,
    requestId: string, tabId: string, tabName: string, resolve: bool)

  function NotificationOf(req: Request, now: int): Notification {
    var kind := TrimSpace(req.kind);
    Notification(
      if kind == "" then "info" else kind, req.message, req.title, req.detail, now,
      req.requestId, req.actions, req.tabId, req.tabName, AgentKind(req.tabId), false)
  }

  /** The entry says what the request said. */
  ghost predicate Carries(n: Notification, req: Request, now: int) {
    && n.title == req.title && n.message == req.message && n.detail == req.detail
    && n.actions == req.actions && n.requestId == req.requestId
    && n.tabId == req.tabId && n.tabName == req.tabName
    && n.kind == (if TrimSpace(req.kind) == "" then "info" else TrimSpace(req.kind))
    && n.createdAt == now && !n.resolved
    && ':' !in n.agentKind && (n.agentKind == req.tabId || n.agentKind + ":" <= req.tabId)
  }

  ghost predicate Waits(n: Notification, id: string) {
    id != "" && n.requestId == id && !n.resolved
  }

  /** The first entry that waits for the same request is replaced and stays where it is. */
  ghost predicate Refreshed(s: BranchState, t: BranchState, req: Request, now: int) {
    exists i :: 0 <= i < |s.entries| == |t.entries| && Waits(s.entries[i], req.requestId)
      && Carries(t.entries[i], req, now) && t.unread == s.unread
      && (forall k :: 0 <= k < i ==> !Waits(s.entries[k], req.requestId))
      && (forall k :: 0 <= k < |s.entries| && k != i ==> t.entries[k] == s.entries[k])
  }

  /** None waits: one more entry behind the others, of which the last 49 stay. */
  ghost predicate Appended(s: BranchState, t: BranchState, req: Request, now: int) {
    var all := |s.entries| + 1;
    && (forall k :: 0 <= k < |s.entries| ==> !Waits(s.entries[k], req.requestId))
    && |t.entries| == (if all <= 50 then all else 50)
    && Carries(t.entries[|t.entries| - 1], req, now) && t.unread == s.unread + 1
    && (forall k :: 0 <= k < |t.entries| - 1 ==> t.entries[k] == s.entries[all - |t.entries| + k])
  }

  /** What recording a request at time `now` makes of its branch. */
  ghost predicate Recorded(s: BranchState, t: BranchState, req: Request, now: int) {
    && t.lastMessage == req.message && t.lastAt == Some(now)
    && t.lastType == (if TrimSpace(req.kind) == "" then "info" else TrimSpace(req.kind))
    && (Refreshed(s, t, req, now) || Appended(s, t, req, now))
  }

  lemma StepRecords(s: BranchState, req: Request, now: int)
    ensures Recorded(s, Step(s, Add(NotificationOf(req, now))), req, now)
  {
    var n := NotificationOf(req, now);
    var t := Step(s, Add(n));
    assert Carries(n, req, now) by {
      var kind := AgentKind(req.tabId);
      assert kind != req.tabId ==> kind + ":" == req.tabId[..|kind| + 1];
    }
    var i := Target(s.entries, n.requestId);
    if i >= 0 {
      assert Waits(s.entries[i], req.requestId) && t.entries[i] == n;
      assert Refreshed(s, t, req, now);
    } else {
      assert forall k :: 0 <= k < |s.entries| && Waits(s.entries[k], req.requestId) ==> Open(s.entries[k], n.requestId);
      assert Appended(s, t, req, now);
    }
  }

  lemma AfterOne(past: seq<Op>, op: Op)
    ensures After(past + [op]) == Step(After(past), op)
  {
    assert (past + [op])[..|past|] == past;
  }

  method SearchOpen(ns: seq<Notification>, id: string) returns (i: int)
    ensures i == FirstOpen(ns, id)
  {
    i := 0;
    while i < |ns|
      invariant 0 <= i <= |ns|
      invariant forall k :: 0 <= k < i ==> !Open(ns[k], id)
    {
      if Open(ns[i], id) {
        return;
      }
      i := i + 1;
    }
    i := -1;
  }

  /** Refreshes the open entry of the same request, or appends and evicts. */
  method Record(state: BranchState, n: Notification) returns (next: BranchState)
    ensures next == Step(state, Add(n))
  {
    next := state.(lastMessage := n.message, lastType := n.kind, lastAt := Some(n.createdAt));
    if n.requestId != "" {
      var i := SearchOpen(state.entries, n.requestId);
      if i >= 0 {
        next := next.(entries := state.entries[i := n]);
        return;
      }
    }
    var entries := state.entries + [n];
    if |entries| > MAX_PER_BRANCH {
      entries := entries[|entries| - MAX_PER_BRANCH..];
    }
    next := next.(entries := entries, unread := state.unread + 1);
  }

  method MarkResolved(ns: seq<Notification>, id: string) returns (marked: seq<Notification>, changed: bool)
    ensures marked == ResolveAll(ns, id)
    ensures !changed ==> marked == ns
  {
    marked, changed := ns, false;
    var i := 0;
    while i < |ns|
      invariant 0 <= i <= |ns| == |marked|
      invariant forall k :: 0 <= k < i ==> marked[k] == ResolveAll(ns, id)[k]
      invariant forall k :: i <= k < |ns| ==> marked[k] == ns[k]
      invariant !changed ==> marked == ns
    {
      if Open(marked[i], id) {
        marked := marked[i := Resolved(marked[i])];
        changed := true;
      }
      i := i + 1;
    }
  }

  /** A hub whose byBranch is, for every branch, the state after all that happened
      to it; `happened` is that record. */
  class Hub {
    var byBranch: map<string, BranchState>
    ghost var happened: map<string, seq<Op>>

    ghost predicate Valid()
      reads this
    {
      && byBranch.Keys == happened.Keys
      && forall key :: key in byBranch ==> byBranch[key] == After(happened[key])
    }

    ghost function Past(key: string): seq<Op>
      reads this
    {
      if key in happened then happened[key] else []
    }

    /** What the hub shows of a branch; one it does not know is empty. */
    function Shown(key: string): BranchState
      reads this
    {
      if key in byBranch then byBranch[key] else BranchState(0, "", "", None, [])
    }

    constructor ()
      ensures Valid() && happened == map[] && byBranch == map[]
    {
      byBranch, happened := map[], map[];
    }

    /** Stores what `op` made of a branch. */
    method Put(key: string, ghost op: Op, state: BranchState)
      requires Valid() && state == Step(After(Past(key)), op)
      modifies this
      ensures Valid()
      ensures happened == old(happened)[key := old(Past(key)) + [op]]
      ensures byBranch == old(byBranch)[key := state]
    {
      AfterOne(Past(key), op);
      happened := happened[key := Past(key) + [op]];
      byBranch := byBranch[key := state];
    }

    method IngestInternal(repo: string, branch: string, req: Request, now: int)
      requires Valid()
      modifies this
      ensures Valid()
      ensures var key := Key(repo, branch);
              happened == if repo == "" || branch == "" then old(happened)
                          else old(happened)[key := old(Past(key)) + [Add(NotificationOf(req, now))]]
      ensures repo == "" || branch == "" ==> byBranch == old(byBranch)
      ensures var key := repo + "/" + branch;
              repo != "" && branch != "" ==>
                && byBranch == old(byBranch)[key := Shown(key)]
                && Recorded(old(Shown(key)), Shown(key), req, now)
    {
      if repo == "" || branch == "" {
        return;
      }
      var n := NotificationOf(req, now);
      var key := Key(repo, branch);
      var state := if key in byBranch then byBranch[key] else EMPTY;
      var next := Record(state, n);
      StepRecords(state, req, now);
      Put(key, Add(n), next);
    }

    /** Nothing happens to a branch that is not known. */
    method ClearByRequestID(repo: string, branch: string, id: string)
      requires Valid()
      modifies this
      ensures Valid()
      ensures var key := Key(repo, branch);
              happened == if id == "" || key !in old(byBranch) then old(happened)
                          else old(happened)[key := old(Past(key)) + [Resolve(id)]]
      ensures var key := repo + "/" + branch;
              if id == "" || key !in old(byBranch) then byBranch == old(byBranch)
              else byBranch == old(byBranch)[key := Shown(key)] && Settled(old(Shown(key)), Shown(key), id)
    {
      var key := Key(repo, branch);
      if id == "" || key !in byBranch {
        return;
      }
      var entries, changed := MarkResolved(byBranch[key].entries, id);
      Put(key, Resolve(id), if changed then byBranch[key].(entries := entries) else byBranch[key]);
    }

    method Clear(repo: string, branch: string) returns (snapshot: BranchState)
      requires Valid()
      modifies this
      ensures Valid()
      ensures happened == old(happened)[Key(repo, branch) := old(Past(Key(repo, branch))) + [Op.Clear]]
      ensures snapshot == After(happened[Key(repo, branch)])
      ensures var key := repo + "/" + branch;
              && byBranch == old(byBranch)[key := snapshot]
              && snapshot == old(Shown(key)).(unread := 0)
    {
      var key := Key(repo, branch);
      var state := if key in byBranch then byBranch[key] else EMPTY;
      snapshot := state.(unread := 0);
      Put(key, Op.Clear, snapshot);
    }

    method Snapshot(repo: string, branch: string) returns (state: BranchState)
      requires Valid()
      ensures state == After(Past(Key(repo, branch))) == Shown(repo + "/" + branch)
    {
      var key := Key(repo, branch);
      state := if key in byBranch then byBranch[key] else EMPTY;
    }

    /** POST /api/notify: find the branch, then record or resolve. `resolver` is
        the session lookup, or None when there is none. */
    method Ingest(req: HookRequest, resolver: Option<string -> Option<(string, string)>>, now: int)
      returns (r: Result<(string, string)>)
      requires Valid()
      modifies this
      ensures Valid()
      ensures var repo, branch := TrimSpace(req.repo), TrimSpace(req.branch);
              if repo != "" && branch != "" then r == Ok((repo, branch))
              else if req.tmuxSession == "" then r == Err(NoTarget)
              else if resolver.None? then r == Err(NoResolver)
              else if resolver.value(req.tmuxSession).None? then r == Err(UnknownSession)
              else r == Ok(resolver.value(req.tmuxSession).value)
      ensures r.Err? ==> byBranch == old(byBranch) && happened == old(happened)
      ensures r.Ok? && !req.resolve ==>
                happened == (if r.value.0 == "" || r.value.1 == "" then old(happened)
                             else old(happened)[Key(r.value.0, r.value.1) :=
                               old(Past(Key(r.value.0, r.value.1))) + [Add(NotificationOf(AsRequest(req), now))]])
      ensures r.Ok? && req.resolve ==>
                happened == (if req.requestId == "" || Key(r.value.0, r.value.1) !in old(byBranch) then old(happened)
                             else old(happened)[Key(r.value.0, r.value.1) :=
                               old(Past(Key(r.value.0, r.value.1))) + [Resolve(req.requestId)]])
      ensures r.Ok? ==>
                var key := r.value.0 + "/" + r.value.1;
                if if req.resolve then req.requestId == "" || key !in old(byBranch)
                   else r.value.0 == "" || r.value.1 == ""
                then byBranch == old(byBranch)
                else
                  && byBranch == old(byBranch)[key := Shown(key)]
                  && if req.resolve then Settled(old(Shown(key)), Shown(key), req.requestId)
                     else Recorded(old(Shown(key)), Shown(key), Request(
                       requestId := req.requestId, kind := req.kind, title := req.title, message := req.message,
                       detail := "", actions := [], tabId := req.tabId, tabName := req.tabName), now)
    {
      var repo, branch := TrimSpace(req.repo), TrimSpace(req.branch);
      if repo == "" || branch == "" {
        if req.tmuxSession == "" {
          return Err(NoTarget);
        }
        if resolver.None? {
          return Err(NoResolver);
        }
        var found := resolver.value(req.tmuxSession);
        if found.None? {
          return Err(UnknownSession);
        }
        repo, branch := found.value.0, found.value.1;
      }
      if req.resolve {
        ClearByRequestID(repo, branch, req.requestId);
      } else {
        IngestInternal(repo, branch, AsRequest(req), now);
      }
      return Ok((repo, branch));
    }
  }

  function AsRequest(req: HookRequest): Request {
    Request(req.requestId, req.kind, req.title, req.message, "", [], req.tabId, req.tabName)
  }

}
