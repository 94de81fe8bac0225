/** What the client of internal/tab/claudeagent/client.go stores of its progress: the
    offset to resume from and the control requests already answered. */
module Checkpoint {
  import opened Options
  import opened PipeClient

  /** A line of the child's output; a control request has an id and is answered some time
      after it was read, everything else at once. */
  datatype Entry = Entry(start: nat, end: nat, request: Option<string>)

  datatype Record = Record(offset: nat, resolved: map<string, nat>)

  /** highestSeenOffset, pendingAsync, resolved, and what the offset store holds. */
  datatype Book = Book(highest: nat, pending: map<string, nat>, resolved: map<string, nat>, store: Option<Record>)

  function Min(a: nat, b: nat): nat {
    if a < b then a else b
  }

  function Max(a: nat, b: nat): nat {
    if a < b then b else a
  }

  /** The least of `highest` and the offsets at which pending lines begin. */
  ghost predicate IsFrontier(f: nat, highest: nat, pending: map<string, nat>) {
    && f <= highest && (forall id :: id in pending ==> f <= pending[id])
    && (f == highest || exists id :: id in pending && pending[id] == f)
  }

  lemma OneMorePending(f: nat, highest: nat, pending: map<string, nat>, id: string)
    requires id in pending && IsFrontier(f, highest, pending - {id})
    ensures IsFrontier(Min(pending[id], f), highest, pending)
  {
    var g, rest := Min(pending[id], f), pending - {id};
    forall other | other in pending ensures g <= pending[other] {
      if other != id {
        assert other in rest && rest[other] == pending[other];
      }
    }
    if g != highest && g != pending[id] {
      var other :| other in rest && rest[other] == f;
      assert other in pending && pending[other] == g;
    }
  }

  ghost function Frontier(highest: nat, pending: map<string, nat>): (f: nat)
    ensures IsFrontier(f, highest, pending)
    decreases |pending|
  {
    if pending == map[] then highest
    else
      var id :| id in pending;
      var rest := pending - {id};
      assert |rest| < |pending| by { assert pending == rest[id := pending[id]]; }
      var f := Frontier(highest, rest);
      OneMorePending(f, highest, pending, id);
      Min(pending[id], f)
  }

  function From(resolved: map<string, nat>, safe: nat): map<string, nat> {
    map id | id in resolved && resolved[id] >= safe :: resolved[id]
  }

  ghost function Persisted(b: Book): Book {
    var safe := Frontier(b.highest, b.pending);
    b.(resolved := From(b.resolved, safe), store := Some(Record(safe, From(b.resolved, safe))))
  }

  ghost function Acked(b: Book, end: nat): Book {
    Persisted(b.(highest := Max(b.highest, end)))
  }

  ghost function Began(b: Book, id: string, start: nat): Book {
    Persisted(b.(pending := b.pending[id := start]))
  }

  ghost function Answered(b: Book, id: string, start: nat, end: nat): Book {
    Persisted(b.(pending := b.pending - {id}, resolved := b.resolved[id := start], highest := Max(b.highest, end)))
  }

  ghost function Handled(b: Book, suppress: set<string>, l: Entry): Book {
    if l.request.Some? && l.request.value !in suppress then Began(b, l.request.value, l.start) else Acked(b, l.end)
  }

  class Client {
    var highestSeenOffset: nat
    var pendingAsync: map<string, nat>
    var resolved: map<string, nat>
    var store: Option<Record>
    const replaySuppress: set<string>

    function Abstract(): Book
      reads this
    {
      Book(highestSeenOffset, pendingAsync, resolved, store)
    }

    /** A new connection that honours the stored record. */
    constructor (store: Option<Record>)
      ensures Abstract() == Opened(store)
      ensures replaySuppress == Opened(store).resolved.Keys
    {
      highestSeenOffset, pendingAsync, this.store := 0, map[], store;
      resolved := if store.Some? then store.value.resolved else map[];
      replaySuppress := if store.Some? then store.value.resolved.Keys else {};
    }

    /** An overflow makes the stored record worthless. */
    method OnAttach(requested: int, start: nat)
      modifies this`store
      ensures Abstract() == old(Abstract()).(store := if requested >= 0 && start > requested then None else old(store))
    {
      if requested >= 0 && start > requested {
        store := None;
      }
    }

    /** A request already answered is not passed on again. */
    method HandleLine(l: Entry)
      modifies this
      ensures Abstract() == Handled(old(Abstract()), replaySuppress, l)
    {
      if l.request.Some? && l.request.value !in replaySuppress {
        BeginPending(l.request.value, l.start);
      } else {
        AdvanceAck(l.end);
      }
    }

    method AdvanceAck(end: nat)
      modifies this
      ensures Abstract() == Acked(old(Abstract()), end)
    {
      if end > highestSeenOffset {
        highestSeenOffset := end;
      }
      PersistSafeFrontier();
    }

    method BeginPending(id: string, start: nat)
      modifies this
      ensures Abstract() == Began(old(Abstract()), id, start)
    {
      pendingAsync := pendingAsync[id := start];
      PersistSafeFrontier();
    }

    method ResolvePending(id: string, start: nat, end: nat)
      modifies this
      ensures Abstract() == Answered(old(Abstract()), id, start, end)
    {
      pendingAsync := pendingAsync - {id};
      resolved := resolved[id := start];
      if end > highestSeenOffset {
        highestSeenOffset := end;
      }
      PersistSafeFrontier();
    }

    method PersistSafeFrontier()
      modifies this`resolved, this`store
      ensures Abstract() == Persisted(old(Abstract()))
    {
      var safe := highestSeenOffset;
      var todo := pendingAsync;
      while todo != map[]
        invariant todo.Keys <= pendingAsync.Keys && safe <= highestSeenOffset
        invariant forall id :: id in pendingAsync && id !in todo ==> safe <= pendingAsync[id]
        invariant safe == highestSeenOffset || exists id :: id in pendingAsync && pendingAsync[id] == safe
        decreases |todo.Keys|
      {
        var id :| id in todo;
        if pendingAsync[id] < safe {
          safe := pendingAsync[id];
        }
        todo := todo - {id};
      }
      assert safe == Frontier(highestSeenOffset, pendingAsync);
      Prune(safe);
      store := Some(Record(safe, resolved));
    }

    method Prune(safe: nat)
      modifies this`resolved
      ensures resolved == From(old(resolved), safe)
    {
      var todo := resolved.Keys;
      while todo != {}
        invariant todo <= resolved.Keys <= old(resolved.Keys)
        invariant forall id :: id in resolved ==> resolved[id] == old(resolved)[id]
        invariant forall id :: id in old(resolved) ==>
                    (id in resolved <==> id in todo || old(resolved)[id] >= safe)
        decreases |todo|
      {
        var id :| id in todo;
        if resolved[id] < safe {
          resolved := resolved - {id};
        }
        todo := todo - {id};
      }
    }
  }

  function Opened(store: Option<Record>): Book {
    Book(0, map[], if store.Some? then store.value.resolved else map[], store)
  }

  // ------------------------------------------------ one connection

  /** The child's output, line after line; request ids are not used twice. */
  ghost predicate Output(hist: seq<Entry>) {
    && (forall i :: 0 <= i < |hist| ==> Follows(hist, i))
    && (forall i, j :: 0 <= i < j < |hist| ==> Different(hist[i], hist[j]))
  }

  predicate Follows(hist: seq<Entry>, i: nat)
    requires i < |hist|
  {
    hist[i].start < hist[i].end && hist[i].start == Boundary(hist, i)
  }

  predicate Different(a: Entry, b: Entry) {
    a.request.Some? ==> a.request != b.request
  }

  /** The offset behind the first `k` lines. */
  function Boundary(hist: seq<Entry>, k: nat): nat
    requires k <= |hist|
  {
    if k == 0 then 0 else hist[k - 1].end
  }

  /** Lines `first` to `done` have been read on this connection; `answered` are the
      requests answered meanwhile. */
  datatype State = State(first: nat, done: nat, suppress: set<string>, b: Book, answered: set<string>)

  datatype Action = Next | Answer(i: nat)

  /** The record the client opened its connection with, the store cleared if the replay
      begins later than that. */
  ghost predicate Begins(hist: seq<Entry>, record: Option<Record>, s: State) {
    && s.first == s.done <= |hist| && s.answered == {}
    && s.b.(store := record) == Opened(record) && s.suppress == Opened(record).resolved.Keys
    && Offset(record) <= Boundary(hist, s.first)
  }

  function Offset(record: Option<Record>): nat {
    if record.Some? then record.value.offset else 0
  }

  /** Nothing of this line is left to be done. */
  predicate Settled(s: State, l: Entry) {
    l.request.Some? ==> l.request.value in s.suppress || l.request.value in s.answered
  }

  predicate Enabled(hist: seq<Entry>, s: State, a: Action) {
    match a
    case Next => s.done < |hist|
    case Answer(i) => s.first <= i < s.done <= |hist| && !Settled(s, hist[i])
  }

  ghost function Apply(hist: seq<Entry>, s: State, a: Action): State
    requires Enabled(hist, s, a)
  {
    match a
    case Next => s.(done := s.done + 1, b := Handled(s.b, s.suppress, hist[s.done]))
    case Answer(i) =>
      var id := hist[i].request.value;
      s.(b := Answered(s.b, id, hist[i].start, hist[i].end), answered := s.answered + {id})
  }

  ghost predicate Runs(hist: seq<Entry>, s: State, actions: seq<Action>, t: State)
    decreases |actions|
  {
    if actions == [] then s == t
    else Enabled(hist, s, actions[0]) && Runs(hist, Apply(hist, s, actions[0]), actions[1..], t)
  }

  // ------------------------------------------------ the invariant

  predicate Read(s: State, i: int) {
    s.first <= i < s.done
  }

  ghost predicate PendingRight(hist: seq<Entry>, s: State)
    requires s.done <= |hist|
  {
    && (forall i :: Read(s, i) && !Settled(s, hist[i]) ==>
          hist[i].request.value in s.b.pending && s.b.pending[hist[i].request.value] == hist[i].start)
    && (forall id :: id in s.b.pending ==>
          exists i :: Read(s, i) && hist[i].request == Some(id) && !Settled(s, hist[i]))
  }

  ghost predicate NoneSettled(hist: seq<Entry>, s: State)
    requires s.done <= |hist|
  {
    forall i :: Read(s, i) ==> !Settled(s, hist[i])
  }

  ghost predicate HighestRight(hist: seq<Entry>, s: State)
    requires s.done <= |hist|
  {
    && (forall i :: Read(s, i) && Settled(s, hist[i]) ==> hist[i].end <= s.b.highest)
    && (NoneSettled(hist, s) ==> s.b.highest == 0)
    && s.b.highest <= Boundary(hist, s.done)
    && (!NoneSettled(hist, s) ==> exists i :: Read(s, i) && Settled(s, hist[i]) && hist[i].end == s.b.highest)
  }

  /** The requests settled from the frontier on are remembered, and only settled ones. */
  ghost predicate ResolvedRight(hist: seq<Entry>, s: State) {
    forall i :: 0 <= i < |hist| && hist[i].request.Some? ==>
      var id := hist[i].request.value;
      && (id in s.b.resolved ==> s.b.resolved[id] == hist[i].start && Settled(s, hist[i]))
      && (Settled(s, hist[i]) && hist[i].start >= Frontier(s.b.highest, s.b.pending) ==> id in s.b.resolved)
  }

  ghost predicate StoreRight(s: State) {
    s.done > s.first ==> s.b.store == Some(Record(Frontier(s.b.highest, s.b.pending), s.b.resolved))
  }

  ghost predicate AnsweredRight(hist: seq<Entry>, s: State) {
    forall i :: 0 <= i < |hist| && hist[i].request.Some? && hist[i].request.value in s.answered ==> Read(s, i)
  }

  ghost predicate Inv(hist: seq<Entry>, s: State) {
    && s.first <= s.done <= |hist| && AnsweredRight(hist, s)
    && PendingRight(hist, s) && HighestRight(hist, s) && ResolvedRight(hist, s) && StoreRight(s)
  }

  /** A record knows of the answered requests from its offset on, at their places. */
  ghost predicate Right(hist: seq<Entry>, record: Option<Record>, answered: set<string>) {
    var resolved := Opened(record).resolved;
    forall i :: 0 <= i < |hist| && hist[i].request.Some? ==>
      var id := hist[i].request.value;
      && (id in resolved ==> resolved[id] == hist[i].start && id in answered)
      && (id in answered && hist[i].start >= Offset(record) ==> id in resolved)
  }

  // ------------------------------------------------ every step keeps it

  lemma {:induction false} LinesFollow(hist: seq<Entry>, i: nat, j: nat)
    requires Output(hist) && i < j < |hist|
    ensures hist[i].start < hist[i].end <= hist[j].start
    decreases j
  {
    assert Follows(hist, i) && Follows(hist, j);
    if i < j - 1 {
      LinesFollow(hist, i, j - 1);
      assert Follows(hist, j - 1);
    }
  }

  lemma BoundaryOf(hist: seq<Entry>, i: nat, k: nat)
    requires Output(hist) && i < k <= |hist|
    ensures hist[i].start < hist[i].end <= Boundary(hist, k)
  {
    assert Follows(hist, i) && Follows(hist, k - 1);
    if i < k - 1 {
      LinesFollow(hist, i, k - 1);
    }
  }

  lemma FrontierIs(f: nat, highest: nat, pending: map<string, nat>)
    requires IsFrontier(f, highest, pending)
    ensures f == Frontier(highest, pending)
  {
  }

  /** Only lines from the highest offset on are added. */
  lemma FrontierGrows(highest: nat, pending: map<string, nat>, highest': nat, pending': map<string, nat>)
    requires highest <= highest'
    requires forall id :: id in pending' ==> pending'[id] >= highest || (id in pending && pending[id] == pending'[id])
    ensures Frontier(highest, pending) <= Frontier(highest', pending')
  {
  }

  /** Different lines ask different things. */
  lemma SameRequest(hist: seq<Entry>, i: nat, j: nat)
    requires Output(hist) && i < |hist| && j < |hist| && hist[i].request.Some? && hist[i].request == hist[j].request
    ensures i == j
  {
    assert i < j ==> Different(hist[i], hist[j]);
    assert j < i ==> Different(hist[j], hist[i]);
  }

  lemma NextPending(hist: seq<Entry>, s: State)
    requires Output(hist) && Inv(hist, s) && Enabled(hist, s, Next)
    ensures PendingRight(hist, Apply(hist, s, Next))
  {
    var t := Apply(hist, s, Next);
    forall i | Read(t, i) && !Settled(t, hist[i])
      ensures hist[i].request.value in t.b.pending && t.b.pending[hist[i].request.value] == hist[i].start
    {
      assert i < s.done ==> Read(s, i) && Different(hist[i], hist[s.done]);
    }
    forall id | id in t.b.pending
      ensures exists i :: Read(t, i) && hist[i].request == Some(id) && !Settled(t, hist[i])
    {
      if id in s.b.pending {
        var i :| Read(s, i) && hist[i].request == Some(id) && !Settled(s, hist[i]);
        assert Read(t, i) && !Settled(t, hist[i]);
      } else {
        assert Read(t, s.done) && hist[s.done].request == Some(id) && !Settled(t, hist[s.done]);
      }
    }
  }

  lemma NextHighest(hist: seq<Entry>, s: State)
    requires Output(hist) && Inv(hist, s) && Enabled(hist, s, Next)
    ensures HighestRight(hist, Apply(hist, s, Next))
  {
    var t, l := Apply(hist, s, Next), hist[s.done];
    assert Follows(hist, s.done) && Boundary(hist, t.done) == l.end;
    assert Read(t, s.done);
    assert t.b.highest == if Settled(s, l) then Max(s.b.highest, l.end) else s.b.highest;
    forall i | Read(t, i) && Settled(t, hist[i]) ensures hist[i].end <= t.b.highest {
      if i < s.done {
        assert Read(s, i) && Settled(s, hist[i]);
      }
    }
    NextNoneSettled(hist, s);
    if !NoneSettled(hist, t) && !Settled(s, l) {
      var j :| Read(s, j) && Settled(s, hist[j]) && hist[j].end == s.b.highest;
      assert Read(t, j) && Settled(t, hist[j]);
    }
  }

  lemma NextNoneSettled(hist: seq<Entry>, s: State)
    requires Inv(hist, s) && Enabled(hist, s, Next)
    ensures NoneSettled(hist, Apply(hist, s, Next)) <==> NoneSettled(hist, s) && !Settled(s, hist[s.done])
  {
    var t := Apply(hist, s, Next);
    if NoneSettled(hist, t) {
      assert Read(t, s.done);
      forall i | Read(s, i) ensures !Settled(s, hist[i]) {
        assert Read(t, i);
      }
    }
  }

  lemma NextResolved(hist: seq<Entry>, s: State)
    requires Output(hist) && Inv(hist, s) && Enabled(hist, s, Next)
    ensures ResolvedRight(hist, Apply(hist, s, Next))
  {
    var t := Apply(hist, s, Next);
    assert Follows(hist, s.done);
    FrontierGrows(s.b.highest, s.b.pending, t.b.highest, t.b.pending);
  }

  lemma AnswerPending(hist: seq<Entry>, s: State, k: nat)
    requires Output(hist) && Inv(hist, s) && Enabled(hist, s, Answer(k))
    ensures PendingRight(hist, Apply(hist, s, Answer(k)))
  {
    var t, id := Apply(hist, s, Answer(k)), hist[k].request.value;
    forall i | Read(t, i) && !Settled(t, hist[i])
      ensures hist[i].request.value in t.b.pending && t.b.pending[hist[i].request.value] == hist[i].start
    {
      assert Read(s, i) && !Settled(s, hist[i]);
    }
    forall other | other in t.b.pending
      ensures exists i :: Read(t, i) && hist[i].request == Some(other) && !Settled(t, hist[i])
    {
      var i :| Read(s, i) && hist[i].request == Some(other) && !Settled(s, hist[i]);
      assert Read(t, i) && !Settled(t, hist[i]);
    }
  }

  lemma AnswerSettles(hist: seq<Entry>, s: State, k: nat, i: nat)
    requires Output(hist) && Enabled(hist, s, Answer(k)) && i < |hist|
    ensures Settled(Apply(hist, s, Answer(k)), hist[i]) <==> i == k || Settled(s, hist[i])
  {
    assert i < k ==> Different(hist[i], hist[k]);
    assert k < i ==> Different(hist[k], hist[i]);
  }

  lemma AnswerHighest(hist: seq<Entry>, s: State, k: nat)
    requires Output(hist) && Inv(hist, s) && Enabled(hist, s, Answer(k))
    ensures HighestRight(hist, Apply(hist, s, Answer(k)))
  {
    var t := Apply(hist, s, Answer(k));
    BoundaryOf(hist, k, s.done);
    assert Read(t, k) && Settled(t, hist[k]);
    forall i | Read(t, i) && Settled(t, hist[i]) ensures hist[i].end <= t.b.highest {
      assert Read(s, i);
      AnswerSettles(hist, s, k, i);
    }
    if t.b.highest != hist[k].end {
      var j :| Read(s, j) && Settled(s, hist[j]) && hist[j].end == s.b.highest;
      assert Read(t, j) && Settled(t, hist[j]);
    }
  }

  lemma AnswerRead(hist: seq<Entry>, s: State, k: nat)
    requires Output(hist) && Inv(hist, s) && Enabled(hist, s, Answer(k))
    ensures AnsweredRight(hist, Apply(hist, s, Answer(k)))
  {
    forall i | 0 <= i < |hist| && hist[i].request == hist[k].request ensures Read(s, i) {
      SameRequest(hist, i, k);
    }
  }

  lemma AnswerResolved(hist: seq<Entry>, s: State, k: nat)
    requires Output(hist) && Inv(hist, s) && Enabled(hist, s, Answer(k))
    ensures ResolvedRight(hist, Apply(hist, s, Answer(k)))
  {
    var t, id := Apply(hist, s, Answer(k)), hist[k].request.value;
    FrontierGrows(s.b.highest, s.b.pending, t.b.highest, t.b.pending);
    forall i | 0 <= i < |hist| && hist[i].request.Some?
      ensures var r := hist[i].request.value;
              && (r in t.b.resolved ==> t.b.resolved[r] == hist[i].start && Settled(t, hist[i]))
              && (Settled(t, hist[i]) && hist[i].start >= Frontier(t.b.highest, t.b.pending) ==> r in t.b.resolved)
    {
      if hist[i].request == hist[k].request {
        SameRequest(hist, i, k);
      }
    }
  }

  lemma ApplyKeeps(hist: seq<Entry>, s: State, a: Action)
    requires Output(hist) && Inv(hist, s) && Enabled(hist, s, a)
    ensures Inv(hist, Apply(hist, s, a))
  {
    match a
    case Next =>
      NextPending(hist, s);
      NextHighest(hist, s);
      NextResolved(hist, s);
    case Answer(i) =>
      AnswerRead(hist, s, i);
      AnswerPending(hist, s, i);
      AnswerHighest(hist, s, i);
      AnswerResolved(hist, s, i);
  }

  lemma BeginsRight(hist: seq<Entry>, record: Option<Record>, answered: set<string>, s: State)
    requires Output(hist) && Begins(hist, record, s) && Right(hist, record, answered)
    ensures Inv(hist, s)
  {
    assert NoneSettled(hist, s);
  }

  lemma {:induction false} RunKeeps(hist: seq<Entry>, s: State, actions: seq<Action>, t: State)
    requires Output(hist) && Inv(hist, s) && Runs(hist, s, actions, t)
    ensures Inv(hist, t) && t.first == s.first && t.suppress == s.suppress && s.answered <= t.answered
    decreases |actions|
  {
    if actions != [] {
      ApplyKeeps(hist, s, actions[0]);
      RunKeeps(hist, Apply(hist, s, actions[0]), actions[1..], t);
    }
  }

  // ------------------------------------------------ what is stored

  /** The first line read on this connection that is not settled. */
  function FirstOpen(hist: seq<Entry>, s: State, from: nat): (k: nat)
    requires from <= s.done <= |hist|
    ensures from <= k <= s.done
    decreases s.done - from
  {
    if from < s.done && Settled(s, hist[from]) then FirstOpen(hist, s, from + 1) else from
  }

  lemma {:induction false} FirstOpenIs(hist: seq<Entry>, s: State, from: nat)
    requires from <= s.done <= |hist|
    ensures var k := FirstOpen(hist, s, from);
            && (forall i :: from <= i < k ==> Settled(s, hist[i]))
            && (k < s.done ==> !Settled(s, hist[k]))
    decreases s.done - from
  {
    if from < s.done && Settled(s, hist[from]) {
      FirstOpenIs(hist, s, from + 1);
    }
  }

  lemma FrontierAtOpen(hist: seq<Entry>, s: State)
    requires Output(hist) && Inv(hist, s) && !NoneSettled(hist, s)
    ensures Frontier(s.b.highest, s.b.pending) == Boundary(hist, FirstOpen(hist, s, s.first))
  {
    var k := FirstOpen(hist, s, s.first);
    FirstOpenIs(hist, s, s.first);
    var f := Boundary(hist, k);
    PendingLater(hist, s, k);
    HighestLater(hist, s, k);
    if k < s.done {
      assert Follows(hist, k);
      assert Read(s, k) && s.b.pending[hist[k].request.value] == f;
    }
    FrontierIs(f, s.b.highest, s.b.pending);
  }

  lemma PendingLater(hist: seq<Entry>, s: State, k: nat)
    requires Output(hist) && Inv(hist, s) && s.first <= k <= s.done
    requires forall i :: s.first <= i < k ==> Settled(s, hist[i])
    ensures forall id :: id in s.b.pending ==> Boundary(hist, k) <= s.b.pending[id]
  {
    forall id | id in s.b.pending ensures Boundary(hist, k) <= s.b.pending[id] {
      var i :| Read(s, i) && hist[i].request == Some(id) && !Settled(s, hist[i]);
      assert Follows(hist, k);
      if k < i {
        LinesFollow(hist, k, i);
      }
    }
  }

  lemma HighestLater(hist: seq<Entry>, s: State, k: nat)
    requires Output(hist) && Inv(hist, s) && s.first <= k <= s.done && !NoneSettled(hist, s)
    requires forall i :: s.first <= i < k ==> Settled(s, hist[i])
    ensures Boundary(hist, k) <= s.b.highest
  {
    var j :| Read(s, j) && Settled(s, hist[j]) && hist[j].end == s.b.highest;
    if j < k {
      assert Read(s, k - 1) && Settled(s, hist[k - 1]);
    } else {
      assert Follows(hist, k) && Follows(hist, j);
      if k < j {
        LinesFollow(hist, k, j);
      }
    }
  }

  /** What the store holds once a line has been read is where the first line begins that
      is not settled, so that resuming there loses nothing and repeats no settled line
      before it, iff some line of this connection is settled or it began at the very
      first byte. Otherwise it is 0, although the lines before were settled long ago. */
  lemma StoredOffset(
      hist: seq<Entry>, record: Option<Record>, answered: set<string>, s: State, actions: seq<Action>, t: State)
    requires Output(hist) && Begins(hist, record, s) && Right(hist, record, answered)
    requires Runs(hist, s, actions, t) && t.done > t.first
    ensures t.first <= t.done <= |hist| && FirstOpen(hist, t, t.first) <= |hist| && t.b.store.Some?
    ensures t.b.store.value.offset == Boundary(hist, FirstOpen(hist, t, t.first)) <==>
            Boundary(hist, t.first) == 0 || !NoneSettled(hist, t)
    ensures NoneSettled(hist, t) ==> t.b.store.value.offset == 0
  {
    BeginsRight(hist, record, answered, s);
    RunKeeps(hist, s, actions, t);
    FirstOpenIs(hist, t, t.first);
    if NoneSettled(hist, t) {
      assert Read(t, t.first);
    } else {
      FrontierAtOpen(hist, t);
    }
  }

  /** In terms of the lines a connection handled: the stored offset is where a client
      stands that has handled the settled ones. */
  lemma StoredIsWhereItStands(hist: seq<Entry>, s: State, lines: seq<Line>)
    requires Output(hist) && Inv(hist, s) && !NoneSettled(hist, s) && s.done > s.first
    requires |lines| == s.done - s.first
    requires forall i :: 0 <= i < |lines| ==> lines[i].end == hist[s.first + i].end
    ensures var settled := FirstOpen(hist, s, s.first) - s.first;
            s.b.store.Some? && s.b.store.value.offset == ResumeAfter(Boundary(hist, s.first), lines[..settled])
  {
    FrontierAtOpen(hist, s);
  }

  // ------------------------------------------------ and what it remembers

  /** An answered request the record no longer knows. */
  ghost predicate Forgotten(hist: seq<Entry>, record: Option<Record>, answered: set<string>) {
    exists i :: 0 <= i < |hist| && hist[i].request.Some?
                && hist[i].request.value in answered && hist[i].request.value !in Opened(record).resolved
  }

  /** From a right record to a right one: a request answered on this connection or before
      is known to the next one, if its line will come again, iff some line was settled
      or the record still knew them all. */
  lemma AnsweredStaysAnswered(
      hist: seq<Entry>, record: Option<Record>, answered: set<string>, s: State, actions: seq<Action>, t: State)
    requires Output(hist) && Begins(hist, record, s) && Right(hist, record, answered)
    requires Runs(hist, s, actions, t) && t.done > t.first
    ensures t.done <= |hist|
    ensures Right(hist, t.b.store, answered + t.answered) <==>
            !NoneSettled(hist, t) || !Forgotten(hist, record, answered)
  {
    BeginsRight(hist, record, answered, s);
    RunKeeps(hist, s, actions, t);
    if NoneSettled(hist, t) {
      assert Frontier(t.b.highest, t.b.pending) == 0;
      NothingForgotten(hist, record, answered, t);
    } else {
      FirstOpenIs(hist, t, t.first);
      FrontierAtOpen(hist, t);
      StillRight(hist, record, answered, t);
    }
  }

  lemma BoundaryGrows(hist: seq<Entry>, i: nat, k: nat)
    requires Output(hist) && i <= k <= |hist|
    ensures Boundary(hist, i) <= Boundary(hist, k)
  {
    if 0 < i < k {
      BoundaryOf(hist, i - 1, k);
    }
  }

  lemma StillRight(hist: seq<Entry>, record: Option<Record>, answered: set<string>, t: State)
    requires Output(hist) && Inv(hist, t) && Right(hist, record, answered) && t.done > t.first
    requires t.suppress == Opened(record).resolved.Keys && Offset(record) <= Boundary(hist, t.first)
    requires Frontier(t.b.highest, t.b.pending) == Boundary(hist, FirstOpen(hist, t, t.first))
    ensures Right(hist, t.b.store, answered + t.answered)
  {
    BoundaryGrows(hist, t.first, FirstOpen(hist, t, t.first));
  }

  lemma NothingForgotten(hist: seq<Entry>, record: Option<Record>, answered: set<string>, t: State)
    requires Output(hist) && Inv(hist, t) && Right(hist, record, answered) && t.done > t.first
    requires t.suppress == Opened(record).resolved.Keys && Frontier(t.b.highest, t.b.pending) == 0
    requires NoneSettled(hist, t)
    ensures Right(hist, t.b.store, answered + t.answered) <==> !Forgotten(hist, record, answered)
  {
    if Forgotten(hist, record, answered) {
      var i :| 0 <= i < |hist| && hist[i].request.Some?
               && hist[i].request.value in answered && hist[i].request.value !in Opened(record).resolved;
      if hist[i].request.value in t.answered {
        assert Read(t, i) && Settled(t, hist[i]);
      }
      assert hist[i].request.value !in t.b.resolved;
    }
  }

  lemma FirstConnection(hist: seq<Entry>) returns (s: State, t: State)
    requires hist == [Entry(0, 10, Some("a")), Entry(10, 20, Some("b"))]
    ensures Begins(hist, None, s) && Runs(hist, s, [Next, Answer(0), Next], t) && "a" in t.answered
    ensures t.b.store == Some(Record(10, map[]))
  {
    s := State(0, 0, {}, Opened(None), {});
    var s1 := Apply(hist, s, Next);
    var s2 := Apply(hist, s1, Answer(0));
    t := Apply(hist, s2, Next);
    assert [Next, Answer(0), Next][1..] == [Answer(0), Next] && [Answer(0), Next][1..] == [Next];
    assert Runs(hist, s2, [Next], t) && Runs(hist, s1, [Answer(0), Next], t);
  }

  /** Both can go wrong. Request "a" is answered; "b", the next line, is still pending
      when the client restarts. The second connection begins with "b" and stores offset
      0; the third begins there and asks for "a" again. */
  lemma AskedAgain()
    returns (hist: seq<Entry>, s: State, t: State, u: State, v: State, w: State)
    ensures Output(hist)
    ensures Begins(hist, None, s) && Runs(hist, s, [Next, Answer(0), Next], t) && "a" in t.answered
    ensures t.b.store == Some(Record(10, map[]))
    ensures Begins(hist, t.b.store, u) && Runs(hist, u, [Next], v)
    ensures v.b.store == Some(Record(0, map[]))
    ensures Begins(hist, v.b.store, w) && w.first == 0
    ensures Enabled(hist, w, Next) && "a" in Apply(hist, w, Next).b.pending
  {
    hist := [Entry(0, 10, Some("a")), Entry(10, 20, Some("b"))];
    s, t := FirstConnection(hist);
    u := State(1, 1, {}, Opened(t.b.store), {});
    v := Apply(hist, u, Next);
    w := State(0, 0, {}, Opened(v.b.store), {});
  }
}
