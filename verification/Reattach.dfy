/** Clients that come back: a chain of connections over one run of the server, each
    asking for the offset the client expects next, each stream cut anywhere. */
module Reattach {
  import opened Bytes
  import opened Options
  import opened Ring
  import opened Delivery
  import opened DeliverySafety
  import opened DeliveryRuns
  import opened PipeClient
  import opened Reconnect
  import P = Protocol

  /** One connection of the client, seen at the moment it stopped reading: the state of
      the server, the connection, its frames on the wire, and how many bytes of them
      had arrived. */
  datatype Visit = Visit(end: State, h: nat, frames: seq<P.Frame>, cut: nat)

  ghost predicate Readable(v: Visit) {
    && v.h < |v.end.handlers| && OnWire(v.frames, v.end.handlers[v.h].sent)
    && P.AllSendable(v.frames) && v.cut <= |P.StreamBytes(v.frames)|
  }

  /** The stdout chunks the client took from the connection. */
  ghost function Got(v: Visit): seq<Chunk>
    requires Readable(v)
  {
    Received(P.ReadAll(P.StreamBytes(v.frames)[..v.cut]).0, Out)
  }

  /** Subscription `i` is the stdout subscription of this connection. */
  ghost predicate Took(v: Visit, i: nat) {
    i < |v.end.subs| && v.end.subs[i].owner == v.h && v.end.subs[i].stream == Out
  }

  /** A client connects after `s`, sends at most one ATTACH, for `asked` (a negative
      offset asks for all the ring has), and reads until `v.end`. */
  ghost predicate Visited(s: State, asked: int, v: Visit) {
    && (exists actions :: Runs(s, actions, v.end))
    && |s.handlers| <= v.h && Readable(v)
    && v.end.handlers[v.h].Taken(Out) <= 1
    && forall i: nat :: Took(v, i) ==> v.end.subs[i].asked == asked
  }

  /** The byte the client asked for had left the ring when its ATTACH was served. */
  ghost predicate Evicted(v: Visit, next: nat) {
    exists i: nat :: Took(v, i) && LetGo(v.end.capacity, v.end.out, v.end.subs[i].replay, next)
  }

  /** When the replay was taken the ring had let go of byte `next`. */
  predicate LetGo(capacity: nat, history: seq<byte>, replay: Chunk, next: nat) {
    replay.End() <= |history| && next < Oldest(capacity, history[..replay.End()])
  }

  // ------------------------------------------------ one connection

  lemma VisitReach(s: State, asked: int, v: Visit)
    requires DeliverySafety.Reachable(s) && Visited(s, asked, v)
    ensures DeliverySafety.Reachable(v.end) && Inv(v.end) && Inv(s) && Grows(s, v.end)
    ensures AllTickets(v.end) && AllOwned(v.end)
  {
    var actions :| Runs(s, actions, v.end);
    ReachableOn(s, actions, v.end);
    RunGrows(s, actions, v.end);
    ReachableTickets(v.end);
    ReachableInv(s);
    ReachableInv(v.end);
  }

  lemma VisitTrue(v: Visit)
    requires DeliverySafety.Reachable(v.end) && Readable(v)
    ensures AllTrue(Got(v), v.end.out)
    ensures Got(v) <= Chunks(v.end.handlers[v.h].sent, Out)
  {
    ClientSeesTruth(v.end, v.h, v.frames, v.cut, Out);
  }

  /** What arrives begins with the replay of the connection's one subscription. */
  lemma FirstIsReplay(v: Visit) returns (i: nat)
    requires DeliverySafety.Reachable(v.end) && Inv(v.end) && AllOwned(v.end) && Readable(v)
    requires v.end.handlers[v.h].Taken(Out) <= 1 && Got(v) != []
    ensures Took(v, i) && Got(v)[0] == v.end.subs[i].replay
    ensures forall j :: Took(v, j) ==> j == i
  {
    VisitTrue(v);
    assert Owns(v.end, v.h, Out);
    i :| 0 <= i < |v.end.subs| && v.end.subs[i].owner == v.h && v.end.subs[i].stream == Out;
    assert Chunks(v.end.handlers[v.h].sent, Out) == Shown(v.end.subs[i]);
  }

  lemma TookLate(s: State, v: Visit, i: nat)
    requires Inv(s) && Grows(s, v.end) && |s.handlers| <= v.h && Took(v, i)
    ensures |s.out| <= v.end.subs[i].replay.End()
  {
  }

  /** What the ring still has only moves forward. */
  lemma OldestGrows(capacity: nat, was: seq<byte>, later: seq<byte>)
    requires |was| <= |later|
    ensures Oldest(capacity, was) <= Oldest(capacity, later)
  {
  }

  /** The replay of any connection is what the ring gave for the offset asked for, at
      some moment of the connection. */
  lemma ReplayBegins(s: State, asked: int, v: Visit) returns (i: nat)
    requires DeliverySafety.Reachable(s) && Visited(s, asked, v) && Got(v) != []
    ensures Took(v, i) && Got(v)[0] == v.end.subs[i].replay && (forall j :: Took(v, j) ==> j == i)
    ensures var at := Got(v)[0].End();
            && |s.out| <= at <= |v.end.out|
            && Got(v)[0].offset == ReplayStart(v.end.capacity, v.end.out[..at], asked)
    ensures v.end.capacity == s.capacity
  {
    VisitReach(s, asked, v);
    i := FirstIsReplay(v);
    TookLate(s, v, i);
    assert Ticket(v.end.capacity, v.end.out, v.end.subs[i]);
  }

  /** The replay of a re-attach: it begins where the ring's clamp puts the byte asked
      for, never before it; the client misses exactly what lies between, and that is
      nothing iff that byte had not been evicted when the ATTACH was served. */
  lemma ReattachLoss(s: State, next: nat, v: Visit) returns (at: nat)
    requires DeliverySafety.Reachable(s) && Visited(s, next, v) && next <= |s.out|
    requires Got(v) != []
    ensures |s.out| <= at <= |v.end.out|
    ensures Got(v)[0].offset == ReplayStart(v.end.capacity, v.end.out[..at], next)
    ensures next <= Got(v)[0].offset
    ensures Got(v)[0].offset == next <==> !Evicted(v, next)
    ensures Got(v)[0].offset > next ==> Got(v)[0].offset <= Oldest(v.end.capacity, v.end.out)
  {
    var _ := ReplayBegins(s, next, v);
    at := Got(v)[0].End();
    ReplayLoss(v.end.capacity, v.end.out[..at], next);
    OldestGrows(v.end.capacity, v.end.out[..at], v.end.out);
  }

  /** A client that asks for all there is gets the oldest byte retained, which is no
      older than what was retained before. */
  lemma OldestReplay(s: State, asked: int, v: Visit, at: nat)
    requires DeliverySafety.Reachable(s) && Visited(s, asked, v) && asked < 0
    requires Got(v) != [] && at <= Oldest(s.capacity, s.out)
    ensures at <= Got(v)[0].offset <= Oldest(v.end.capacity, v.end.out)
    ensures Got(v)[0].offset == at <==> !Evicted(v, at)
  {
    var _ := ReplayBegins(s, asked, v);
    var end := Got(v)[0].End();
    OldestGrows(s.capacity, s.out, v.end.out[..end]);
    OldestGrows(s.capacity, v.end.out[..end], v.end.out);
  }

  // ------------------------------------------------ a client that keeps bytes

  ghost function NextOf(next: nat, got: seq<Chunk>): nat {
    if got == [] then next else got[0].offset + |Accepted(got)|
  }

  /** The client asks for the offset it expects, or for all there is while it has
      nothing. */
  ghost predicate Comes(s: State, next: nat, v: Visit) {
    Visited(s, next, v) || (next == 0 && Visited(s, -1, v))
  }

  /** Any number of connections, each asking for the byte after the last contiguous
      one. */
  ghost predicate Travels(s: State, next: nat, visits: seq<Visit>)
    decreases |visits|
  {
    visits == [] ||
    (Comes(s, next, visits[0]) && Travels(visits[0].end, NextOf(next, Got(visits[0])), visits[1..]))
  }

  ghost function Final(s: State, visits: seq<Visit>): State
    decreases |visits|
  {
    if visits == [] then s else Final(visits[0].end, visits[1..])
  }

  /** What arrived, connection by connection. */
  ghost function Arrived(s: State, next: nat, visits: seq<Visit>): seq<seq<Chunk>>
    requires Travels(s, next, visits)
    decreases |visits|
  {
    if visits == [] then []
    else [Got(visits[0])] + Arrived(visits[0].end, NextOf(next, Got(visits[0])), visits[1..])
  }

  /** No connection that got anything asked for a byte already evicted. */
  ghost predicate NoneEvicted(s: State, next: nat, visits: seq<Visit>)
    requires Travels(s, next, visits)
    decreases |visits|
  {
    visits == [] ||
    (&& (Got(visits[0]) != [] ==> !Evicted(visits[0], next))
     && NoneEvicted(visits[0].end, NextOf(next, Got(visits[0])), visits[1..]))
  }

  lemma TrueLater(log: seq<Chunk>, history: seq<byte>, later: seq<byte>)
    requires AllTrue(log, history) && history <= later
    ensures AllTrue(log, later)
  {
    assert later == history + later[|history|..];
    AllTrueGrows(log, history, later[|history|..]);
  }

  lemma NextFits(next: nat, got: seq<Chunk>, history: seq<byte>)
    requires AllTrue(got, history) && next <= |history|
    ensures NextOf(next, got) <= |history|
  {
    if got != [] {
      assert got[0].TrueIn(history);
      AcceptedIsHistory(got[0].offset, got, history);
    }
  }

  lemma OneVisit(s: State, asked: int, v: Visit)
    requires DeliverySafety.Reachable(s) && Visited(s, asked, v)
    ensures DeliverySafety.Reachable(v.end) && s.out <= v.end.out && s.capacity == v.end.capacity
    ensures AllTrue(Got(v), v.end.out)
  {
    VisitReach(s, asked, v);
    VisitTrue(v);
  }

  lemma OneTravel(s: State, next: nat, v: Visit)
    requires DeliverySafety.Reachable(s) && Comes(s, next, v) && next <= |s.out|
    ensures DeliverySafety.Reachable(v.end) && s.out <= v.end.out && s.capacity == v.end.capacity
    ensures AllTrue(Got(v), v.end.out) && NextOf(next, Got(v)) <= |v.end.out|
    ensures Got(v) != [] ==> next <= Got(v)[0].offset && (Got(v)[0].offset == next <==> !Evicted(v, next))
  {
    OneVisit(s, if Visited(s, next, v) then next else -1, v);
    NextFits(next, Got(v), v.end.out);
    if Got(v) != [] {
      if Visited(s, next, v) {
        var _ := ReattachLoss(s, next, v);
      } else {
        OldestReplay(s, -1, v, next);
      }
    }
  }

  lemma VisitsCons(history: seq<byte>, next: nat, got: seq<Chunk>, rest: seq<seq<Chunk>>)
    requires AllTrue(got, history) && (got != [] ==> next <= got[0].offset)
    requires Visits(history, NextOf(next, got), rest)
    ensures Visits(history, next, [got] + rest)
    ensures Missed(next, Held(next, [got] + rest)) ==
            (if got == [] then 0 else got[0].offset - next) + Missed(NextOf(next, got), Held(NextOf(next, got), rest))
  {
    var all := [got] + rest;
    assert all[1..] == rest && all[0] == got;
    if got != [] {
      var piece := Chunk(got[0].offset, Accepted(got));
      var held := [piece] + Held(piece.End(), rest);
      assert Held(next, all) == held;
      assert held[1..] == Held(piece.End(), rest);
    }
  }

  lemma TravelCons(v: Visit, next: nat, got: seq<Chunk>, history: seq<byte>, rest: seq<seq<Chunk>>)
    requires AllTrue(got, v.end.out) && v.end.out <= history && (got != [] ==> next <= got[0].offset)
    requires Visits(history, NextOf(next, got), rest)
    ensures Visits(history, next, [got] + rest)
    ensures Missed(next, Held(next, [got] + rest)) ==
            (if got == [] then 0 else got[0].offset - next) + Missed(NextOf(next, got), Held(NextOf(next, got), rest))
  {
    TrueLater(got, v.end.out, history);
    VisitsCons(history, next, got, rest);
  }

  /** What the server's runs give is what HeldIsTrueOnce asks for. */
  lemma {:induction false} TravelsAreVisits(s: State, next: nat, visits: seq<Visit>)
    requires DeliverySafety.Reachable(s) && next <= |s.out| && Travels(s, next, visits)
    ensures s.out <= Final(s, visits).out
    ensures var arrived, history := Arrived(s, next, visits), Final(s, visits).out;
            && next <= |history| && Visits(history, next, arrived)
            && Missed(next, Held(next, arrived)) >= 0
            && (Missed(next, Held(next, arrived)) == 0 <==> NoneEvicted(s, next, visits))
    decreases |visits|
  {
    if visits != [] {
      var v := visits[0];
      OneTravel(s, next, v);
      TravelsAreVisits(v.end, NextOf(next, Got(v)), visits[1..]);
      TravelCons(v, next, Got(v), Final(s, visits).out, Arrived(v.end, NextOf(next, Got(v)), visits[1..]));
    }
  }

  /** Over any run of the server and any number of connections, cut anywhere: what a
      client that re-attaches at its next expected byte holds is true, none of it twice;
      what it lacks is exactly what the replays skipped, which is nothing iff no byte
      asked for had been evicted; and then it holds the history itself. */
  lemma ReattachingClient(s: State, next: nat, visits: seq<Visit>)
    requires DeliverySafety.Reachable(s) && next <= |s.out| && Travels(s, next, visits)
    ensures var held, history := Held(next, Arrived(s, next, visits)), Final(s, visits).out;
            && AllTrue(held, history) && NoOverlap(next, held)
            && next <= NextAfter(next, held) <= |history|
            && |Joined(held)| + Missed(next, held) == NextAfter(next, held) - next
            && (Missed(next, held) == 0 <==> NoneEvicted(s, next, visits))
            && (NoneEvicted(s, next, visits) ==> Joined(held) == history[next..NextAfter(next, held)])
  {
    TravelsAreVisits(s, next, visits);
    HeldIsTrueOnce(Final(s, visits).out, next, Arrived(s, next, visits));
  }

  // ------------------------------------------------ a client that handles lines

  /** What PipeClient.Run handles of what arrived, an eviction or not. */
  ghost predicate Handles(v: Visit, lines: seq<Line>) {
    && Readable(v)
    && (Got(v) == [] ==> lines == [])
    && (Got(v) != [] ==> lines <= CutLines(Accepted(Got(v)), Got(v)[0].offset).lines)
  }

  /** The client asks for the offset it has stored, or for all there is. */
  function Ask(mark: Option<nat>): int {
    if mark.None? then -1 else mark.value
  }

  /** The stored offset after a connection: an overflow clears it, a line moves it. */
  ghost function MarkAfter(mark: Option<nat>, v: Visit, lines: seq<Line>): Option<nat>
    requires Readable(v)
  {
    if lines != [] then Some(lines[|lines| - 1].end)
    else if mark.Some? && Got(v) != [] && Got(v)[0].offset > mark.value then None
    else mark
  }

  ghost function SessionOf(v: Visit, lines: seq<Line>): Session
    requires Readable(v)
  {
    Session(Got(v), lines)
  }

  /** Any number of connections of a client that stores `mark` and stands at `at`. */
  ghost predicate Works(s: State, mark: Option<nat>, at: nat, visits: seq<Visit>, lines: seq<seq<Line>>)
    requires |visits| == |lines|
    decreases |visits|
  {
    visits == [] ||
    (&& Visited(s, Ask(mark), visits[0]) && Handles(visits[0], lines[0])
     && Works(visits[0].end, MarkAfter(mark, visits[0], lines[0]), SessionOf(visits[0], lines[0]).Next(at),
              visits[1..], lines[1..]))
  }

  /** The client stores where it stands, or stands no later than what the ring has. */
  predicate Stands(s: State, mark: Option<nat>, at: nat) {
    match mark
    case Some(m) => m == at && at <= |s.out|
    case None => at <= Oldest(s.capacity, s.out)
  }

  /** Where the replay of the next connection begins. */
  lemma ServedFrom(s: State, mark: Option<nat>, at: nat, v: Visit)
    requires DeliverySafety.Reachable(s) && Stands(s, mark, at) && Visited(s, Ask(mark), v) && Got(v) != []
    ensures at <= Got(v)[0].offset && (Got(v)[0].offset == at <==> !Evicted(v, at))
    ensures mark.None? || Got(v)[0].offset > at ==> Got(v)[0].offset <= Oldest(v.end.capacity, v.end.out)
  {
    match mark
    case Some(_) => var _ := ReattachLoss(s, at, v);
    case None => OldestReplay(s, -1, v, at);
  }

  /** A connection of the line client on the modelled server is a session that resumes
      no earlier than the client stands, and exactly there iff that byte had not been
      evicted; afterwards the client stands right again. */
  lemma ServedSession(s: State, mark: Option<nat>, at: nat, v: Visit, lines: seq<Line>)
    requires DeliverySafety.Reachable(s) && Stands(s, mark, at)
    requires Visited(s, Ask(mark), v) && Handles(v, lines)
    ensures DeliverySafety.Reachable(v.end) && s.out <= v.end.out
    ensures Served(v.end.out, SessionOf(v, lines)) && at <= SessionOf(v, lines).From(at)
    ensures SessionOf(v, lines).From(at) == at <==> Got(v) == [] || !Evicted(v, at)
    ensures Stands(v.end, MarkAfter(mark, v, lines), SessionOf(v, lines).Next(at))
  {
    OneVisit(s, Ask(mark), v);
    OldestGrows(s.capacity, s.out, v.end.out);
    if Got(v) != [] {
      ServedFrom(s, mark, at, v);
    }
    OneSession(v.end.out, at, SessionOf(v, lines));
  }

  ghost function SessionsOf(
      s: State, mark: Option<nat>, at: nat, visits: seq<Visit>, lines: seq<seq<Line>>): seq<Session>
    requires |visits| == |lines| && Works(s, mark, at, visits, lines)
    decreases |visits|
  {
    if visits == [] then []
    else
      var first := SessionOf(visits[0], lines[0]);
      [first] + SessionsOf(visits[0].end, MarkAfter(mark, visits[0], lines[0]), first.Next(at), visits[1..], lines[1..])
  }

  /** No connection asked for a byte that had been evicted and belongs to a complete
      line of `history`. */
  ghost predicate NoLineEvicted(
      s: State, mark: Option<nat>, at: nat, visits: seq<Visit>, lines: seq<seq<Line>>, history: seq<byte>)
    requires |visits| == |lines| && Works(s, mark, at, visits, lines)
    decreases |visits|
  {
    visits == [] ||
    (var first := SessionOf(visits[0], lines[0]);
     && (Got(visits[0]) != [] && Evicted(visits[0], at) ==> at <= |history| && NEWLINE !in history[at..])
     && NoLineEvicted(visits[0].end, MarkAfter(mark, visits[0], lines[0]), first.Next(at), visits[1..], lines[1..],
                      history))
  }

  lemma ServedLater(history: seq<byte>, later: seq<byte>, s: Session)
    requires Served(history, s) && history <= later
    ensures Served(later, s)
  {
    TrueLater(s.frames, history, later);
  }

  lemma {:induction false} WorksAreSessions(
      s: State, mark: Option<nat>, at: nat, visits: seq<Visit>, lines: seq<seq<Line>>)
    requires DeliverySafety.Reachable(s) && Stands(s, mark, at)
    requires |visits| == |lines| && Works(s, mark, at, visits, lines)
    ensures s.out <= Final(s, visits).out
    ensures var history, ss := Final(s, visits).out, SessionsOf(s, mark, at, visits, lines);
            && Sessions(history, at, ss)
            && (NoLineSkipped(history, at, ss) <==> NoLineEvicted(s, mark, at, visits, lines, history))
    decreases |visits|
  {
    if visits != [] {
      var v, first := visits[0], SessionOf(visits[0], lines[0]);
      var mark', at' := MarkAfter(mark, v, lines[0]), first.Next(at);
      ServedSession(s, mark, at, v, lines[0]);
      WorksAreSessions(v.end, mark', at', visits[1..], lines[1..]);
      ServedLater(v.end.out, Final(s, visits).out, first);
      var rest := SessionsOf(v.end, mark', at', visits[1..], lines[1..]);
      assert ([first] + rest)[1..] == rest;
    }
  }

  /** Over any run of the server and any number of connections, cut anywhere and ended
      by drops, disconnects or a refused line, evictions included: every session hands
      over to its successor exactly the lines it did not handle of those from where its
      replay began; and the lines handled are those of the child's output, each once and
      in order, with the rest still to come, iff no eviction hit a complete line. */
  lemma LinesHandledOnce(s: State, mark: Option<nat>, at: nat, visits: seq<Visit>, lines: seq<seq<Line>>)
    requires DeliverySafety.Reachable(s) && Stands(s, mark, at)
    requires |visits| == |lines| && Works(s, mark, at, visits, lines)
    ensures var history, ss := Final(s, visits).out, SessionsOf(s, mark, at, visits, lines);
            && at <= LastResume(at, ss) <= |history|
            && HandsOver(history, at, ss)
            && (LinesFrom(history, at) == AllHandled(ss) + LinesFrom(history, LastResume(at, ss)) <==>
                NoLineEvicted(s, mark, at, visits, lines, history))
  {
    WorksAreSessions(s, mark, at, visits, lines);
    OldestGrows(s.capacity, s.out, Final(s, visits).out);
    var history, ss := Final(s, visits).out, SessionsOf(s, mark, at, visits, lines);
    AllHandOver(history, at, ss);
    LinesAcrossReconnects(history, at, ss);
  }
}
