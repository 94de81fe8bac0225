/** The bounded output buffer of internal/ptyhost/ring.go. The specification is
    about `history`, every byte ever written; the class keeps only the last
    `capacity` of them in a circular array. */
module Ring {
  import opened Bytes

  const DEFAULT_RING_SIZE: nat := 0x10_0000  // 1 MiB
  const CHANNEL_SLOTS: nat := 256

  /** A run of bytes and the absolute offset of its first byte. */
  datatype Chunk = Chunk(offset: nat, data: seq<byte>)
  {
    function End(): nat {
      offset + |data|
    }

    /** The chunk holds what really was written at its offset. */
    ghost predicate TrueIn(history: seq<byte>) {
      End() <= |history| && data == history[offset..End()]
    }
  }

  /** The bytes of some chunks, one after the other. */
  function Joined(cs: seq<Chunk>): seq<byte> {
    if cs == [] then [] else Joined(cs[..|cs| - 1]) + cs[|cs| - 1].data
  }

  lemma {:induction false} JoinedCons(c: Chunk, rest: seq<Chunk>)
    ensures Joined([c] + rest) == c.data + Joined(rest)
    decreases |rest|
  {
    var all := [c] + rest;
    if rest == [] {
      assert all[..0] == [];
    } else {
      var n := |rest| - 1;
      JoinedCons(c, rest[..n]);
      assert all[..n + 1] == [c] + rest[..n] && all[n + 1] == rest[n];
      Assoc(c.data, Joined(rest[..n]), rest[n].data);
    }
  }

  function Used(capacity: nat, history: seq<byte>): nat {
    if |history| < capacity then |history| else capacity
  }

  /** The offset of the oldest byte still retained. */
  function Oldest(capacity: nat, history: seq<byte>): (o: nat)
    ensures o <= |history|
  {
    |history| - Used(capacity, history)
  }

  /** Where a replay asked to begin at `offset` really begins. */
  function ReplayStart(capacity: nat, history: seq<byte>, offset: int): (start: nat)
    ensures Oldest(capacity, history) <= start <= |history|
  {
    if offset < Oldest(capacity, history) then Oldest(capacity, history)
    else if offset > |history| then |history|
    else offset
  }

  /** The replay: true history from there to the newest byte. */
  function Replay(capacity: nat, history: seq<byte>, offset: int): (c: Chunk)
    ensures c.TrueIn(history) && c.End() == |history|
    ensures |c.data| <= capacity
  {
    var start := ReplayStart(capacity, history, offset);
    Chunk(start, history[start..])
  }

  /** A send that never blocks: a full channel loses the chunk. */
  function Offer(channel: seq<Chunk>, c: Chunk): seq<Chunk> {
    if |channel| < CHANNEL_SLOTS then channel + [c] else channel
  }

  /** A replay loses exactly the bytes [offset, start), and none at all exactly
      when `offset` has not been evicted. */
  lemma ReplayLoss(capacity: nat, history: seq<byte>, offset: nat)
    requires offset <= |history|
    ensures var c := Replay(capacity, history, offset);
            history[offset..] == if c.offset <= offset then c.data else history[offset..c.offset] + c.data
    ensures Replay(capacity, history, offset).offset >= offset
    ensures Replay(capacity, history, offset).offset == offset <==> offset >= Oldest(capacity, history)
  {
  }

  /** Where a replay begins and what it holds, for every offset a client can send: all
      that is retained when it is older than that, the rest of the history when it is
      not, and nothing when there is no byte at or behind it. */
  lemma ReplayCases(capacity: nat, history: seq<byte>, offset: int)
    ensures var c := Replay(capacity, history, offset);
            var oldest := if |history| <= capacity then 0 else |history| - capacity;
            && (offset <= oldest ==> c == Chunk(oldest, history[oldest..]))
            && (oldest <= offset <= |history| ==> c == Chunk(offset, history[offset..]))
            && (offset >= |history| ==> c == Chunk(|history|, []))
  {
    if offset >= |history| {
      assert history[|history|..] == [];
    }
  }

  /** The absolute offset that array position `j` stands for when `total` bytes
      have been written and the next one goes to position `head`: the latest lap
      for the positions before `head`, the lap before it for the others.
      Negative when that position has not been written yet. */
  function OffsetAt(capacity: nat, head: nat, total: nat, j: nat): int {
    if j < head then total - head + j else total - head + j - capacity
  }

  /** The array `b` holds the newest bytes of `history`. */
  ghost predicate Holds(b: seq<byte>, head: nat, history: seq<byte>)
    requires head <= |b|
  {
    forall j :: 0 <= j < |b| && OffsetAt(|b|, head, |history|, j) >= 0 ==>
      b[j] == history[OffsetAt(|b|, head, |history|, j)]
  }

  /** `c` is `b` with `p` written from `head` on, wrapping at the end. */
  ghost predicate WrittenAround(b: seq<byte>, c: seq<byte>, head: nat, p: seq<byte>)
    requires head < |b| && |p| < |b|
  {
    && |c| == |b|
    && forall j :: 0 <= j < |b| ==>
         c[j] == if head <= j < head + |p| then p[j - head]
                 else if j < head + |p| - |b| then p[|b| - head + j]
                 else b[j]
  }

  lemma HoldsTail(b: seq<byte>, history: seq<byte>, p: seq<byte>)
    requires |b| <= |p| && b == p[|p| - |b|..]
    ensures Holds(b, 0, history + p)
  {
  }

  lemma HoldsWritten(b: seq<byte>, c: seq<byte>, head: nat, history: seq<byte>, p: seq<byte>)
    requires head < |b| && |p| < |b|
    requires Holds(b, head, history) && WrittenAround(b, c, head, p)
    ensures Holds(c, Wrap(|b|, head, |p|), history + p)
  {
  }

  function Wrap(capacity: nat, head: nat, n: nat): nat
    requires head < capacity && n < capacity
  {
    if head + n < capacity then head + n else head + n - capacity
  }

  lemma WrapIsMod(capacity: nat, head: nat, n: nat)
    requires head < capacity && n < capacity
    ensures (head + n) % capacity == Wrap(capacity, head, n)
  {
    var q := (head + n) / capacity;
    assert head + n == q * capacity + (head + n) % capacity;
    MulMono(2, if q > 2 then q else 2, capacity);
  }

  lemma MulMono(a: nat, b: nat, c: nat)
    requires a <= b
    ensures a * c <= b * c
  {
  }

  /** The live end of an ATTACH: a buffered channel and a Done signal. */
  class Subscription {
    var ch: seq<Chunk>
    var done: bool

    constructor ()
      ensures ch == [] && !done
    {
      ch, done := [], false;
    }
  }

  class Ring {
    const buf: array<byte>
    var head: nat
    var used: nat
    var total: nat
    var subs: set<Subscription>
    ghost var history: seq<byte>

    ghost predicate Valid()
      reads this, buf
    {
      && head < buf.Length
      && total == |history|
      && used == Used(buf.Length, history)
      && (used < buf.Length ==> head == used)
      && Holds(buf[..], head, history)
    }

    constructor (capacity: int)
      ensures Valid() && fresh(buf)
      ensures history == [] && subs == {}
      ensures buf.Length == if capacity <= 0 then 1024 * 1024 else capacity
    {
      var n := if capacity <= 0 then DEFAULT_RING_SIZE else capacity;
      buf := new byte[n](_ => 0);
      head, used, total := 0, 0, 0;
      subs, history := {}, [];
    }

    /** Go's copy(buf[at:], src), where src fits. */
    method CopyIn(at: nat, src: seq<byte>)
      requires at + |src| <= buf.Length
      modifies buf
      ensures forall k :: at <= k < at + |src| ==> buf[k] == src[k - at]
      ensures forall k :: 0 <= k < buf.Length && !(at <= k < at + |src|) ==> buf[k] == old(buf[k])
    {
      var i := 0;
      while i < |src|
        invariant 0 <= i <= |src|
        invariant forall k :: 0 <= k < buf.Length && !(at <= k < at + i) ==> buf[k] == old(buf[k])
        invariant forall k :: at <= k < at + i ==> buf[k] == src[k - at]
      {
        buf[at + i] := src[i];
        i := i + 1;
      }
    }

    /** Stores `p` and broadcasts all of it, with its true offset. A subscriber
        whose channel is full loses this chunk and nobody else notices. */
    method Write(p: seq<byte>) returns (n: nat)
      requires Valid()
      modifies this`head, this`used, this`total, this`history, buf, subs
      ensures Valid()
      ensures n == |p|
      ensures history == old(history) + p
      ensures forall s :: s in subs ==> s.done == old(s.done)
      ensures forall s :: s in subs ==>
                s.ch == (if p == [] then old(s.ch) else Offer(old(s.ch), Chunk(|old(history)|, p)))
      ensures p != [] ==> forall s :: s in subs ==>
                s.ch == if |old(s.ch)| < 256 then old(s.ch) + [Chunk(|old(history)|, p)] else old(s.ch)
    {
      n := |p|;
      if n == 0 {
        assert history + p == history;
        return;
      }
      var startOffset := total;
      Store(p);
      var chunk := Chunk(startOffset, p);
      var todo := subs;
      while todo != {}
        invariant todo <= subs
        invariant forall s :: s in subs ==> s.done == old(s.done)
        invariant forall s :: s in todo ==> s.ch == old(s.ch)
        invariant forall s :: s in subs - todo ==> s.ch == Offer(old(s.ch), chunk)
        decreases todo
        modifies subs
      {
        var sub :| sub in todo;
        if |sub.ch| < CHANNEL_SLOTS {
          sub.ch := sub.ch + [chunk];
        }
        todo := todo - {sub};
      }
    }

    /** The part of Write that keeps the bytes. */
    method Store(p: seq<byte>)
      requires Valid() && p != []
      modifies this`head, this`used, this`total, this`history, buf
      ensures Valid()
      ensures history == old(history) + p
    {
      var capN := buf.Length;
      if |p| >= capN {
        CopyIn(0, p[|p| - capN..]);
        HoldsTail(buf[..], history, p);
        head, used := 0, capN;
      } else {
        ghost var before := buf[..];
        CopyWrapped(p);
        HoldsWritten(before, buf[..], head, history, p);
        WrapIsMod(capN, head, |p|);
        head := (head + |p|) % capN;
        used := if used + |p| > capN then capN else used + |p|;
      }
      history, total := history + p, total + |p|;
    }

    method CopyWrapped(p: seq<byte>)
      requires head < buf.Length && |p| < buf.Length
      modifies buf
      ensures WrittenAround(old(buf[..]), buf[..], head, p)
    {
      var first := buf.Length - head;
      if |p| <= first {
        CopyIn(head, p);
      } else {
        CopyIn(head, p[..first]);
        CopyIn(0, p[first..]);
      }
    }

    /** What is retained, oldest byte first. */
    method Snapshot() returns (out: seq<byte>)
      requires Valid()
      ensures out == history[Oldest(buf.Length, history)..]
    {
      if used == 0 {
        return [];
      }
      if used < buf.Length {
        out := buf[..used];
      } else {
        out := buf[head..] + buf[..head];
      }
    }

    method ReadFrom(offset: int) returns (data: seq<byte>, start: nat)
      requires Valid()
      ensures Chunk(start, data) == Replay(buf.Length, history, offset)
    {
      var oldest := total - used;
      var at := offset;
      if at < 0 || at < oldest {
        at := oldest;
      }
      if at > total {
        at := total;
      }
      var full := Snapshot();
      var skip := at - oldest;
      if skip < 0 {
        skip := 0;
      }
      if skip > |full| {
        skip := |full|;
      }
      data, start := full[skip..], at;
    }

    /** The replay and the registration happen at one instant: the live channel
        begins exactly where the replay ends. */
    method SnapshotAndSubscribe(offset: int) returns (data: seq<byte>, start: nat, sub: Subscription)
      requires Valid()
      modifies this`subs
      ensures Valid()
      ensures Chunk(start, data) == Replay(buf.Length, history, offset)
      ensures fresh(sub) && sub.ch == [] && !sub.done
      ensures subs == old(subs) + {sub}
    {
      sub := new Subscription();
      data, start := ReadFrom(offset);
      subs := subs + {sub};
    }

    /** Closing Done twice would panic, hence the precondition. */
    method Unsubscribe(sub: Subscription)
      requires Valid() && !sub.done
      modifies this`subs, sub`done
      ensures Valid()
      ensures subs == old(subs) - {sub} && sub.done
    {
      subs := subs - {sub};
      sub.done := true;
    }

    method Len() returns (n: nat)
      requires Valid()
      ensures n == Used(buf.Length, history)
    {
      n := used;
    }

    method TotalWritten() returns (n: nat)
      requires Valid()
      ensures n == |history|
    {
      n := total;
    }

    method OldestOffset() returns (n: nat)
      requires Valid()
      ensures n == Oldest(buf.Length, history)
    {
      n := total - used;
    }
  }
}
