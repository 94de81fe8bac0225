/** pumpToRing of internal/ptyhost/server.go: the loop that carries one output of the
    child into its ring. */
module Output {
  import opened Bytes
  import opened Ring

  /** The pump's buffer: no Read returns more. */
  const READ_SIZE: nat := 32 * 1024

  /** One Read of the child's output: what it returned, and whether it also
      returned an error. */
  datatype AnyRead = AnyRead(data: seq<byte>, failed: bool)

  type Read = r: AnyRead | |r.data| <= READ_SIZE witness AnyRead([], true)

  /** The chunks a run of reads puts into a ring that has had `at` bytes: one per
      non-empty read, up to and including the first that failed. */
  function Pumped(at: nat, rs: seq<Read>): seq<Chunk>
    decreases |rs|
  {
    if rs == [] then []
    else
      ChunkOf(at, rs[0].data) + if rs[0].failed then [] else Pumped(at + |rs[0].data|, rs[1..])
  }

  function OfferAll(channel: seq<Chunk>, chunks: seq<Chunk>): seq<Chunk>
    decreases |chunks|
  {
    if chunks == [] then channel else OfferAll(Offer(channel, chunks[0]), chunks[1..])
  }

  /** What one successful read contributes. */
  function ChunkOf(at: nat, d: seq<byte>): seq<Chunk> {
    if d == [] then [] else [Chunk(at, d)]
  }

  lemma OfferFirst(channel: seq<Chunk>, at: nat, d: seq<byte>, rest: seq<Chunk>)
    ensures OfferAll(channel, ChunkOf(at, d) + rest) ==
            OfferAll(if d == [] then channel else Offer(channel, Chunk(at, d)), rest)
  {
    assert d == [] ==> ChunkOf(at, d) + rest == rest;
    assert d != [] ==> (ChunkOf(at, d) + rest)[1..] == rest;
  }

  lemma JoinFirst(at: nat, d: seq<byte>, rest: seq<Chunk>)
    ensures Joined(ChunkOf(at, d) + rest) == d + Joined(rest)
  {
    if d == [] {
      assert ChunkOf(at, d) + rest == rest;
    } else {
      JoinedCons(Chunk(at, d), rest);
    }
  }

  /** While nobody reads it, a channel takes the chunks offered first, in order, and
      loses those that come when 256 are waiting. */
  lemma {:induction false} RoomForAll(channel: seq<Chunk>, chunks: seq<Chunk>)
    requires |channel| <= 256
    ensures OfferAll(channel, chunks) ==
            if |channel| + |chunks| <= 256 then channel + chunks else (channel + chunks)[..256]
    decreases |chunks|
  {
    if chunks == [] {
      PlusNil(channel);
    } else {
      RoomForAll(Offer(channel, chunks[0]), chunks[1..]);
      assert channel + chunks == channel + [chunks[0]] + chunks[1..];
    }
  }

  /** The data of the non-empty reads. */
  function DataOf(rs: seq<Read>): seq<seq<byte>> {
    if rs == [] then [] else (if rs[0].data == [] then [] else [rs[0].data]) + DataOf(rs[1..])
  }

  /** One chunk per non-empty read, with just its bytes, up to the first read that
      fails and including it. */
  lemma {:induction false} ChunksAreReads(at: nat, rs: seq<Read>, n: nat)
    requires 0 < n <= |rs| && (forall i :: 0 <= i < n - 1 ==> !rs[i].failed)
    requires n < |rs| ==> rs[n - 1].failed
    ensures var cs, ds := Pumped(at, rs), DataOf(rs[..n]);
            |cs| == |ds| && forall k :: 0 <= k < |cs| ==> cs[k].data == ds[k]
    decreases |rs|
  {
    assert rs[..n][1..] == rs[1..][..n - 1];
    if n == 1 {
      assert rs[1..][..0] == [];
      if !rs[0].failed {
        assert rs[1..] == [];
      }
    } else {
      assert forall i :: 0 <= i < |rs| - 1 ==> rs[1..][i] == rs[i + 1];
      ChunksAreReads(at + |rs[0].data|, rs[1..], n - 1);
    }
  }

  lemma {:induction false} PumpedFollows(at: nat, rs: seq<Read>, k: nat)
    requires k < |Pumped(at, rs)|
    ensures var cs := Pumped(at, rs);
            0 < |cs[k].data| <= READ_SIZE && cs[k].offset == at + |Joined(cs[..k])|
    decreases |rs|
  {
    var cs := Pumped(at, rs);
    var first := ChunkOf(at, rs[0].data);
    if k < |first| {
      assert cs[..0] == [];
    } else {
      var rest := Pumped(at + |rs[0].data|, rs[1..]);
      assert cs == first + rest;
      PumpedFollows(at + |rs[0].data|, rs[1..], k - |first|);
      FollowsFirst(at, rs[0].data, rest, k);
    }
  }

  lemma FollowsFirst(at: nat, d: seq<byte>, rest: seq<Chunk>, k: nat)
    requires |ChunkOf(at, d)| <= k < |ChunkOf(at, d) + rest|
    ensures var first := ChunkOf(at, d);
            && (first + rest)[k] == rest[k - |first|]
            && |Joined((first + rest)[..k])| == |d| + |Joined(rest[..k - |first|])|
  {
    var first := ChunkOf(at, d);
    JoinFirst(at, d, rest[..k - |first|]);
    assert (first + rest)[..k] == first + rest[..k - |first|];
  }

  lemma PumpedAt(at: nat, rs: seq<Read>, i: nat, rest: seq<Chunk>)
    requires i < |rs|
    requires rest == if rs[i].failed then [] else Pumped(at + |rs[i].data|, rs[i + 1..])
    ensures Pumped(at, rs[i..]) == ChunkOf(at, rs[i].data) + rest
    ensures Joined(Pumped(at, rs[i..])) == rs[i].data + Joined(rest)
  {
    assert rs[i..][0] == rs[i] && rs[i..][1..] == rs[i + 1..];
    JoinFirst(at, rs[i].data, rest);
  }

  /** One iteration; `rest` is what the reads after it contribute. */
  method StoreRead(d: seq<byte>, ring: Ring, ghost rest: seq<Chunk>)
    requires ring.Valid()
    modifies ring`head, ring`used, ring`total, ring`history, ring.buf, ring.subs
    ensures ring.Valid() && ring.history == old(ring.history) + d
    ensures forall s :: s in ring.subs ==>
              && s.done == old(s.done)
              && OfferAll(s.ch, rest) == OfferAll(old(s.ch), ChunkOf(|old(ring.history)|, d) + rest)
  {
    PlusNil(ring.history);
    if |d| > 0 {
      var _ := ring.Write(d);
    }
    forall s | s in ring.subs
      ensures OfferAll(s.ch, rest) == OfferAll(old(s.ch), ChunkOf(|old(ring.history)|, d) + rest)
    {
      OfferFirst(old(s.ch), |old(ring.history)|, d, rest);
    }
  }

  /** What is left for the ring after read `i`, when it has had `at` bytes. */
  function Left(at: nat, rs: seq<Read>, i: nat): seq<Chunk>
    requires i < |rs|
  {
    if rs[i].failed then [] else Pumped(at, rs[i + 1..])
  }

  lemma PumpedHistory(history: seq<byte>, rs: seq<Read>, i: nat, rest: seq<Chunk>)
    requires i < |rs| && rest == Left(|history| + |rs[i].data|, rs, i)
    ensures Pumped(|history|, rs[i..]) == ChunkOf(|history|, rs[i].data) + rest
    ensures history + rs[i].data + Joined(rest) == history + Joined(Pumped(|history|, rs[i..]))
  {
    PumpedAt(|history|, rs, i, rest);
    Assoc(history, rs[i].data, Joined(rest));
  }

  method PumpOne(rs: seq<Read>, i: nat, ring: Ring)
    requires ring.Valid() && i < |rs|
    modifies ring`head, ring`used, ring`total, ring`history, ring.buf, ring.subs
    ensures ring.Valid()
    ensures ring.history + Joined(Left(|ring.history|, rs, i)) ==
            old(ring.history) + Joined(Pumped(|old(ring.history)|, rs[i..]))
    ensures forall s :: s in ring.subs ==>
              && s.done == old(s.done)
              && OfferAll(s.ch, Left(|ring.history|, rs, i)) ==
                 OfferAll(old(s.ch), Pumped(|old(ring.history)|, rs[i..]))
  {
    ghost var rest := Left(|ring.history| + |rs[i].data|, rs, i);
    PumpedHistory(ring.history, rs, i, rest);
    StoreRead(rs[i].data, ring, rest);
    assert Left(|ring.history|, rs, i) == rest;
  }

  /** The ring has all that was read, and every subscriber was offered it chunk by
      chunk in order. */
  method PumpToRing(rs: seq<Read>, ring: Ring)
    requires ring.Valid()
    modifies ring`head, ring`used, ring`total, ring`history, ring.buf, ring.subs
    ensures ring.Valid()
    ensures ring.history == old(ring.history) + Joined(Pumped(|old(ring.history)|, rs))
    ensures forall s :: s in ring.subs ==>
              s.ch == OfferAll(old(s.ch), Pumped(|old(ring.history)|, rs)) && s.done == old(s.done)
  {
    ghost var all := Pumped(|ring.history|, rs);
    ghost var left := all;
    var i, eof := 0, false;
    assert rs[0..] == rs;
    while i < |rs| && !eof
      invariant 0 <= i <= |rs| && ring.Valid()
      invariant left == if eof then [] else Pumped(|ring.history|, rs[i..])
      invariant ring.history + Joined(left) == old(ring.history) + Joined(all)
      invariant forall s :: s in ring.subs ==> s.done == old(s.done) && OfferAll(s.ch, left) == OfferAll(old(s.ch), all)
      decreases |rs| - i, !eof
    {
      PumpOne(rs, i, ring);
      left := Left(|ring.history|, rs, i);
      eof := rs[i].failed;
      i := i + 1;
    }
    assert left == [];
    PlusNil(ring.history);
  }
}
