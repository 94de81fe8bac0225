/** STATUS replies of internal/ptyhost/server.go: statusPayload locks the ring three
    times, and the child's output may come in between. */
module Status {
  import opened Bytes
  import opened Ring

  datatype Status = Status(ringBytes: nat, ringHeadOffset: nat, ringTotalOffset: nat)

  /** The reply when the ring held `history` at the first lock, and `first` and
      `second` were written between the three. */
  function Torn(capacity: nat, history: seq<byte>, first: seq<byte>, second: seq<byte>): Status {
    Status(Used(capacity, history), Oldest(capacity, history + first), |history + first + second|)
  }

  /** The three numbers never contradict one another, they agree exactly when no
      write that matters came in between, and the true length of the retained part
      lies between what they say. */
  lemma TornIsConsistent(capacity: nat, history: seq<byte>, first: seq<byte>, second: seq<byte>)
    ensures var r := Torn(capacity, history, first, second);
            && r.ringHeadOffset <= r.ringTotalOffset
            && r.ringBytes <= r.ringTotalOffset - r.ringHeadOffset
            && (r.ringBytes == r.ringTotalOffset - r.ringHeadOffset <==>
                  second == [] && (first == [] || capacity <= |history|))
            && r.ringBytes <= Used(capacity, history + first + second) <= r.ringTotalOffset - r.ringHeadOffset
  {
  }

  method StatusPayload(ring: Ring, first: seq<byte>, second: seq<byte>) returns (r: Status)
    requires ring.Valid()
    modifies ring`head, ring`used, ring`total, ring`history, ring.buf, ring.subs
    ensures ring.Valid()
    ensures ring.history == old(ring.history) + first + second
    ensures r == Torn(ring.buf.Length, old(ring.history), first, second)
    ensures r.ringBytes == (if |old(ring.history)| < ring.buf.Length then |old(ring.history)| else ring.buf.Length)
    ensures var total := |old(ring.history)| + |first|;
            r.ringHeadOffset == if total < ring.buf.Length then 0 else total - ring.buf.Length
    ensures r.ringTotalOffset == |ring.history|
  {
    var bytes := ring.Len();
    var _ := ring.Write(first);
    var head := ring.OldestOffset();
    var _ := ring.Write(second);
    var total := ring.TotalWritten();
    r := Status(bytes, head, total);
  }
}
