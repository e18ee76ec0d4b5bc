// The agent's buffer for frames that arrive on a data socket before their
// stream's `StreamOpen` arrives on the control socket.
module PendingBuffer {
  type StreamId = nat
  type Bytes = seq<int>

  const MAX_FRAME_BYTES: nat := 1024 * 1024
  const PENDING_STREAM_BYTES: nat := 4 * MAX_FRAME_BYTES
  const PENDING_STREAM_HARD_BYTES: nat := 64 * 1024 * 1024

  // Frames in arrival order and their summed length.
  datatype Entry<T> = Entry(frames: seq<T>, bytes: nat)

  function Empty<T>(): Entry<T> {
    Entry([], 0)
  }

  // A frame past the hard limit is dropped; a later, smaller one may still fit.
  function Buffered<T>(entry: Entry<T>, frame: T, length: nat, hardLimit: nat): Entry<T> {
    if entry.bytes + length > hardLimit then entry
    else Entry(entry.frames + [frame], entry.bytes + length)
  }

  datatype Outcome = Kept | KeptWithWarning | Dropped

  class PendingMap {
    var entries: map<StreamId, Entry<Bytes>>

    ghost predicate Valid(hardLimit: nat)
      reads this
    {
      forall id | id in entries :: entries[id].bytes == Total(entries[id].frames) <= hardLimit
    }

    constructor ()
      ensures entries == map[]
    {
      entries := map[];
    }

    // The entry is created even when its first frame is dropped.
    method BufferPendingFrame(id: StreamId, data: Bytes, byteBudget: nat, hardLimit: nat) returns (outcome: Outcome)
      requires Valid(hardLimit)
      modifies this
      ensures Valid(hardLimit)
      ensures var before := if id in old(entries) then old(entries)[id] else Entry([], 0);
              && entries == old(entries)[id := if before.bytes + |data| > hardLimit then before
                                               else Entry(before.frames + [data], before.bytes + |data|)]
              && (outcome == Dropped <==> before.bytes + |data| > hardLimit)
              && (outcome == KeptWithWarning <==>
                    before.bytes < byteBudget <= before.bytes + |data| <= hardLimit)
    {
      var entry := if id in entries then entries[id] else Empty();
      entries := entries[id := entry];
      if entry.bytes + |data| > hardLimit {
        return Dropped;
      }
      outcome := if entry.bytes < byteBudget && entry.bytes + |data| >= byteBudget then KeptWithWarning else Kept;
      BufferedStaysExact(entry, data, hardLimit);
      entries := entries[id := Entry(entry.frames + [data], entry.bytes + |data|)];
    }

    // `StreamOpen` collects the frames in arrival order.
    method TakePending(id: StreamId, ghost hardLimit: nat) returns (frames: seq<Bytes>)
      requires Valid(hardLimit)
      modifies this
      ensures Valid(hardLimit) && entries == old(entries) - {id}
      ensures frames == if id in old(entries) then old(entries)[id].frames else []
    {
      frames := if id in entries then entries[id].frames else [];
      entries := entries - {id};
    }
  }

  // ---- A whole series of arrivals -----------------------------------------------

  function Total(frames: seq<Bytes>): nat {
    if frames == [] then 0 else Total(frames[..|frames| - 1]) + |frames[|frames| - 1]|
  }

  lemma TotalAppend(frames: seq<Bytes>, data: Bytes)
    ensures Total(frames + [data]) == Total(frames) + |data|
  {
    assert (frames + [data])[..|frames|] == frames;
  }

  lemma BufferedStaysExact(entry: Entry<Bytes>, data: Bytes, hardLimit: nat)
    requires entry.bytes == Total(entry.frames) <= hardLimit
    ensures var e := Buffered(entry, data, |data|, hardLimit); e.bytes == Total(e.frames) <= hardLimit
  {
    TotalAppend(entry.frames, data);
  }

  // The entry after these arrivals, starting from none.
  function BufferAll(arrivals: seq<Bytes>, hardLimit: nat): Entry<Bytes> {
    if arrivals == [] then Empty()
    else
      var last := arrivals[|arrivals| - 1];
      Buffered(BufferAll(arrivals[..|arrivals| - 1], hardLimit), last, |last|, hardLimit)
  }

  ghost predicate IsSubsequence(a: seq<Bytes>, b: seq<Bytes>) {
    || a == []
    || (b != [] && (IsSubsequence(a, b[..|b| - 1]) ||
                    (a[|a| - 1] == b[|b| - 1] && IsSubsequence(a[..|a| - 1], b[..|b| - 1]))))
  }

  // The byte count is exact and bounded, the order is kept, and every frame is
  // kept if and only if all of them together fit the hard limit.
  lemma {:induction false} BufferedExactly(arrivals: seq<Bytes>, hardLimit: nat)
    ensures var e := BufferAll(arrivals, hardLimit);
            && e.bytes == Total(e.frames) <= hardLimit
            && IsSubsequence(e.frames, arrivals)
            && (e.frames == arrivals <==> Total(arrivals) <= hardLimit)
            && |e.frames| <= |arrivals|
  {
    if arrivals != [] {
      var front, last := arrivals[..|arrivals| - 1], arrivals[|arrivals| - 1];
      BufferedExactly(front, hardLimit);
      var before := BufferAll(front, hardLimit);
      TotalAppend(before.frames, last);
      assert (before.frames + [last])[..|before.frames|] == before.frames;
      assert arrivals == front + [last];
      if before.frames + [last] == arrivals {
        assert before.frames == (before.frames + [last])[..|before.frames|] == front;
      }
    }
  }
}
