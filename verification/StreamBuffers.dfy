/** The per-stream send buffer of the HTTP/2 scheduler.

    `BufferView` is the plain byte queue that a `StreamBuffer` stands for; the
    functions on it say what each operation means.  The class keeps the chunk
    deque, the offset into its head chunk and the running size. */
module StreamBuffers {
  import opened Common

  const HIGH_WATER: nat := 2 * 16384
  const LOW_WATER: nat := 16384

  /** A byte queue with its end-of-stream marks and its three event flags. */
  datatype BufferView = BufferView(
    data: Bytes,
    complete: bool,
    trailers: Option<Headers>,
    isEmpty: bool,
    paused: bool,
    finished: bool)

  const EMPTY := BufferView([], false, None, false, false, false)

  /** The source raises BufferCompleteError when the buffer is complete. */
  predicate CanPush(b: BufferView) { !b.complete }

  function Pushed(b: BufferView, data: Bytes): BufferView
    requires CanPush(b)
  {
    b.(data := b.data + data, isEmpty := false)
  }

  predicate ShouldPause(b: BufferView) { |b.data| >= HIGH_WATER }

  function PopLength(b: BufferView, maxLength: nat): (n: nat)
    ensures n <= |b.data| && n <= maxLength
    ensures n == |b.data| || n == maxLength
  {
    Min(|b.data|, maxLength)
  }

  function PopData(b: BufferView, maxLength: nat): Bytes
  {
    b.data[..PopLength(b, maxLength)]
  }

  function PopRest(b: BufferView, maxLength: nat): BufferView
  {
    var n := PopLength(b, maxLength);
    var rest := b.data[n..];
    b.(data := rest,
       isEmpty := b.isEmpty || rest == [],
       paused := b.paused || (n > 0 && |rest| <= LOW_WATER))
  }

  function Closed(b: BufferView): BufferView
  {
    BufferView([], true, None, true, true, true)
  }

  /** Complete in the sense of the `complete` property: ended and drained. */
  predicate Drained(b: BufferView) { b.complete && b.data == [] }

  /** Taking from the head chunk splits off a prefix of the remaining bytes;
      using the head chunk up leaves exactly the other chunks. */
  lemma TakeFromHead(chunks: seq<Bytes>, offset: nat, take: nat)
    requires chunks != [] && offset + take <= |chunks[0]|
    ensures |Concat(chunks)| >= offset + take
    ensures Concat(chunks)[offset..]
            == chunks[0][offset..offset + take] + Concat(chunks)[offset + take..]
    ensures offset + take == |chunks[0]| ==>
              && Concat(chunks)[offset + take..] == Concat(chunks[1..])
              && |Concat(chunks)| == |chunks[0]| + |Concat(chunks[1..])|
  {
    assert Concat(chunks) == chunks[0] + Concat(chunks[1..]);
  }

  lemma SplitsAt(all: Bytes, first: Bytes, rest: Bytes)
    requires all == first + rest
    ensures first == all[..|first|] && rest == all[|first|..]
  {
  }

  class StreamBuffer {
    var chunks: seq<Bytes>
    var headOffset: nat
    var size: nat
    var ended: bool
    var trailers: Option<Headers>
    var isEmpty: bool
    var paused: bool
    var finished: bool

    /** No chunk is empty, the offset stays inside the head chunk, and the size
        is the number of bytes not yet taken. */
    ghost predicate Valid()
      reads this
    {
      && (forall i :: 0 <= i < |chunks| ==> |chunks[i]| > 0)
      && headOffset <= |Concat(chunks)|
      && (chunks == [] ==> headOffset == 0)
      && (chunks != [] ==> headOffset < |chunks[0]|)
      && size == |Concat(chunks)| - headOffset
    }

    ghost function Contents(): Bytes
      reads this
      requires headOffset <= |Concat(chunks)|
    {
      Concat(chunks)[headOffset..]
    }

    ghost function View(): BufferView
      reads this
      requires Valid()
    {
      BufferView(Contents(), ended, trailers, isEmpty, paused, finished)
    }

    constructor ()
      ensures Valid() && View() == EMPTY
    {
      chunks, headOffset, size := [], 0, 0;
      ended, trailers := false, None;
      isEmpty, paused, finished := false, false, false;
    }

    method Finish()
      requires Valid()
      modifies this`finished
      ensures Valid() && View() == old(View()).(finished := true)
    {
      finished := true;
    }

    method SetComplete()
      requires Valid()
      modifies this`ended
      ensures Valid() && View() == old(View()).(complete := true)
    {
      ended := true;
    }

    method SetTrailers(headers: Headers)
      requires Valid()
      modifies this`ended, this`trailers
      ensures Valid() && View() == old(View()).(complete := true, trailers := Some(headers))
    {
      trailers := Some(headers);
      ended := true;
    }

    method Close()
      requires Valid()
      modifies this
      ensures Valid() && View() == Closed(old(View()))
      ensures Contents() == [] && ended && trailers == None && isEmpty && paused && finished
    {
      ended := true;
      chunks, headOffset, size := [], 0, 0;
      trailers := None;
      isEmpty, paused, finished := true, true, true;
    }

    /** The `complete` property. */
    method IsComplete() returns (r: bool)
      requires Valid()
      ensures r <==> Drained(View())
      ensures r <==> ended && Contents() == []
    {
      r := ended && size == 0;
    }

    /** Returns None where the source raises BufferCompleteError, and otherwise
        whether the caller should pause. */
    method Push(data: Bytes) returns (shouldPause: Option<bool>)
      requires Valid()
      modifies this
      ensures Valid()
      ensures shouldPause.Some? <==> CanPush(old(View()))
      ensures shouldPause == None ==> View() == old(View())
      ensures shouldPause.Some? ==>
                View() == Pushed(old(View()), data) && shouldPause.value == ShouldPause(View())
      ensures shouldPause.Some? <==> !old(ended)
      ensures shouldPause.Some? ==> Contents() == old(Contents()) + data && !isEmpty
      ensures shouldPause.Some? ==> (shouldPause.value <==> |Contents()| >= 32768)
      ensures unchanged(`ended, `trailers, `paused, `finished)
    {
      if ended {
        return None;
      }
      if |data| > 0 {
        ConcatSnoc(chunks, data);
        chunks := chunks + [data];
        size := size + |data|;
      }
      isEmpty := false;
      return Some(size >= HIGH_WATER);
    }

    /** One turn of the loop of `Pop`: what the head chunk can still give. */
    method TakePart(remaining: nat) returns (part: Bytes)
      requires Valid() && 0 < remaining <= size
      modifies this`chunks, this`headOffset, this`size
      ensures Valid()
      ensures 0 < |part| <= remaining && size == old(size) - |part|
      ensures old(Contents()) == part + Contents()
    {
      var chunk := chunks[0];
      var available := |chunk| - headOffset;
      var take := Min(available, remaining);
      TakeFromHead(chunks, headOffset, take);
      part := chunk[headOffset..headOffset + take];
      headOffset := headOffset + take;
      size := size - take;
      if headOffset == |chunk| {
        chunks := chunks[1..];
        headOffset := 0;
      }
    }

    /** The loop of `Pop`: takes the first bytes, across chunk boundaries. */
    method TakeParts(length: nat) returns (data: Bytes)
      requires Valid() && length <= size
      modifies this`chunks, this`headOffset, this`size
      ensures Valid() && size == old(size) - length
      ensures |data| == length && old(Contents()) == data + Contents()
    {
      var remaining := length;
      var parts: seq<Bytes> := [];
      while remaining > 0
        invariant Valid()
        invariant 0 <= remaining <= size == old(size) - length + remaining
        invariant |Concat(parts)| + remaining == length
        invariant Concat(parts) + Contents() == old(Contents())
      {
        var part := TakePart(remaining);
        ConcatSnoc(parts, part);
        AppendAssoc(Concat(parts), part, Contents());
        parts := parts + [part];
        remaining := remaining - |part|;
      }
      data := Concat(parts);
    }

    method Pop(maxLength: nat) returns (data: Bytes)
      requires Valid()
      modifies this
      ensures Valid()
      ensures data == PopData(old(View()), maxLength)
      ensures View() == PopRest(old(View()), maxLength)
      ensures |data| == Min(old(size), maxLength) && old(Contents()) == data + Contents()
      ensures paused == (old(paused) || (data != [] && |Contents()| <= 16384))
      ensures isEmpty == (old(isEmpty) || Contents() == [])
      ensures unchanged(`ended, `trailers, `finished)
    {
      var length := Min(size, maxLength);
      if length == 0 {
        if size == 0 {
          isEmpty := true;
        }
        return [];
      }
      data := TakeParts(length);
      SplitsAt(old(Contents()), data, Contents());
      if size <= LOW_WATER {
        paused := true;
      }
      if size == 0 {
        isEmpty := true;
      }
    }

    method ClearPaused()
      requires Valid()
      modifies this`paused
      ensures Valid() && View() == old(View()).(paused := false)
    {
      paused := false;
    }
  }
}
