/** The queue between the connection's reader and a stream's dispatcher: what
    its operations compute, on values, and the objects that compute it. */
module QueuedStreams {
  import opened Common

  datatype Event =
    | Request(info: int)
    | Body(data: Bytes)
    | EndBody
    | Data(data: Bytes)
    | EndData
    | StreamClosed

  /** An event as it was handed in, with the callback to run once it is handled. */
  datatype Item = Item(event: Event, callback: Option<int>)

  predicate Carries(e: Event) { e.Body? || e.Data? }

  function DataOf(e: Event): Bytes
  {
    match e
    case Body(data) => data
    case Data(data) => data
    case _ => []
  }

  /** Which events may share a queue entry. */
  predicate Alike(a: Event, b: Event) { (a.Body? && b.Body?) || (a.Data? && b.Data?) }

  /** A queue entry is the items merged into it. */
  type Entry = seq<Item>

  predicate IsEntry(e: Entry)
  {
    && e != []
    && forall i :: 0 < i < |e| ==> Alike(e[0].event, e[i].event)
  }

  function SizeOf(items: seq<Item>): nat
  {
    if items == [] then 0 else |DataOf(items[0].event)| + SizeOf(items[1..])
  }

  function CallbacksOf(items: seq<Item>): seq<int>
  {
    if items == [] then []
    else (match items[0].callback { case None => [] case Some(c) => [c] }) + CallbacksOf(items[1..])
  }

  /** The data of the items. */
  function ChunksOf(items: seq<Item>): seq<Bytes>
  {
    if items == [] then [] else [DataOf(items[0].event)] + ChunksOf(items[1..])
  }

  /** The one event that stands for an entry. */
  function Materialized(e: Entry): Event
    requires IsEntry(e)
  {
    match e[0].event
    case Body(_) => Body(Concat(ChunksOf(e)))
    case Data(_) => Data(Concat(ChunksOf(e)))
    case other => other
  }

  datatype Queue = Queue(
    closed: bool, hasEvents: bool, hasSpace: bool, bytes: nat, maxBytes: nat, maxSize: nat,
    entries: seq<Entry>)

  function NewQueue(maxSize: nat, maxBytes: nat): Queue
  {
    Queue(false, false, false, 0, maxBytes, maxSize, [])
  }

  predicate HasCountSpace(q: Queue) { q.maxSize == 0 || |q.entries| < q.maxSize }

  predicate HasByteSpace(q: Queue, size: nat)
  {
    q.maxBytes == 0 || (q.entries == [] && q.bytes == 0) || q.bytes + size <= q.maxBytes
  }

  predicate WellFormed(q: Queue)
  {
    && q.bytes == SizeOf(Concat(q.entries))
    && forall i :: 0 <= i < |q.entries| ==> IsEntry(q.entries[i])
  }

  predicate Merges(q: Queue, item: Item)
    requires WellFormed(q)
  {
    q.entries != [] && HasByteSpace(q, SizeOf([item])) && Alike(Last(q.entries)[0].event, item.event)
  }

  /** One turn of the loop of `handle`: merged into the last entry, appended, or
      None where the caller has to wait for space. */
  function Offer(q: Queue, item: Item): Option<Queue>
    requires WellFormed(q)
  {
    if Merges(q, item) then Some(Merged(q, [item]).(hasEvents := true))
    else if HasCountSpace(q) && HasByteSpace(q, SizeOf([item])) then
      Some(Appended(q, [item]).(hasEvents := true))
    else None
  }

  function Merged(q: Queue, e: Entry): Queue
    requires q.entries != []
  {
    q.(bytes := q.bytes + SizeOf(e), entries := q.entries[|q.entries| - 1 := Last(q.entries) + e])
  }

  function Appended(q: Queue, e: Entry): Queue
  {
    q.(bytes := q.bytes + SizeOf(e), entries := q.entries + [e])
  }

  /** Whether taking the first entry makes the space flag be set. */
  predicate Frees(q: Queue)
    requires WellFormed(q) && q.entries != []
  {
    || (q.maxSize > 0 && |q.entries| - 1 < q.maxSize)
    || (q.maxBytes > 0 && q.bytes - SizeOf(q.entries[0]) < q.maxBytes)
  }

  /** The dispatcher takes the first entry. */
  function Taken(q: Queue): Queue
    requires WellFormed(q) && q.entries != []
  {
    SizeAppend(q.entries[0], Concat(q.entries[1..]));
    q.(bytes := q.bytes - SizeOf(q.entries[0]), entries := q.entries[1..],
       hasSpace := q.hasSpace || Frees(q),
       hasEvents := q.hasEvents && |q.entries| > 1)
  }

  lemma {:induction false} SizeAppend(a: seq<Item>, b: seq<Item>)
    ensures SizeOf(a + b) == SizeOf(a) + SizeOf(b)
    decreases |a|
  {
    if a == [] {
      assert a + b == b;
    } else {
      assert (a + b)[0] == a[0] && (a + b)[1..] == a[1..] + b;
      SizeAppend(a[1..], b);
    }
  }

  lemma {:induction false} CallbacksAppend(a: seq<Item>, b: seq<Item>)
    ensures CallbacksOf(a + b) == CallbacksOf(a) + CallbacksOf(b)
    decreases |a|
  {
    if a == [] {
      assert a + b == b;
    } else {
      assert (a + b)[0] == a[0] && (a + b)[1..] == a[1..] + b;
      CallbacksAppend(a[1..], b);
    }
  }

  lemma {:induction false} ChunksAppend(a: seq<Item>, b: seq<Item>)
    ensures ChunksOf(a + b) == ChunksOf(a) + ChunksOf(b)
    decreases |a|
  {
    if a == [] {
      assert a + b == b;
    } else {
      assert (a + b)[0] == a[0] && (a + b)[1..] == a[1..] + b;
      ChunksAppend(a[1..], b);
    }
  }

  lemma OneItem(item: Item)
    ensures SizeOf([item]) == |DataOf(item.event)|
    ensures CallbacksOf([item]) == match item.callback { case None => [] case Some(c) => [c] }
    ensures ChunksOf([item]) == [DataOf(item.event)]
  {
    assert [item][1..] == [];
  }

  /** A queue entry as the mutable object it is. */
  class QueuedEvent {
    const event: Event
    var callbacks: seq<int>
    var chunks: Option<seq<Bytes>>
    var byteSize: nat
    /** The items merged into this entry so far. */
    ghost var items: Entry

    ghost predicate Valid()
      reads this
    {
      && IsEntry(items) && event == items[0].event
      && callbacks == CallbacksOf(items) && byteSize == SizeOf(items)
        && chunks == if Carries(event) then Some(ChunksOf(items)) else None
    }

    constructor (event: Event, callback: Option<int>)
      ensures Valid() && items == [Item(event, callback)]
    {
      this.event := event;
      callbacks := match callback { case None => [] case Some(c) => [c] };
      items := [Item(event, callback)];
      chunks := if Carries(event) then Some([DataOf(event)]) else None;
      byteSize := |DataOf(event)|;
      new;
      OneItem(Item(event, callback));
    }

    /** Takes the other entry's chunks, callbacks and size over. */
    method Append(other: QueuedEvent)
      requires Valid() && other.Valid() && other != this && Alike(event, other.event)
      modifies this
      ensures Valid() && items == old(items) + other.items
    {
      ChunksAppend(items, other.items);
      CallbacksAppend(items, other.items);
      SizeAppend(items, other.items);
      chunks := Some(chunks.value + other.chunks.value);
      callbacks := callbacks + other.callbacks;
      byteSize := byteSize + other.byteSize;
      items := items + other.items;
    }

    method Materialize() returns (e: Event)
      requires Valid()
      ensures e == Materialized(items)
    {
      match chunks
      case None => { return event; }
      case Some(parts) => {
        var data := if |parts| == 1 then parts[0] else Concat(parts);
        assert |parts| == 1 ==> Concat(parts) == parts[0] + [] == parts[0];
        if event.Body? {
          return Body(data);
        }
        return Data(data);
      }
    }
  }

  /** `_merge_queued_events`. */
  method MergeQueuedEvents(first: QueuedEvent, second: QueuedEvent) returns (merged: bool)
    requires first.Valid() && second.Valid() && first != second
    modifies first
    ensures first.Valid() && merged == Alike(first.event, second.event)
    ensures first.items == if merged then old(first.items) + second.items else old(first.items)
  {
    if first.event.Body? && second.event.Body? {
      first.Append(second);
      return true;
    }
    if first.event.Data? && second.event.Data? {
      first.Append(second);
      return true;
    }
    return false;
  }

  lemma MergedAppends(q: Queue, e: Entry)
    requires WellFormed(q) && q.entries != [] && IsEntry(Last(q.entries) + e)
    ensures Concat(Merged(q, e).entries) == Concat(q.entries) + e && WellFormed(Merged(q, e))
  {
    var n := |q.entries| - 1;
    assert q.entries == q.entries[..n] + [q.entries[n]];
    assert Merged(q, e).entries == q.entries[..n] + [q.entries[n] + e];
    ConcatSnoc(q.entries[..n], q.entries[n]);
    ConcatSnoc(q.entries[..n], q.entries[n] + e);
    SizeAppend(Concat(q.entries), e);
  }

  lemma AppendedAppends(q: Queue, e: Entry)
    requires WellFormed(q) && IsEntry(e)
    ensures Concat(Appended(q, e).entries) == Concat(q.entries) + e && WellFormed(Appended(q, e))
  {
    SizeAppend(Concat(q.entries), e);
    ConcatSnoc(q.entries, e);
  }

  /** Either way of accepting an item puts it after all the others. */
  lemma OfferAppends(q: Queue, item: Item)
    requires WellFormed(q) && Offer(q, item).Some?
    ensures Concat(Offer(q, item).value.entries) == Concat(q.entries) + [item]
    ensures WellFormed(Offer(q, item).value)
  {
    if Merges(q, item) {
      MergedAppends(q, [item]);
    } else {
      AppendedAppends(q, [item]);
    }
  }

  lemma TakenDrops(q: Queue)
    requires WellFormed(q) && q.entries != []
    ensures Concat(q.entries) == q.entries[0] + Concat(Taken(q).entries)
    ensures WellFormed(Taken(q)) && Taken(q).bytes == q.bytes - SizeOf(q.entries[0])
  {
    SizeAppend(q.entries[0], Concat(q.entries[1..]));
  }

  class QueuedStream {
    const maxQueueSize: nat
    const maxQueueBytes: nat
    var closed: bool
    var hasEvents: bool
    var hasSpace: bool
    var queuedBytes: nat
    var queue: seq<QueuedEvent>
    /** The items of each entry object of the queue. */
    ghost var contents: seq<Entry>

    /** The entry objects are distinct and hold what `contents` says. */
    ghost predicate Held()
      reads this`queue, this`contents, queue
    {
      && |queue| == |contents|
      && (forall i :: 0 <= i < |queue| ==> queue[i].Valid() && queue[i].items == contents[i])
      && (forall i, j :: 0 <= i < j < |queue| ==> queue[i] != queue[j])
    }

    ghost function View(): Queue
      reads this
    {
      Queue(closed, hasEvents, hasSpace, queuedBytes, maxQueueBytes, maxQueueSize, contents)
    }

    ghost predicate Valid()
      reads this, queue
    {
      Held() && WellFormed(View())
    }

    constructor (maxQueueSize: nat, maxQueueBytes: nat)
      ensures Valid() && View() == NewQueue(maxQueueSize, maxQueueBytes)
    {
      this.maxQueueSize, this.maxQueueBytes := maxQueueSize, maxQueueBytes;
      closed, hasEvents, hasSpace, queuedBytes, queue := false, false, false, 0, [];
      contents := [];
    }

    method Enqueue(queued: QueuedEvent)
      requires Valid() && queued.Valid() && queued !in queue
      modifies this`queue, this`queuedBytes, this`contents, this`hasEvents
      ensures Valid() && View() == Appended(old(View()), queued.items).(hasEvents := true)
    {
      AppendedAppends(View(), queued.items);
      queue := queue + [queued];
      queuedBytes := queuedBytes + queued.byteSize;
      contents := contents + [queued.items];
      hasEvents := true;
    }

    /** Merges into the last entry, in place, when the two are alike. */
    method MergeLast(queued: QueuedEvent) returns (merged: bool)
      requires Held() && queued.Valid() && queued !in queue && queue != []
      modifies this`queuedBytes, this`contents, queue[|queue| - 1]
      ensures Held() && merged == Alike(old(Last(contents))[0].event, queued.event)
      ensures View() == if merged then Merged(old(View()), queued.items) else old(View())
      ensures queued.Valid() && queued.items == old(queued.items)
    {
      var last := queue[|queue| - 1];
      merged := MergeQueuedEvents(last, queued);
      if merged {
        queuedBytes := queuedBytes + queued.byteSize;
        contents := contents[|contents| - 1 := Last(contents) + queued.items];
      }
    }

    /** The part of the loop that tries to merge. */
    method TryMerge(queued: QueuedEvent, hasByteSpace: bool) returns (merged: bool)
      requires Valid() && queued.Valid() && queued !in queue && |queued.items| == 1
      requires hasByteSpace == HasByteSpace(View(), SizeOf(queued.items))
      modifies this, queue
      ensures Valid() && merged == Merges(old(View()), old(queued.items[0]))
      ensures View() == if merged then Merged(old(View()), old(queued.items)).(hasEvents := true)
                        else old(View())
      ensures queued.Valid() && queued.items == old(queued.items) && queued !in queue
    {
      ghost var q, item := View(), queued.items[0];
      assert queued.items == [item] && queued.event == item.event;
      if |queue| == 0 || !hasByteSpace {
        return false;
      }
      merged := MergeLast(queued);
      if merged {
        MergedAppends(q, [item]);
        hasEvents := true;
      }
    }

    /** One turn of the loop of `handle`, up to its return or its wait. */
    method TryHandle(queued: QueuedEvent) returns (accepted: bool)
      requires Valid() && queued.Valid() && queued !in queue && |queued.items| == 1
      modifies this, queue
      ensures Valid() && accepted == Offer(old(View()), old(queued.items[0])).Some?
      ensures View() == if accepted then Offer(old(View()), old(queued.items[0])).value else old(View())
      ensures queued.Valid() && queued.items == old(queued.items)
    {
      ghost var q, item := View(), queued.items[0];
      assert queued.items == [item];
      var queueEmpty := |queue| == 0 && queuedBytes == 0;
      var hasCountSpace := maxQueueSize == 0 || |queue| < maxQueueSize;
      var hasByteSpace := maxQueueBytes == 0 || queueEmpty
                          || queuedBytes + queued.byteSize <= maxQueueBytes;
      accepted := TryMerge(queued, hasByteSpace);
      if accepted || !hasCountSpace || !hasByteSpace {
        return;
      }
      Enqueue(queued);
      return true;
    }

    /** The next turn of the loop of `handle`, after its wait. */
    method Retry(queued: QueuedEvent) returns (accepted: bool)
      requires Valid() && queued.Valid() && queued !in queue && |queued.items| == 1
      modifies this, queue
      ensures Valid()
      ensures var cleared := old(View()).(hasSpace := false);
              var offer := Offer(cleared, old(queued.items[0]));
              accepted == offer.Some? && View() == if accepted then offer.value else cleared
      ensures queued.Valid() && queued.items == old(queued.items)
    {
      hasSpace := false;
      accepted := TryHandle(queued);
    }

    method PopLeft() returns (queued: QueuedEvent)
      requires Valid() && queue != []
      modifies this`queue, this`contents, this`queuedBytes
      ensures Valid() && queuedBytes == old(queuedBytes) - SizeOf(queued.items)
      ensures queued == old(queue)[0] && queue == old(queue)[1..] && queued !in queue
      ensures contents == old(contents)[1..]
      ensures queued.Valid() && queued.items == old(contents)[0]
    {
      TakenDrops(View());
      queued := queue[0];
      queue := queue[1..];
      contents := contents[1..];
      queuedBytes := queuedBytes - queued.byteSize;
    }

    /** The dispatcher's loop up to the point where it handles the event. */
    method TakeNext() returns (queued: QueuedEvent)
      requires Valid() && queue != []
      modifies this
      ensures Valid() && View() == Taken(old(View()))
      ensures queued == old(queue)[0] && queued !in queue
      ensures queued.Valid() && queued.items == old(View()).entries[0]
    {
      queued := PopLeft();
      if (maxQueueSize > 0 && |queue| < maxQueueSize)
         || (maxQueueBytes > 0 && queuedBytes < maxQueueBytes) {
        hasSpace := true;
      }
      if |queue| == 0 {
        hasEvents := false;
      }
    }

    /** The dispatcher's loop after the event and its callbacks. */
    method Settle(queued: QueuedEvent) returns (exit: bool)
      requires Valid() && queued.Valid()
      modifies this`closed
      ensures Valid() && View() == old(View()).(closed := old(closed) || queued.event == StreamClosed)
      ensures exit <==> View().closed && View().entries == []
    {
      if queued.event.StreamClosed? {
        closed := true;
      }
      exit := closed && |queue| == 0;
    }
  }
}
