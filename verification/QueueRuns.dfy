/** A queued stream over whole runs: any number of calls of `handle` in flight,
    a dispatcher, and any interleaving of their steps. */
module QueueRuns {
  import opened Common
  import opened QueuedStreams

  /** A call that waits for space; `woken` once the flag was set for it. */
  datatype Call = Call(item: Item, woken: bool)

  datatype Dispatcher =
    | Waiting
    | Handling(entry: Entry)
    | Acking(entry: Entry, due: seq<int>)
    | Exited

  /** `accepted` are the items in the order they were queued, `handled` the
      entries the stream has handled, `acked` the callbacks that were run;
      `atExit` is how many items had been accepted when the dispatcher left. */
  datatype World = World(
    q: Queue,
    calls: map<int, Call>,
    dispatcher: Dispatcher,
    accepted: seq<Item>,
    handled: seq<Entry>,
    acked: seq<int>,
    atExit: nat)

  datatype Step =
    | Enter(call: int, item: Item)
    | Again(call: int)
    | Take
    | Handle
    | Ack
    | Settle

  function NewWorld(maxSize: nat, maxBytes: nat): World
  {
    World(NewQueue(maxSize, maxBytes), map[], Waiting, [], [], [], 0)
  }

  predicate May(w: World, step: Step)
    requires WellFormed(w.q)
  {
    match step
    case Enter(n, _) => n !in w.calls
    case Again(n) => n in w.calls && w.calls[n].woken
    case Take => w.dispatcher == Waiting && w.q.hasEvents && w.q.entries != []
    case Handle => w.dispatcher.Handling?
    case Ack => w.dispatcher.Acking? && w.dispatcher.due != []
    case Settle => w.dispatcher.Acking? && w.dispatcher.due == [] && w.dispatcher.entry != []
  }

  /** One attempt to queue an item; a call that waits while the flag is set
      goes on at once. */
  function Attempt(w: World, q: Queue, n: int, item: Item): World
    requires WellFormed(q)
  {
    match Offer(q, item)
    case Some(q') => w.(q := q', calls := w.calls - {n}, accepted := w.accepted + [item])
    case None => w.(q := q, calls := w.calls[n := Call(item, q.hasSpace)])
  }

  function Wake(calls: map<int, Call>, frees: bool): map<int, Call>
  {
    map n | n in calls :: Call(calls[n].item, calls[n].woken || frees)
  }

  function Next(w: World, step: Step): World
    requires WellFormed(w.q) && May(w, step)
  {
    match step
    case Enter(n, item) => Attempt(w, w.q, n, item)
    case Again(n) => Attempt(w, w.q.(hasSpace := false), n, w.calls[n].item)
    case Take =>
      w.(q := Taken(w.q), calls := Wake(w.calls, Frees(w.q)), dispatcher := Handling(w.q.entries[0]))
    case Handle =>
      var e := w.dispatcher.entry;
      w.(dispatcher := Acking(e, CallbacksOf(e)), handled := w.handled + [e])
    case Ack =>
      var due := w.dispatcher.due;
      w.(dispatcher := w.dispatcher.(due := due[1..]), acked := w.acked + [due[0]])
    case Settle =>
      var closed := w.q.closed || w.dispatcher.entry[0].event == StreamClosed;
      if closed && w.q.entries == [] then
        w.(q := w.q.(closed := closed), dispatcher := Exited, atExit := |w.accepted|)
      else w.(q := w.q.(closed := closed), dispatcher := Waiting)
  }

  ghost predicate Run(start: World, steps: seq<Step>, w: World)
    decreases |steps|
  {
    if steps == [] then w == start
    else exists mid :: Run(start, Front(steps), mid) && WellFormed(mid.q) && May(mid, Last(steps))
                       && w == Next(mid, Last(steps))
  }

  /** Both limits, the exact state of the event flag, and no two neighbours
      that could have been merged. */
  predicate Tight(q: Queue)
    requires WellFormed(q)
  {
    && (q.hasEvents <==> q.entries != [])
    && (q.maxSize > 0 ==> |q.entries| <= q.maxSize)
    && (q.maxBytes > 0 && q.bytes > q.maxBytes ==> |q.entries| == 1 && |q.entries[0]| == 1)
    && (forall i :: 0 < i < |q.entries| ==> !Alike(q.entries[i - 1][0].event, q.entries[i][0].event))
  }

  /** A call that waits unwoken has something to wait for. */
  predicate NoLostWakeUp(w: World)
  {
    forall n :: n in w.calls && !w.calls[n].woken ==>
      w.q.entries != [] && (w.q.maxSize > 0 || w.q.maxBytes > 0)
  }

  function InFlight(d: Dispatcher): seq<Item>
  {
    if d.Handling? then d.entry else []
  }

  function Due(d: Dispatcher): seq<int>
  {
    if d.Acking? then d.due else []
  }

  predicate InOrder(w: World)
  {
    && Concat(w.handled) + InFlight(w.dispatcher) + Concat(w.q.entries) == w.accepted
    && w.acked + Due(w.dispatcher) == CallbacksOf(Concat(w.handled))
    && (forall i :: 0 <= i < |w.handled| ==> IsEntry(w.handled[i]))
    && (w.dispatcher.Handling? || w.dispatcher.Acking? ==> IsEntry(w.dispatcher.entry))
    && (w.dispatcher.Exited? ==>
          w.atExit <= |w.accepted| && Concat(w.handled) == w.accepted[..w.atExit])
    && (w.dispatcher == Waiting && w.q.closed ==> w.q.entries != [])
  }

  predicate Good(w: World)
  {
    WellFormed(w.q) && Tight(w.q) && NoLostWakeUp(w) && InOrder(w)
  }

  lemma MergedKeepsTight(q: Queue, item: Item)
    requires WellFormed(q) && Tight(q) && Merges(q, item)
    ensures WellFormed(Merged(q, [item])) && Tight(Merged(q, [item]).(hasEvents := true))
  {
    var q' := Merged(q, [item]).(hasEvents := true);
    MergedAppends(q, [item]);
    assert forall i :: 0 <= i < |q.entries| ==> q'.entries[i][0] == q.entries[i][0];
  }

  lemma AppendedKeepsTight(q: Queue, item: Item)
    requires WellFormed(q) && Tight(q) && !Merges(q, item)
    requires HasCountSpace(q) && HasByteSpace(q, SizeOf([item]))
    ensures WellFormed(Appended(q, [item])) && Tight(Appended(q, [item]).(hasEvents := true))
  {
    AppendedAppends(q, [item]);
  }

  lemma OfferKeepsTight(q: Queue, item: Item)
    requires WellFormed(q) && Tight(q)
    ensures Offer(q, item).Some? ==> WellFormed(Offer(q, item).value) && Tight(Offer(q, item).value)
    ensures Offer(q, item) == None ==> q.entries != [] && (q.maxSize > 0 || q.maxBytes > 0)
  {
    if Merges(q, item) {
      MergedAppends(q, [item]);
      MergedKeepsTight(q, item);
    } else if HasCountSpace(q) && HasByteSpace(q, SizeOf([item])) {
      AppendedKeepsTight(q, item);
    }
  }

  lemma TakenKeepsTight(q: Queue)
    requires WellFormed(q) && Tight(q) && q.entries != []
    ensures WellFormed(Taken(q)) && Tight(Taken(q))
    ensures (q.maxSize > 0 || q.maxBytes > 0) && Taken(q).entries == [] ==> Frees(q)
  {
    TakenDrops(q);
  }

  lemma AttemptKeeps(w: World, q: Queue, n: int, item: Item)
    requires Good(w) && (q == w.q || q == w.q.(hasSpace := false))
    ensures Good(Attempt(w, q, n, item))
  {
    OfferKeepsTight(q, item);
    if Offer(q, item).Some? {
      OfferAppends(q, item);
      AppendAssoc(Concat(w.handled) + InFlight(w.dispatcher), Concat(q.entries), [item]);
    }
  }

  lemma TakeKeeps(w: World)
    requires Good(w) && May(w, Take)
    ensures Good(Next(w, Take))
  {
    TakenKeepsTight(w.q);
    TakenDrops(w.q);
    AppendAssoc(Concat(w.handled), w.q.entries[0], Concat(Taken(w.q).entries));
  }

  lemma HandledInOrder(w: World, e: Entry, w': World)
    requires InOrder(w) && w.dispatcher == Handling(e)
    requires w' == w.(dispatcher := Acking(e, CallbacksOf(e)), handled := w.handled + [e])
    ensures InOrder(w')
  {
    ConcatSnoc(w.handled, e);
    CallbacksAppend(Concat(w.handled), e);
    assert (Concat(w.handled) + e) + [] == Concat(w.handled) + e;
  }

  lemma HandleKeeps(w: World)
    requires Good(w) && May(w, Handle)
    ensures Good(Next(w, Handle))
  {
    HandledInOrder(w, w.dispatcher.entry, Next(w, Handle));
  }

  lemma AckKeeps(w: World)
    requires Good(w) && May(w, Ack)
    ensures Good(Next(w, Ack))
  {
    var due := w.dispatcher.due;
    AppendAssoc(w.acked, [due[0]], due[1..]);
    assert [due[0]] + due[1..] == due;
  }

  lemma SettledInOrder(w: World, w': World)
    requires InOrder(w) && w.dispatcher.Acking? && w.dispatcher.due == []
    requires w' == w.(q := w'.q, dispatcher := w'.dispatcher, atExit := w'.atExit)
    requires w'.q.entries == w.q.entries
    requires if w'.dispatcher.Exited? then w.q.entries == [] && w'.atExit == |w.accepted|
             else w'.dispatcher == Waiting && (w'.q.closed ==> w.q.entries != [])
    ensures InOrder(w')
  {
    assert Concat(w.handled) + [] == Concat(w.handled);
  }

  lemma SettleKeeps(w: World)
    requires Good(w) && May(w, Settle)
    ensures Good(Next(w, Settle))
  {
    SettledInOrder(w, Next(w, Settle));
  }

  lemma Keep(w: World, step: Step)
    requires Good(w) && May(w, step)
    ensures Good(Next(w, step))
  {
    match step
    case Enter(n, item) => AttemptKeeps(w, w.q, n, item);
    case Again(n) => AttemptKeeps(w, w.q.(hasSpace := false), n, w.calls[n].item);
    case Take => TakeKeeps(w);
    case Handle => HandleKeeps(w);
    case Ack => AckKeeps(w);
    case Settle => SettleKeeps(w);
  }

  lemma {:induction false} RunsAreGood(maxSize: nat, maxBytes: nat, steps: seq<Step>, w: World)
    requires Run(NewWorld(maxSize, maxBytes), steps, w)
    ensures Good(w)
    decreases |steps|
  {
    if steps == [] {
    } else {
      var mid :| Run(NewWorld(maxSize, maxBytes), Front(steps), mid) && WellFormed(mid.q)
                 && May(mid, Last(steps)) && w == Next(mid, Last(steps));
      RunsAreGood(maxSize, maxBytes, Front(steps), mid);
      Keep(mid, Last(steps));
    }
  }

  /** What the stream is given for the entries it handles. */
  function Delivered(handled: seq<Entry>): seq<Event>
    requires forall i :: 0 <= i < |handled| ==> IsEntry(handled[i])
  {
    if handled == [] then [] else [Materialized(handled[0])] + Delivered(handled[1..])
  }

  /** A stream of events as a reader sees it: data byte by byte, whatever
      pieces it came in, between the other events. */
  datatype Token = BodyByte(b: Byte) | DataByte(b: Byte) | Whole(e: Event)

  function TokensOf(e: Event): seq<Token>
  {
    match e
    case Body(data) => seq(|data|, i requires 0 <= i < |data| => BodyByte(data[i]))
    case Data(data) => seq(|data|, i requires 0 <= i < |data| => DataByte(data[i]))
    case _ => [Whole(e)]
  }

  function Tokens(items: seq<Item>): seq<Token>
  {
    if items == [] then [] else TokensOf(items[0].event) + Tokens(items[1..])
  }

  function EventTokens(events: seq<Event>): seq<Token>
  {
    if events == [] then [] else TokensOf(events[0]) + EventTokens(events[1..])
  }

  lemma {:induction false} TokensAppend(a: seq<Item>, b: seq<Item>)
    ensures Tokens(a + b) == Tokens(a) + Tokens(b)
    decreases |a|
  {
    if a == [] {
      assert a + b == b;
    } else {
      assert (a + b)[0] == a[0] && (a + b)[1..] == a[1..] + b;
      TokensAppend(a[1..], b);
    }
  }

  function Carrying(body: bool, data: Bytes): Event { if body then Body(data) else Data(data) }

  lemma DataTokens(body: bool, a: Bytes, b: Bytes)
    ensures TokensOf(Carrying(body, a + b)) == TokensOf(Carrying(body, a)) + TokensOf(Carrying(body, b))
  {
  }

  /** Merged data is the data of the parts, one after the other. */
  lemma {:induction false} ChunkTokens(items: seq<Item>, body: bool)
    requires forall i :: 0 <= i < |items| ==> if body then items[i].event.Body? else items[i].event.Data?
    ensures Tokens(items) == TokensOf(Carrying(body, Concat(ChunksOf(items))))
    decreases |items|
  {
    if items == [] {
    } else {
      ChunkTokens(items[1..], body);
      var first, rest := DataOf(items[0].event), Concat(ChunksOf(items[1..]));
      assert ChunksOf(items)[1..] == ChunksOf(items[1..]);
      assert Concat(ChunksOf(items)) == first + rest;
      DataTokens(body, first, rest);
      assert items[0].event == Carrying(body, first);
    }
  }

  lemma MaterializedMeansItsItems(e: Entry)
    requires IsEntry(e)
    ensures TokensOf(Materialized(e)) == Tokens(e)
  {
    if Carries(e[0].event) {
      ChunkTokens(e, e[0].event.Body?);
    } else {
      assert |e| > 1 ==> Alike(e[0].event, e[1].event);
      assert e[1..] == [];
    }
  }

  lemma {:induction false} DeliveredMeansItsItems(handled: seq<Entry>)
    requires forall i :: 0 <= i < |handled| ==> IsEntry(handled[i])
    ensures EventTokens(Delivered(handled)) == Tokens(Concat(handled))
    decreases |handled|
  {
    if handled == [] {
    } else {
      MaterializedMeansItsItems(handled[0]);
      DeliveredMeansItsItems(handled[1..]);
      TokensAppend(handled[0], Concat(handled[1..]));
      assert Delivered(handled)[1..] == Delivered(handled[1..]);
    }
  }

  /** The accepted items not yet handled. */
  function Pending(w: World): seq<Item> { InFlight(w.dispatcher) + Concat(w.q.entries) }

  lemma HandledThenPending(w: World)
    requires InOrder(w)
    ensures w.accepted == Concat(w.handled) + Pending(w)
    ensures Tokens(w.accepted) == Tokens(Concat(w.handled)) + Tokens(Pending(w))
    ensures CallbacksOf(w.accepted) == CallbacksOf(Concat(w.handled)) + CallbacksOf(Pending(w))
  {
    AppendAssoc(Concat(w.handled), InFlight(w.dispatcher), Concat(w.q.entries));
    TokensAppend(Concat(w.handled), Pending(w));
    CallbacksAppend(Concat(w.handled), Pending(w));
  }

  /** Over every run the queue is a plain first-in first-out queue: what the
      stream handled, then what it is handling, then what is queued, is what
      was accepted; and the events it was given read as the accepted ones. */
  lemma QueueIsFifo(maxSize: nat, maxBytes: nat, steps: seq<Step>, w: World)
    requires Run(NewWorld(maxSize, maxBytes), steps, w)
    ensures w.accepted == Concat(w.handled) + Pending(w)
    ensures forall i :: 0 <= i < |w.handled| ==> IsEntry(w.handled[i])
    ensures Tokens(w.accepted) == EventTokens(Delivered(w.handled)) + Tokens(Pending(w))
  {
    RunsAreGood(maxSize, maxBytes, steps, w);
    DeliveredMeansItsItems(w.handled);
    HandledThenPending(w);
  }

  /** Callbacks run once each, in the order of acceptance, each after the event
      that carries its data was handled; all of them once the queue is empty. */
  lemma AcksFollowHandling(maxSize: nat, maxBytes: nat, steps: seq<Step>, w: World)
    requires Run(NewWorld(maxSize, maxBytes), steps, w)
    ensures w.acked <= CallbacksOf(Concat(w.handled)) <= CallbacksOf(w.accepted)
    ensures w.q.entries == [] && w.dispatcher == Waiting ==> w.acked == CallbacksOf(w.accepted)
  {
    RunsAreGood(maxSize, maxBytes, steps, w);
    HandledThenPending(w);
  }

  function Total(acks: seq<int>): int
  {
    if acks == [] then 0 else acks[0] + Total(acks[1..])
  }

  lemma {:induction false} TotalAppend(a: seq<int>, b: seq<int>)
    ensures Total(a + b) == Total(a) + Total(b)
    decreases |a|
  {
    if a == [] {
      assert a + b == b;
    } else {
      assert (a + b)[0] == a[0] && (a + b)[1..] == a[1..] + b;
      TotalAppend(a[1..], b);
    }
  }

  /** Each piece of data comes with a callback that acknowledges its bytes, and
      the padding that flow control counts with them. */
  predicate Acknowledging(items: seq<Item>)
  {
    forall i :: 0 <= i < |items| ==>
      match items[i].callback
      case Some(n) => n >= |DataOf(items[i].event)|
      case None => DataOf(items[i].event) == []
  }

  predicate Unpadded(items: seq<Item>)
  {
    forall i :: 0 <= i < |items| && items[i].callback.Some? ==>
      items[i].callback.value == |DataOf(items[i].event)|
  }

  /** The bytes of the items as flow control counts them. */
  function FlowOf(items: seq<Item>): int
  {
    if items == [] then 0
    else (match items[0].callback { case None => 0 case Some(n) => n }) + FlowOf(items[1..])
  }

  lemma {:induction false} CallbacksTotal(items: seq<Item>)
    requires Acknowledging(items)
    ensures Total(CallbacksOf(items)) == FlowOf(items) >= SizeOf(items)
    ensures Unpadded(items) ==> FlowOf(items) == SizeOf(items)
    decreases |items|
  {
    if items == [] {
    } else {
      CallbacksTotal(items[1..]);
      var first := match items[0].callback { case None => [] case Some(c) => [c] };
      TotalAppend(first, CallbacksOf(items[1..]));
      assert first != [] ==> first[1..] == [];
    }
  }

  lemma {:induction false} AcksAreBytes(items: seq<Item>)
    requires Acknowledging(items)
    ensures forall i :: 0 <= i < |CallbacksOf(items)| ==> CallbacksOf(items)[i] >= 0
    decreases |items|
  {
    if items == [] {
    } else {
      AcksAreBytes(items[1..]);
    }
  }

  lemma {:induction false} TotalOfBytes(acks: seq<int>)
    requires forall i :: 0 <= i < |acks| ==> acks[i] >= 0
    ensures Total(acks) >= 0
    decreases |acks|
  {
    if acks == [] {
    } else {
      TotalOfBytes(acks[1..]);
    }
  }

  lemma PrefixAcknowledges(acks: seq<int>, items: seq<Item>)
    requires Acknowledging(items) && acks <= CallbacksOf(items)
    ensures Total(acks) <= FlowOf(items)
  {
    var all := CallbacksOf(items);
    CallbacksTotal(items);
    AcksAreBytes(items);
    TotalOfBytes(all[|acks|..]);
    assert all == acks + all[|acks|..];
    TotalAppend(acks, all[|acks|..]);
  }

  lemma FirstAcknowledge(a: seq<Item>, b: seq<Item>)
    requires Acknowledging(a + b)
    ensures Acknowledging(a) && (Unpadded(a + b) ==> Unpadded(a))
  {
    assert forall i :: 0 <= i < |a| ==> (a + b)[i] == a[i];
  }

  /** Bytes acknowledged never exceed bytes handled, both as flow control counts
      them, and are all the bytes once the queue is empty and the dispatcher
      waits; without padding these are the bytes of the data itself. */
  lemma AckedNeverExceedsHandled(maxSize: nat, maxBytes: nat, steps: seq<Step>, w: World)
    requires Run(NewWorld(maxSize, maxBytes), steps, w) && Acknowledging(w.accepted)
    ensures Total(w.acked) <= FlowOf(Concat(w.handled))
    ensures w.q.entries == [] && w.dispatcher == Waiting ==> Total(w.acked) == FlowOf(w.accepted)
    ensures Unpadded(w.accepted) ==>
              FlowOf(Concat(w.handled)) == SizeOf(Concat(w.handled)) && FlowOf(w.accepted) == SizeOf(w.accepted)
  {
    AcksFollowHandling(maxSize, maxBytes, steps, w);
    QueueIsFifo(maxSize, maxBytes, steps, w);
    FirstAcknowledge(Concat(w.handled), Pending(w));
    PrefixAcknowledges(w.acked, Concat(w.handled));
    CallbacksTotal(Concat(w.handled));
    CallbacksTotal(w.accepted);
  }

  /** Over every run: the byte count is exact, both limits hold, a queue over
      the byte limit is one unmerged entry, neighbours are never alike; a call
      that waits unwoken faces a queue with something in it, and a dispatcher
      that waits with its flag clear faces an empty one. */
  lemma BoundsAndWakeUpsHold(maxSize: nat, maxBytes: nat, steps: seq<Step>, w: World, n: int)
    requires Run(NewWorld(maxSize, maxBytes), steps, w)
    ensures WellFormed(w.q) && Tight(w.q) && w.q.bytes == SizeOf(Concat(w.q.entries))
    ensures n in w.calls && !w.calls[n].woken ==> w.q.entries != []
    ensures w.dispatcher == Waiting && !w.q.hasEvents ==> w.q.entries == []
  {
    RunsAreGood(maxSize, maxBytes, steps, w);
  }

  lemma StepKeepsLimits(w: World, step: Step)
    requires WellFormed(w.q) && May(w, step)
    ensures Next(w, step).q.maxSize == w.q.maxSize && Next(w, step).q.maxBytes == w.q.maxBytes
  {
  }

  lemma {:induction false} LimitsStay(maxSize: nat, maxBytes: nat, steps: seq<Step>, w: World)
    requires Run(NewWorld(maxSize, maxBytes), steps, w)
    ensures w.q.maxSize == maxSize && w.q.maxBytes == maxBytes
    decreases |steps|
  {
    if steps == [] {
    } else {
      var mid :| Run(NewWorld(maxSize, maxBytes), Front(steps), mid) && WellFormed(mid.q)
                 && May(mid, Last(steps)) && w == Next(mid, Last(steps));
      LimitsStay(maxSize, maxBytes, Front(steps), mid);
      StepKeepsLimits(mid, Last(steps));
    }
  }

  lemma ReachedIsWellFormed(maxSize: nat, maxBytes: nat, steps: seq<Step>, w: World)
    requires Run(NewWorld(maxSize, maxBytes), steps, w)
    ensures WellFormed(w.q) && w.q.maxSize == maxSize && w.q.maxBytes == maxBytes
  {
    RunsAreGood(maxSize, maxBytes, steps, w);
    LimitsStay(maxSize, maxBytes, steps, w);
  }

  /** What the limits promise an item: it joins the last entry if that holds the
      same kind of data, or becomes a new one, as long as the queue is empty or
      neither limit is passed; a limit of 0 is none. */
  predicate HasRoom(maxSize: nat, maxBytes: nat, entries: seq<Entry>, item: Item)
  {
    var joins := Joins(entries, item);
    && (maxBytes == 0 || entries == [] || SizeOf(Concat(entries)) + |DataOf(item.event)| <= maxBytes)
    && (joins || maxSize == 0 || |entries| + 1 <= maxSize)
  }

  predicate Joins(entries: seq<Entry>, item: Item)
  {
    entries != [] && Last(entries) != []
    && ((Last(entries)[0].event.Body? && item.event.Body?) || (Last(entries)[0].event.Data? && item.event.Data?))
  }

  /** A call's item is queued at once if there is room, in an entry of its own or
      in the last one, and otherwise the call waits. */
  predicate QueuedIffRoom(w: World, n: int, item: Item, w': World)
  {
    if HasRoom(w.q.maxSize, w.q.maxBytes, w.q.entries, item) then
      && w'.accepted == w.accepted + [item] && n !in w'.calls
      && w'.q.entries == if Joins(w.q.entries, item) then Front(w.q.entries) + [Last(w.q.entries) + [item]]
                         else w.q.entries + [[item]]
    else w'.accepted == w.accepted && w'.q.entries == w.q.entries && n in w'.calls && w'.calls[n].item == item
  }

  lemma OfferTakesIffRoom(q: Queue, item: Item)
    requires WellFormed(q)
    ensures Offer(q, item).Some? <==> HasRoom(q.maxSize, q.maxBytes, q.entries, item)
    ensures Offer(q, item).Some? ==>
              Offer(q, item).value.entries
              == if Joins(q.entries, item) then Front(q.entries) + [Last(q.entries) + [item]]
                 else q.entries + [[item]]
  {
    OneItem(item);
  }

  lemma AttemptQueues(w: World, q: Queue, n: int, item: Item)
    requires WellFormed(w.q) && (q == w.q || q == w.q.(hasSpace := false))
    ensures QueuedIffRoom(w, n, item, Attempt(w, q, n, item))
  {
    OfferTakesIffRoom(q, item);
  }

  /** Over every run: an item is queued at once if and only if there is room, when
      it is handed in and whenever its call goes on after a wait. */
  lemma ItemsAreQueuedIffRoom(maxSize: nat, maxBytes: nat, steps: seq<Step>, w: World, n: int, item: Item)
    requires Run(NewWorld(maxSize, maxBytes), steps, w)
    ensures WellFormed(w.q) && w.q.maxSize == maxSize && w.q.maxBytes == maxBytes
    ensures n !in w.calls ==> QueuedIffRoom(w, n, item, Next(w, Enter(n, item)))
    ensures n in w.calls && w.calls[n].woken ==> QueuedIffRoom(w, n, w.calls[n].item, Next(w, Again(n)))
  {
    ReachedIsWellFormed(maxSize, maxBytes, steps, w);
    AttemptQueues(w, w.q, n, item);
    if n in w.calls {
      AttemptQueues(w, w.q.(hasSpace := false), n, w.calls[n].item);
    }
  }

  /** Taking an entry sets the space flag, and wakes the calls that wait, if and
      only if the queue is then under one of its limits. */
  predicate TakenWakesIffUnder(w: World, n: int, w': World)
    requires w.q.entries != []
  {
    var left := w.q.entries[1..];
    var under := (w.q.maxSize > 0 && |left| < w.q.maxSize)
                 || (w.q.maxBytes > 0 && SizeOf(Concat(left)) < w.q.maxBytes);
    && w'.q.entries == left && w'.q.hasSpace == (w.q.hasSpace || under)
    && (n in w.calls ==> n in w'.calls && w'.calls[n] == Call(w.calls[n].item, w.calls[n].woken || under))
  }

  lemma TakeWakes(w: World, n: int)
    requires WellFormed(w.q) && May(w, Take)
    ensures TakenWakesIffUnder(w, n, Next(w, Take))
  {
    TakenDrops(w.q);
  }

  lemma TakingWakesIffUnder(maxSize: nat, maxBytes: nat, steps: seq<Step>, w: World, n: int)
    requires Run(NewWorld(maxSize, maxBytes), steps, w)
    ensures WellFormed(w.q) && w.q.maxSize == maxSize && w.q.maxBytes == maxBytes
    ensures May(w, Take) ==> TakenWakesIffUnder(w, n, Next(w, Take))
  {
    ReachedIsWellFormed(maxSize, maxBytes, steps, w);
    if May(w, Take) {
      TakeWakes(w, n);
    }
  }

  lemma RunSnoc(start: World, steps: seq<Step>, mid: World, step: Step)
    requires Run(start, steps, mid) && WellFormed(mid.q) && May(mid, step)
    ensures Run(start, steps + [step], Next(mid, step))
  {
    assert Front(steps + [step]) == steps;
  }

  predicate IsEnd(e: Entry) { e != [] && e[0].event == StreamClosed }

  /** The end of the stream is queued or being handled, or was handled, and the
      dispatcher is still there. */
  predicate Ending(w: World)
  {
    && w.dispatcher != Exited
    && (|| w.q.closed
        || ((w.dispatcher.Handling? || w.dispatcher.Acking?) && IsEnd(w.dispatcher.entry))
        || exists i :: 0 <= i < |w.q.entries| && IsEnd(w.q.entries[i]))
  }

  /** No new call; the calls that wait and the dispatcher go on. */
  predicate NoneEnters(steps: seq<Step>) { forall i :: 0 <= i < |steps| ==> !steps[i].Enter? }

  /** What the dispatcher does next. */
  function Own(w: World): Step
  {
    match w.dispatcher
    case Handling(_) => Handle
    case Acking(_, due) => if due == [] then Settle else Ack
    case _ => Take
  }

  /** Something is left for it to do. */
  predicate Busy(w: World)
  {
    w.dispatcher != Exited && (w.dispatcher == Waiting ==> w.q.entries != [])
  }

  lemma OwnIsEnabled(w: World)
    requires Good(w) && Busy(w)
    ensures May(w, Own(w))
  {
  }

  lemma OwnStepKeepsCalls(w: World, w': World)
    requires WellFormed(w.q) && Busy(w) && May(w, Own(w)) && w' == Next(w, Own(w))
    ensures w'.calls.Keys == w.calls.Keys && (w'.dispatcher.Exited? ==> w'.q.entries == [])
  {
  }

  lemma OwnStepStillEnds(w: World)
    requires Good(w) && Ending(w) && May(w, Own(w))
    ensures Next(w, Own(w)).dispatcher.Exited? || Ending(Next(w, Own(w)))
  {
    var w' := Next(w, Own(w));
    if Own(w) == Take {
      var i :| w.q.closed || (0 <= i < |w.q.entries| && IsEnd(w.q.entries[i]));
      if !w.q.closed && i > 0 {
        assert w'.q.entries[i - 1] == w.q.entries[i];
      }
    }
  }

  /** How far the dispatcher is from looking at the queue again. */
  function Stage(d: Dispatcher): nat
  {
    if d.Handling? then 2 else if d.Acking? then 1 else 0
  }

  /** Nearer to an empty queue. */
  predicate Nearer(w': World, w: World)
  {
    || |w'.q.entries| < |w.q.entries|
    || (|w'.q.entries| == |w.q.entries| && Stage(w'.dispatcher) < Stage(w.dispatcher))
    || (|w'.q.entries| == |w.q.entries| && Stage(w'.dispatcher) == Stage(w.dispatcher)
        && |Due(w'.dispatcher)| < |Due(w.dispatcher)|)
  }

  lemma OwnStepAdvances(w: World, w': World)
    requires WellFormed(w.q) && Busy(w) && May(w, Own(w)) && w' == Next(w, Own(w))
    ensures Nearer(w', w)
  {
  }

  /** Steps of the dispatcher alone. */
  predicate AllOwn(steps: seq<Step>)
  {
    forall i :: 0 <= i < |steps| ==> steps[i] in {Take, Handle, Ack, Settle}
  }

  /** All that its next step does. */
  predicate OwnStepTo(w: World, w': World)
  {
    && Good(w') && w'.calls.Keys == w.calls.Keys && Nearer(w', w)
    && (w'.dispatcher.Exited? ==> w'.q.entries == [])
    && (Ending(w) ==> w'.dispatcher.Exited? || Ending(w'))
  }

  lemma OwnStep(w: World) returns (w': World)
    requires Good(w) && Busy(w)
    ensures May(w, Own(w)) && w' == Next(w, Own(w)) && OwnStepTo(w, w')
  {
    OwnIsEnabled(w);
    w' := Next(w, Own(w));
    OwnStepKeepsCalls(w, w');
    OwnStepAdvances(w, w');
    if Ending(w) {
      OwnStepStillEnds(w);
    }
    Keep(w, Own(w));
  }

  lemma OwnStepOn(start: World, done: seq<Step>, w: World, step: Step, w': World)
    requires Run(start, done, w) && AllOwn(done) && WellFormed(w.q) && May(w, step)
    requires w' == Next(w, step) && step == Own(w)
    ensures Run(start, done + [step], w') && AllOwn(done + [step])
  {
    RunSnoc(start, done, w, step);
  }

  /** Left to itself a dispatcher that has not left empties the queue. The steps
      `done` led from `start` to `w`. */
  lemma {:induction false} DispatcherEmpties(start: World, done: seq<Step>, w: World)
    returns (steps: seq<Step>, w': World)
    requires Run(start, done, w) && AllOwn(done) && Good(w) && w.dispatcher != Exited
    ensures Run(start, steps, w') && AllOwn(steps) && Good(w')
    ensures w'.q.entries == [] && w'.calls.Keys == w.calls.Keys && !Busy(w')
    ensures Ending(w) ==> w'.dispatcher.Exited? || Ending(w')
    decreases |w.q.entries|, Stage(w.dispatcher), |Due(w.dispatcher)|
  {
    if Busy(w) {
      w' := OwnStep(w);
      OwnStepOn(start, done, w, Own(w), w');
      steps := done + [Own(w)];
      if w'.dispatcher != Exited {
        steps, w' := DispatcherEmpties(start, steps, w');
      }
    } else {
      steps, w' := done, w;
    }
  }

  /** From every reached state in which the dispatcher has not left, its own
      steps come to a state in which every waiting call is woken. */
  lemma EveryCallIsWoken(maxSize: nat, maxBytes: nat, before: seq<Step>, w: World)
    returns (steps: seq<Step>, w': World)
    requires Run(NewWorld(maxSize, maxBytes), before, w) && w.dispatcher != Exited
    ensures Run(w, steps, w') && AllOwn(steps) && w'.q.entries == [] && w'.calls.Keys == w.calls.Keys
    ensures forall n :: n in w'.calls ==> w'.calls[n].woken
  {
    RunsAreGood(maxSize, maxBytes, before, w);
    assert Run(w, [], w);
    steps, w' := DispatcherEmpties(w, [], w);
  }

  lemma EndIsReached(w: World) returns (steps: seq<Step>, w': World)
    requires Good(w) && Ending(w)
    ensures Run(w, steps, w') && AllOwn(steps) && Good(w')
    ensures w'.dispatcher == Exited && w'.q.entries == [] && w'.calls.Keys == w.calls.Keys
  {
    assert Run(w, [], w);
    steps, w' := DispatcherEmpties(w, [], w);
  }

  /** In every run, once the end of the stream is under way the dispatcher's own
      steps come to it and it leaves. */
  lemma DispatcherLeaves(maxSize: nat, maxBytes: nat, before: seq<Step>, w: World)
    returns (steps: seq<Step>, w': World)
    requires Run(NewWorld(maxSize, maxBytes), before, w) && Ending(w)
    ensures Run(w, steps, w') && AllOwn(steps)
    ensures w'.dispatcher == Exited && w'.q.entries == [] && w'.calls.Keys == w.calls.Keys
  {
    RunsAreGood(maxSize, maxBytes, before, w);
    steps, w' := EndIsReached(w);
  }

  ghost predicate Lossy(w: World)
  {
    w.dispatcher == Exited && Concat(w.handled) != w.accepted
  }

  /** Some schedule of what is in flight strands an accepted item. */
  ghost predicate MayLose(w: World)
  {
    exists steps, w' :: Run(w, steps, w') && NoneEnters(steps) && Lossy(w')
  }

  lemma QuietStep(w: World, step: Step, w': World)
    requires Good(w) && w.calls == map[] && !Lossy(w) && !step.Enter?
    requires May(w, step) && w' == Next(w, step)
    ensures Good(w') && w'.calls == map[] && !Lossy(w')
  {
    Keep(w, step);
  }

  /** With no call in flight nothing more is accepted, before or after the
      dispatcher leaves. */
  lemma {:induction false} QuietRun(w: World, steps: seq<Step>, w': World)
    requires Good(w) && w.calls == map[] && !Lossy(w)
    requires Run(w, steps, w') && NoneEnters(steps)
    ensures Good(w') && w'.calls == map[] && !Lossy(w')
    decreases |steps|
  {
    if steps == [] {
    } else {
      var mid :| Run(w, Front(steps), mid) && WellFormed(mid.q)
                 && May(mid, Last(steps)) && w' == Next(mid, Last(steps));
      QuietRun(w, Front(steps), mid);
      QuietStep(mid, Last(steps), w');
    }
  }

  /** A woken call that goes on after the dispatcher left: its item is queued
      and stays there. */
  lemma LateItemIsLost(w: World, n: int)
    requires Good(w) && w.dispatcher == Exited && w.q.entries == [] && n in w.calls
    ensures May(w, Again(n)) && Lossy(Next(w, Again(n)))
  {
    var w' := Next(w, Again(n));
    Keep(w, Again(n));
    assert w'.accepted == w.accepted + [w.calls[n].item];
  }

  lemma LossReached(start: World, steps: seq<Step>, mid: World, n: int)
    requires Run(start, steps, mid) && NoneEnters(steps) && WellFormed(mid.q) && May(mid, Again(n))
    requires Lossy(Next(mid, Again(n)))
    ensures MayLose(start)
  {
    RunSnoc(start, steps, mid, Again(n));
    assert NoneEnters(steps + [Again(n)]);
  }

  lemma OwnIsNotEntering(steps: seq<Step>)
    requires AllOwn(steps)
    ensures NoneEnters(steps)
  {
  }

  lemma AWaitingCallMayLose(w: World, n: int)
    requires Good(w) && Ending(w) && n in w.calls
    ensures MayLose(w)
  {
    var steps, mid := EndIsReached(w);
    OwnIsNotEntering(steps);
    assert n in mid.calls.Keys;
    LateItemIsLost(mid, n);
    LossReached(w, steps, mid, n);
  }

  lemma NoCallNoLoss(w: World)
    requires Good(w) && Ending(w) && w.calls == map[]
    ensures !MayLose(w)
  {
    forall steps, w' | Run(w, steps, w') && NoneEnters(steps) ensures !Lossy(w') {
      QuietRun(w, steps, w');
    }
  }

  /** Once the end of the stream is under way and nothing new is handed in,
      an accepted item can be lost if and only if some call still waits. */
  lemma LossIffACallWaits(maxSize: nat, maxBytes: nat, steps: seq<Step>, w: World)
    requires Run(NewWorld(maxSize, maxBytes), steps, w) && Ending(w)
    ensures MayLose(w) <==> w.calls != map[]
  {
    RunsAreGood(maxSize, maxBytes, steps, w);
    if w.calls == map[] {
      NoCallNoLoss(w);
    } else {
      AWaitingCallMayLose(w, AnyOf(w.calls.Keys));
    }
  }

  const END := Item(StreamClosed, None)

  function Piece(b: Byte): Item { Item(Body([b]), None) }

  function Queued(b: Byte, calls: map<int, Call>): World
  {
    World(Queue(false, true, false, 1, 1, 0, [[Piece(b)]]), calls, Waiting, [Piece(b)], [], [], 0)
  }

  /** A second piece waits while the end of the stream is queued before it. */
  function Overtaken(b: Byte): World
  {
    World(Queue(false, true, false, 1, 1, 0, [[Piece(b)], [END]]), map[2 := Call(Piece(b), false)],
          Waiting, [Piece(b), END], [], [], 0)
  }

  lemma PieceQueued(b: Byte)
    ensures May(NewWorld(0, 1), Enter(1, Piece(b)))
    ensures Next(NewWorld(0, 1), Enter(1, Piece(b))) == Queued(b, map[])
  {
    OneItem(Piece(b));
  }

  lemma SecondWaits(b: Byte)
    requires WellFormed(Queued(b, map[]).q)
    ensures Next(Queued(b, map[]), Enter(2, Piece(b))) == Queued(b, map[2 := Call(Piece(b), false)])
  {
    OneItem(Piece(b));
  }

  lemma EndOvertakes(b: Byte)
    requires WellFormed(Queued(b, map[]).q)
    ensures Next(Queued(b, map[2 := Call(Piece(b), false)]), Enter(3, END)) == Overtaken(b)
  {
    OneItem(END);
  }

  ghost predicate Reached(w: World)
  {
    exists steps :: Run(NewWorld(0, 1), steps, w)
  }

  lemma GoOn(mid: World, step: Step, w: World)
    requires Reached(mid) && WellFormed(mid.q) && May(mid, step) && w == Next(mid, step)
    ensures Reached(w) && Good(w)
  {
    var steps :| Run(NewWorld(0, 1), steps, mid);
    RunSnoc(NewWorld(0, 1), steps, mid, step);
    RunsAreGood(0, 1, steps + [step], w);
  }

  lemma OvertakenReached(b: Byte)
    ensures Reached(Overtaken(b)) && Good(Overtaken(b))
  {
    var start, w1 := NewWorld(0, 1), Queued(b, map[]);
    var w2 := Queued(b, map[2 := Call(Piece(b), false)]);
    assert Run(start, [], start);
    PieceQueued(b);
    GoOn(start, Enter(1, Piece(b)), w1);
    SecondWaits(b);
    GoOn(w1, Enter(2, Piece(b)), w2);
    EndOvertakes(b);
    GoOn(w2, Enter(3, END), Overtaken(b));
  }

  /** This does happen: with a byte limit, data that waits for space is
      overtaken by the end of its stream, which needs none. */
  lemma OvertakenDataMayBeLost(b: Byte)
    ensures Reached(Overtaken(b)) && MayLose(Overtaken(b))
  {
    OvertakenReached(b);
    var steps :| Run(NewWorld(0, 1), steps, Overtaken(b));
    assert IsEnd(Overtaken(b).q.entries[1]) && Overtaken(b).calls[2] == Call(Piece(b), false);
    LossIffACallWaits(0, 1, steps, Overtaken(b));
  }
}
