/** What each operation of the HTTP/2 send scheduler computes, on values.

    `Sched` holds the dictionary of stream buffers, the priority tree as a set
    of ids with the subset that is ready (not blocked), and the wake-up flag.
    `Windows` holds what the HTTP/2 library keeps for flow control. */
module H2Send {
  import opened Common
  import opened StreamBuffers

  const MAX_BATCHED_SENDS: nat := 16

  datatype Frame =
    | DataFrame(id: int, data: Bytes)
    | EndFrame(id: int)
    | TrailersFrame(id: int, headers: Headers)

  datatype Windows = Windows(conn: int, streams: map<int, int>, initial: int, maxFrame: nat)

  datatype Sched = Sched(buffers: map<int, BufferView>, tree: set<int>, ready: set<int>, hasData: bool)

  /** Ready streams are registered, and registered streams are in the tree. */
  predicate Tidy(s: Sched) { s.ready <= s.buffers.Keys <= s.tree }

  /** Where the library may raise ProtocolError in one call of `_send_data`. */
  datatype Fault = NoFault | WindowFault | DataFault | EndFault

  function Register(s: Sched, id: int): Sched
  {
    s.(buffers := s.buffers[id := EMPTY],
       tree := s.tree + {id},
       ready := if id in s.tree then s.ready else s.ready - {id})
  }

  /** Wakes one stream after its buffer changed to `b`. */
  function Touch(s: Sched, id: int, b: BufferView): Sched
    requires id in s.buffers
  {
    s.(buffers := s.buffers[id := b], ready := s.ready + {id}, hasData := true)
  }

  function Buffer(s: Sched, id: int, data: Bytes): Sched
    requires id in s.buffers && CanPush(s.buffers[id])
  {
    Touch(s, id, Pushed(s.buffers[id], data))
  }

  function End(s: Sched, id: int): Sched
    requires id in s.buffers
  {
    Touch(s, id, s.buffers[id].(complete := true))
  }

  function Trailers(s: Sched, id: int, headers: Headers): Sched
    requires id in s.buffers
  {
    Touch(s, id, s.buffers[id].(complete := true, trailers := Some(headers)))
  }

  /** Stream 0 stands for the whole connection. */
  function WindowUpdated(s: Sched, id: int): Sched
  {
    if id == 0 then s.(ready := s.ready + s.buffers.Keys, hasData := true)
    else if id in s.buffers then s.(ready := s.ready + {id}, hasData := true)
    else s.(hasData := true)
  }

  /** `added` are the ids the tree gains: the stream itself when it was missing
      and a missing parent, all of them blocked. */
  function PriorityUpdated(s: Sched, added: set<int>): Sched
  {
    s.(tree := s.tree + added, hasData := true)
  }

  function Wake(s: Sched): Sched { s.(hasData := true) }

  function Forget(s: Sched, id: int): Sched
  {
    s.(buffers := s.buffers - {id}, tree := s.tree - {id}, ready := s.ready - {id})
  }

  function CloseStream(s: Sched, id: int): Sched
  {
    if id in s.buffers then Forget(s, id).(hasData := true) else s
  }

  /** How many bytes may leave in one frame of this stream. */
  function ChunkSize(w: Windows, id: int): nat
    requires id in w.streams
  {
    Max(0, Min(Min(w.conn, w.streams[id]), w.maxFrame))
  }

  function Spend(w: Windows, id: int, n: nat): Windows
    requires id in w.streams
  {
    w.(conn := w.conn - n, streams := w.streams[id := w.streams[id] - n])
  }

  /** The outcome of one call of `_send_data`: the frames handed to the library,
      whether they need a flush, and the buffer taken out of the dictionary,
      ended or closed. */
  datatype Sent = Sent(
    sched: Sched,
    windows: Windows,
    frames: seq<Frame>,
    needsFlush: bool,
    finished: Option<BufferView>,
    closed: bool)

  /** Hands popped bytes to the library, or blocks a stream that had none. */
  function HandOver(s: Sched, w: Windows, id: int, data: Bytes, fault: Fault): Sent
    requires id in s.buffers && id in w.streams
  {
    if data == [] then Sent(s.(ready := s.ready - {id}), w, [], false, None, false)
    else if fault == DataFault then Sent(CloseStream(s, id), w, [], false, None, true)
    else Sent(s, Spend(w, id, |data|), [DataFrame(id, data)], true, None, false)
  }

  function PopFrom(s: Sched, id: int, n: nat): Sched
    requires id in s.buffers
  {
    s.(buffers := s.buffers[id := PopRest(s.buffers[id], n)])
  }

  /** Takes what the windows allow and hands it over. */
  function SendChunk(s: Sched, w: Windows, id: int, fault: Fault): Sent
    requires id in s.buffers && id in w.streams
  {
    var n := ChunkSize(w, id);
    HandOver(PopFrom(s, id, n), w, id, PopData(s.buffers[id], n), fault)
  }

  /** Ends a stream whose buffer is complete and drained. */
  function EndIfDrained(c: Sent, id: int, fault: Fault): Sent
    requires id in c.sched.buffers
  {
    var b := c.sched.buffers[id];
    if !Drained(b) then c
    else if fault == EndFault then
      c.(sched := CloseStream(c.sched, id), needsFlush := false, closed := true)
    else
      c.(sched := Forget(c.sched, id), frames := c.frames + [EndOf(id, b)],
         needsFlush := true, finished := Some(b))
  }

  function SendData(s: Sched, w: Windows, id: int, fault: Fault): (r: Sent)
    requires s.buffers.Keys <= w.streams.Keys
    ensures r.sched.buffers.Keys <= s.buffers.Keys
    ensures r.windows.streams.Keys == w.streams.Keys
    ensures Tidy(s) ==> Tidy(r.sched)
    ensures r.finished.Some? ==> r.needsFlush && id in s.buffers && id !in r.sched.buffers
  {
    if id !in s.buffers then Sent(s, w, [], false, None, false)
    else if fault == WindowFault then Sent(CloseStream(s, id), w, [], false, None, true)
    else
      var c := SendChunk(s, w, id, fault);
      if c.closed then c else EndIfDrained(c, id, fault)
  }

  function EndOf(id: int, b: BufferView): Frame
  {
    match b.trailers
    case None => EndFrame(id)
    case Some(headers) => TrailersFrame(id, headers)
  }

  /** What one call may come to, without following its code: closed with
      nothing sent, closed after its data went out, ended, or still open with
      the window's worth of data sent.  It is blocked only in the last case,
      and only when nothing was sent. */
  ghost predicate Outcome(s: Sched, w: Windows, id: int, r: Sent)
    requires id in s.buffers && id in w.streams
  {
    var n := ChunkSize(w, id);
    var data := PopData(s.buffers[id], n);
    var rest := PopRest(s.buffers[id], n);
    var w1 := if data == [] then w else Spend(w, id, |data|);
    var frames := if data == [] then [] else [DataFrame(id, data)];
    || r == Sent(CloseStream(s, id), w, [], false, None, true)
    || (Drained(rest) && r == Sent(CloseStream(s, id), w1, frames, false, None, true))
    || (Drained(rest) && r == Sent(Forget(s, id), w1, frames + [EndOf(id, rest)], true, Some(rest), false))
    || (!Drained(rest)
        && r == Sent(s.(buffers := s.buffers[id := rest],
                        ready := if data == [] then s.ready - {id} else s.ready),
                     w1, frames, data != [], None, false))
  }

  lemma ForgetChanged(s: Sched, s': Sched, id: int)
    requires s'.buffers - {id} == s.buffers - {id} && s'.tree == s.tree
    requires s'.ready - {id} == s.ready - {id} && s'.hasData == s.hasData
    ensures Forget(s', id) == Forget(s, id)
  {
  }

  lemma SendOutcome(s: Sched, w: Windows, id: int, fault: Fault)
    requires id in s.buffers && s.buffers.Keys <= w.streams.Keys
    ensures Outcome(s, w, id, SendData(s, w, id, fault))
  {
    var n := ChunkSize(w, id);
    var data := PopData(s.buffers[id], n);
    var rest := PopRest(s.buffers[id], n);
    var s1 := PopFrom(s, id, n);
    var s2 := s1.(ready := s1.ready - {id});
    assert s.buffers[id := rest] - {id} == s.buffers - {id};
    ForgetChanged(s, s1, id);
    ForgetChanged(s, s2, id);
  }

  /** One turn of the drain loop: the stream the tree picked and whether the
      library raises. */
  type Pick = (int, Fault)

  datatype Batch = Batch(
    sched: Sched, windows: Windows, frames: seq<Frame>, needsFlush: bool, finished: seq<int>)

  function Extend(b: Batch, pick: Pick): (r: Batch)
    requires b.sched.buffers.Keys <= b.windows.streams.Keys
    ensures r.sched.buffers.Keys <= b.sched.buffers.Keys
    ensures r.windows.streams.Keys == b.windows.streams.Keys
    ensures Tidy(b.sched) ==> Tidy(r.sched)
  {
    var c := SendData(b.sched, b.windows, pick.0, pick.1);
    Batch(c.sched, c.windows, b.frames + c.frames, b.needsFlush || c.needsFlush,
          if c.finished.Some? then b.finished + [pick.0] else b.finished)
  }

  /** What a run of `_send_data` calls computes, one pick after the other. */
  function SendAll(s: Sched, w: Windows, picks: seq<Pick>): (r: Batch)
    requires s.buffers.Keys <= w.streams.Keys
    ensures r.sched.buffers.Keys <= s.buffers.Keys && r.windows.streams.Keys == w.streams.Keys
    ensures Tidy(s) ==> Tidy(r.sched)
    ensures r.finished != [] ==> r.needsFlush
  {
    if picks == [] then Batch(s, w, [], false, [])
    else Extend(SendAll(s, w, Front(picks)), Last(picks))
  }

  /** Each pick was ready when it was made. */
  predicate Picked(s: Sched, w: Windows, picks: seq<Pick>)
    requires s.buffers.Keys <= w.streams.Keys
  {
    picks != [] ==>
      && Picked(s, w, Front(picks))
      && Last(picks).0 in SendAll(s, w, Front(picks)).sched.ready
  }

  lemma PickedSnoc(s: Sched, w: Windows, picks: seq<Pick>, pick: Pick)
    requires s.buffers.Keys <= w.streams.Keys
    requires Picked(s, w, picks) && pick.0 in SendAll(s, w, picks).sched.ready
    ensures Picked(s, w, picks + [pick])
    ensures SendAll(s, w, picks + [pick]) == Extend(SendAll(s, w, picks), pick)
  {
    assert Front(picks + [pick]) == picks;
  }
}
