/** The HTTP/2 send scheduler as the object it is: a dictionary of mutable
    stream buffers, a priority tree and a wake-up flag, over a connection whose
    flow-control windows and frame log live in another object.  Every method is
    one uninterrupted stretch of code and is tied to the functions of `H2Send`. */
module H2Scheduler {
  import opened Common
  import opened StreamBuffers
  import opened H2Send
  import opened H2Drain

  /** The part of the HTTP/2 library the scheduler calls.  The `fault` argument
      of a call says where the library raises ProtocolError, if at all. */
  class H2Connection {
    var windows: Windows
    var frames: seq<Frame>

    constructor (windows: Windows)
      ensures this.windows == windows && frames == []
    {
      this.windows, frames := windows, [];
    }

    method LocalFlowControlWindow(id: int, fault: Fault) returns (window: Option<int>)
      requires id in windows.streams
      ensures window == if fault == WindowFault then None
                        else Some(Min(windows.conn, windows.streams[id]))
    {
      window := if fault == WindowFault then None else Some(Min(windows.conn, windows.streams[id]));
    }

    /** The library itself refuses an overlong frame, so callers must stay
        inside both windows and the frame size. */
    method SendData(id: int, data: Bytes, fault: Fault) returns (ok: bool)
      requires id in windows.streams && 0 < |data| <= ChunkSize(windows, id)
      modifies this
      ensures ok <==> fault != DataFault
      ensures ok ==> frames == old(frames) + [DataFrame(id, data)]
      ensures ok ==> windows == Spend(old(windows), id, |data|)
      ensures !ok ==> frames == old(frames) && windows == old(windows)
    {
      ok := fault != DataFault;
      if ok {
        frames := frames + [DataFrame(id, data)];
        windows := Spend(windows, id, |data|);
      }
    }

    method EndStream(id: int, fault: Fault) returns (ok: bool)
      modifies this`frames
      ensures ok <==> fault != EndFault
      ensures frames == if ok then old(frames) + [EndFrame(id)] else old(frames)
    {
      ok := fault != EndFault;
      if ok {
        frames := frames + [EndFrame(id)];
      }
    }

    method SendTrailers(id: int, headers: Headers, fault: Fault) returns (ok: bool)
      modifies this`frames
      ensures ok <==> fault != EndFault
      ensures frames == if ok then old(frames) + [TrailersFrame(id, headers)] else old(frames)
    {
      ok := fault != EndFault;
      if ok {
        frames := frames + [TrailersFrame(id, headers)];
      }
    }
  }

  class H2SendScheduler {
    const connection: H2Connection
    var hasData: bool
    var tree: set<int>
    var ready: set<int>
    var streamBuffers: map<int, StreamBuffer>

    /** The queue each buffer object stands for. */
    ghost var contents: map<int, BufferView>

    /** Each id has a buffer object of its own, and the tree is tidy. */
    ghost predicate Valid()
      reads this, streamBuffers.Values
    {
      && streamBuffers.Keys == contents.Keys
      && (forall id :: id in streamBuffers ==>
            streamBuffers[id].Valid() && streamBuffers[id].View() == contents[id])
      && (forall i, j :: i in streamBuffers && j in streamBuffers && i != j ==>
            streamBuffers[i] != streamBuffers[j])
      && ready <= streamBuffers.Keys <= tree
    }

    /** The library knows every registered stream. */
    ghost predicate Linked()
      reads this, connection
    {
      streamBuffers.Keys <= connection.windows.streams.Keys
    }

    ghost function View(): Sched
      reads this
    {
      Sched(contents, tree, ready, hasData)
    }

    constructor (connection: H2Connection)
      ensures Valid() && View() == Sched(map[], {}, {}, false)
      ensures this.connection == connection
    {
      this.connection := connection;
      hasData, tree, ready, streamBuffers, contents := false, {}, {}, map[], map[];
    }

    method RegisterStream(id: int)
      requires Valid() && Linked() && id in connection.windows.streams
      modifies this
      ensures Valid() && fresh(streamBuffers.Values - old(streamBuffers.Values))
      ensures View() == Register(old(View()), id)
    {
      var known := id in tree;
      var buffer := new StreamBuffer();
      streamBuffers, contents := streamBuffers[id := buffer], contents[id := EMPTY];
      tree, ready := tree + {id}, if known then ready else ready - {id};
    }

    method WakeUp()
      requires Valid()
      modifies this`hasData
      ensures Valid() && View() == Wake(old(View()))
    {
      hasData := true;
    }

    method Block(id: int)
      requires Valid()
      modifies this`ready
      ensures Valid() && View() == old(View()).(ready := old(ready) - {id})
    {
      ready := ready - {id};
    }

    method Unblock(id: int)
      requires Valid() && id in streamBuffers
      modifies this`ready
      ensures Valid() && View() == old(View()).(ready := old(ready) + {id})
    {
      ready := ready + {id};
    }

    /** `unblock` and the wake-up that follows it. */
    method Ready(id: int)
      requires Valid() && id in streamBuffers
      modifies this`ready, this`hasData
      ensures Valid() && View() == old(View()).(ready := old(ready) + {id}, hasData := true)
    {
      Unblock(id);
      WakeUp();
    }

    method PushTo(id: int, data: Bytes) returns (shouldPause: Option<bool>)
      requires Valid() && id in streamBuffers
      modifies this`contents, streamBuffers[id]
      ensures Valid() && shouldPause.Some? == CanPush(old(contents)[id])
      ensures shouldPause == None ==> contents == old(contents)
      ensures shouldPause.Some? ==>
                && contents == old(contents)[id := Pushed(old(contents)[id], data)]
                && shouldPause.value == ShouldPause(contents[id])
    {
      shouldPause := streamBuffers[id].Push(data);
      if shouldPause.Some? {
        contents := contents[id := Pushed(contents[id], data)];
      }
    }

    method CompleteOn(id: int)
      requires Valid() && id in streamBuffers
      modifies this`contents, streamBuffers[id]
      ensures Valid() && contents == old(contents)[id := old(contents)[id].(complete := true)]
    {
      streamBuffers[id].SetComplete();
      contents := contents[id := contents[id].(complete := true)];
    }

    method TrailersOn(id: int, headers: Headers)
      requires Valid() && id in streamBuffers
      modifies this`contents, streamBuffers[id]
      ensures Valid()
      ensures contents == old(contents)[id := old(contents)[id].(complete := true, trailers := Some(headers))]
    {
      streamBuffers[id].SetTrailers(headers);
      contents := contents[id := contents[id].(complete := true, trailers := Some(headers))];
    }

    /** Returns None where the source raises KeyError or BufferCompleteError. */
    method BufferData(id: int, data: Bytes) returns (shouldPause: Option<bool>)
      requires Valid()
      modifies this, streamBuffers.Values
      ensures Valid() && streamBuffers == old(streamBuffers)
      ensures shouldPause.Some? <==> id in old(View()).buffers && CanPush(old(View()).buffers[id])
      ensures shouldPause == None ==> View() == old(View())
      ensures shouldPause.Some? ==>
                && View() == Buffer(old(View()), id, data)
                && shouldPause.value == ShouldPause(View().buffers[id])
    {
      if id !in streamBuffers {
        return None;
      }
      shouldPause := PushTo(id, data);
      if shouldPause == None {
        return;
      }
      Ready(id);
    }

    /** Returns false where the source raises KeyError. */
    method EndStream(id: int) returns (found: bool)
      requires Valid()
      modifies this, streamBuffers.Values
      ensures Valid() && streamBuffers == old(streamBuffers)
      ensures found <==> id in old(View()).buffers
      ensures View() == if found then End(old(View()), id) else old(View())
    {
      if id !in streamBuffers {
        return false;
      }
      CompleteOn(id);
      Ready(id);
      return true;
    }

    method EndWithTrailers(id: int, headers: Headers) returns (found: bool)
      requires Valid()
      modifies this, streamBuffers.Values
      ensures Valid() && streamBuffers == old(streamBuffers)
      ensures found <==> id in old(View()).buffers
      ensures View() == if found then Trailers(old(View()), id, headers) else old(View())
    {
      if id !in streamBuffers {
        return false;
      }
      TrailersOn(id, headers);
      Ready(id);
      return true;
    }

    /** The loop of `window_updated` over the pending streams. */
    method UnblockAll(ids: set<int>)
      modifies this`ready
      ensures ready == old(ready) + ids
    {
      var pending := ids;
      while pending != {}
        invariant ready + pending == old(ready) + ids
      {
        var id := Choose(pending);
        ready := ready + {id};
        pending := pending - {id};
      }
    }

    method UnblockEvery()
      requires Valid()
      modifies this`ready
      ensures Valid() && View() == old(View()).(ready := old(ready) + streamBuffers.Keys)
    {
      UnblockAll(streamBuffers.Keys);
    }

    method UpdateWindow(id: int)
      requires Valid()
      modifies this`ready, this`hasData
      ensures Valid() && View() == WindowUpdated(old(View()), id)
    {
      if id == 0 {
        UnblockEvery();
      } else if id in streamBuffers {
        Unblock(id);
      }
      WakeUp();
    }

    /** `parents` are the ids the tree library adds, blocked, when the new
        parent is missing from it. */
    method UpdatePriority(id: int, parents: set<int>)
      requires Valid() && parents !! tree
      modifies this`tree, this`ready, this`hasData
      ensures Valid() && View() == PriorityUpdated(old(View()), parents + {id})
    {
      if id !in tree {
        tree := tree + {id};
        ready := ready - {id};
      }
      tree := tree + parents;
      ready := ready - parents;
      hasData := true;
    }

    /** Takes a stream out of the dictionary and out of the tree. */
    method Remove(id: int) returns (buffer: StreamBuffer)
      requires Valid() && id in streamBuffers
      modifies this`streamBuffers, this`contents, this`tree, this`ready
      ensures Valid() && streamBuffers == old(streamBuffers) - {id}
      ensures streamBuffers.Values <= old(streamBuffers.Values)
      ensures buffer == old(streamBuffers)[id] && buffer.Valid()
      ensures forall j :: j in streamBuffers ==> streamBuffers[j] != buffer
      ensures buffer.View() == old(View()).buffers[id]
      ensures View() == Forget(old(View()), id)
    {
      buffer := streamBuffers[id];
      streamBuffers := streamBuffers - {id};
      contents := contents - {id};
      tree := tree - {id};
      ready := ready - {id};
    }

    method Close(id: int) returns (closed: StreamBuffer?)
      requires Valid()
      modifies this, streamBuffers.Values
      ensures Valid() && streamBuffers == old(streamBuffers) - {id}
      ensures View() == CloseStream(old(View()), id) && unchanged(connection)
      ensures closed != null <==> id in old(streamBuffers)
      ensures closed != null ==>
                && closed == old(streamBuffers)[id] && closed.Valid()
                && closed.View() == Closed(old(View()).buffers[id])
    {
      if id !in streamBuffers {
        return null;
      }
      closed := Remove(id);
      closed.Close();
      hasData := true;
    }

    /** The state is what the outcome `c` says, its frames appended to `log`. */
    ghost predicate Shows(c: Sent, log: seq<Frame>)
      reads this, streamBuffers.Values, connection
    {
      && Valid() && View() == c.sched
      && connection.windows == c.windows
      && connection.frames == log + c.frames
    }

    /** The first half of `_send_data`; `ok` is false where the library raised
        and the stream was closed. */
    method SendPart(id: int, chunkSize: nat, fault: Fault) returns (ok: bool, needsFlush: bool)
      requires Valid() && Linked() && id in streamBuffers && chunkSize == ChunkSize(connection.windows, id)
      modifies this, streamBuffers.Values, connection
      ensures Valid()
      ensures streamBuffers == if ok then old(streamBuffers) else old(streamBuffers) - {id}
      ensures var c := SendChunk(old(View()), old(connection.windows), id, fault);
              Shows(c, old(connection.frames)) && needsFlush == c.needsFlush && ok == !c.closed
    {
      var data := Pop(id, chunkSize);
      ok, needsFlush := Transmit(id, data, fault);
    }

    method Pop(id: int, n: nat) returns (data: Bytes)
      requires Valid() && id in streamBuffers
      modifies this`contents, streamBuffers[id]
      ensures Valid()
      ensures data == PopData(old(View()).buffers[id], n)
      ensures View() == PopFrom(old(View()), id, n)
      ensures unchanged(connection)
    {
      data := streamBuffers[id].Pop(n);
      contents := contents[id := PopRest(contents[id], n)];
    }

    method Transmit(id: int, data: Bytes, fault: Fault) returns (ok: bool, needsFlush: bool)
      requires Valid() && id in streamBuffers && id in connection.windows.streams
      requires |data| <= ChunkSize(connection.windows, id)
      modifies this, streamBuffers.Values, connection
      ensures Valid()
      ensures streamBuffers == if ok then old(streamBuffers) else old(streamBuffers) - {id}
      ensures var c := HandOver(old(View()), old(connection.windows), id, data, fault);
              Shows(c, old(connection.frames)) && needsFlush == c.needsFlush && ok == !c.closed
    {
      if data == [] {
        Block(id);
        return true, false;
      }
      ghost var s0 := View();
      ok := connection.SendData(id, data, fault);
      assert Valid() && View() == s0;
      needsFlush := ok;
      if !ok {
        var _ := Close(id);
      }
    }

    /** The second half of `_send_data`. */
    method EndPart(id: int, needsFlush: bool, fault: Fault, ghost c: Sent, ghost log: seq<Frame>)
      returns (flush: bool, finished: StreamBuffer?)
      requires Shows(c, log) && id in streamBuffers && needsFlush == c.needsFlush
      requires c.finished == None && !c.closed
      modifies this, streamBuffers.Values, connection`frames
      ensures Valid()
      ensures streamBuffers == old(streamBuffers) || streamBuffers == old(streamBuffers) - {id}
      ensures var sent := EndIfDrained(c, id, fault);
              && Shows(sent, log) && flush == sent.needsFlush
              && (finished != null <==> sent.finished.Some?)
              && (finished != null ==>
                    && finished == old(streamBuffers)[id] && finished.Valid()
                    && finished.View() == sent.finished.value)
    {
      var buffer := streamBuffers[id];
      var complete := buffer.IsComplete();
      if !complete {
        return needsFlush, null;
      }
      var ok := SendEnd(id, buffer.trailers, fault);
      assert Valid() && View() == c.sched;
      if ok {
        finished := Remove(id);
        flush := true;
        assert connection.frames == log + (c.frames + [EndOf(id, c.sched.buffers[id])]);
      } else {
        var _ := Close(id);
        flush, finished := false, null;
      }
    }

    method SendEnd(id: int, trailers: Option<Headers>, fault: Fault) returns (ok: bool)
      modifies connection`frames
      ensures ok <==> fault != EndFault
      ensures connection.frames == if !ok then old(connection.frames)
                                   else old(connection.frames)
                                        + [if trailers.None? then EndFrame(id)
                                           else TrailersFrame(id, trailers.value)]
    {
      match trailers
      case None => { ok := connection.EndStream(id, fault); }
      case Some(headers) => { ok := connection.SendTrailers(id, headers, fault); }
    }

    /** `_send_data` once the window is known. */
    method SendWithin(id: int, chunkSize: nat, fault: Fault) returns (needsFlush: bool, finished: StreamBuffer?)
      requires Valid() && Linked() && id in streamBuffers && chunkSize == ChunkSize(connection.windows, id)
      requires fault != WindowFault
      modifies this, streamBuffers.Values, connection
      ensures Valid()
      ensures streamBuffers == old(streamBuffers) || streamBuffers == old(streamBuffers) - {id}
      ensures var sent := SendData(old(View()), old(connection.windows), id, fault);
              && Shows(sent, old(connection.frames)) && needsFlush == sent.needsFlush
              && (finished != null <==> sent.finished.Some?)
              && (finished != null ==>
                    && finished == old(streamBuffers)[id]
                    && finished.Valid() && finished.View() == sent.finished.value)
    {
      finished := null;
      ghost var c := SendChunk(View(), connection.windows, id, fault);
      ghost var log := connection.frames;
      var ok;
      ok, needsFlush := SendPart(id, chunkSize, fault);
      if ok {
        needsFlush, finished := EndPart(id, needsFlush, fault, c, log);
      }
    }

    /** `_send_data` for a registered stream. */
    method SendFrom(id: int, fault: Fault) returns (needsFlush: bool, finished: StreamBuffer?)
      requires Valid() && Linked() && id in streamBuffers
      modifies this, streamBuffers.Values, connection
      ensures Valid()
      ensures streamBuffers == old(streamBuffers) || streamBuffers == old(streamBuffers) - {id}
      ensures var sent := SendData(old(View()), old(connection.windows), id, fault);
              && Shows(sent, old(connection.frames)) && needsFlush == sent.needsFlush
              && (finished != null <==> sent.finished.Some?)
              && (finished != null ==>
                    && finished == old(streamBuffers)[id]
                    && finished.Valid() && finished.View() == sent.finished.value)
    {
      var window := connection.LocalFlowControlWindow(id, fault);
      if window == None {
        var _ := Close(id);
        return false, null;
      }
      var chunkSize := Max(0, Min(window.value, connection.windows.maxFrame));
      needsFlush, finished := SendWithin(id, chunkSize, fault);
    }

    /** One call of `_send_data`. */
    method SendOne(id: int, fault: Fault) returns (needsFlush: bool, finished: StreamBuffer?)
      requires Valid() && Linked()
      modifies this, streamBuffers.Values, connection
      ensures Valid()
      ensures streamBuffers == old(streamBuffers) || streamBuffers == old(streamBuffers) - {id}
      ensures var sent := SendData(old(View()), old(connection.windows), id, fault);
              && Shows(sent, old(connection.frames)) && needsFlush == sent.needsFlush
              && (finished != null <==> sent.finished.Some?)
              && (finished != null ==>
                    && id in old(streamBuffers) && finished == old(streamBuffers)[id]
                    && finished.Valid() && finished.View() == sent.finished.value)
    {
      if id !in streamBuffers {
        return false, null;
      }
      needsFlush, finished := SendFrom(id, fault);
    }

    /** Buffers taken out of the dictionary that wait for the flush. */
    ghost predicate Detached(finished: seq<StreamBuffer>)
      reads this, finished
    {
      && (forall i :: 0 <= i < |finished| ==> finished[i].Valid())
      && (forall j :: j in streamBuffers ==> streamBuffers[j] !in finished)
    }

    /** The state is what the batch `b` computed, its frames appended to `log`. */
    ghost predicate Computed(b: Batch, log: seq<Frame>)
      reads this, streamBuffers.Values, connection
    {
      && Valid() && Linked() && View() == b.sched && connection.windows == b.windows
      && connection.frames == log + b.frames
    }

    /** And so are the loop's own variables. */
    ghost predicate Follows(b: Batch, log: seq<Frame>, needsFlush: bool, finished: seq<StreamBuffer>)
      reads this, streamBuffers.Values, connection, finished
    {
      && Computed(b, log)
      && needsFlush == b.needsFlush && |finished| == |b.finished|
      && Detached(finished)
    }

    /** A call of `_send_data` leaves the buffers taken out before alone, and
        takes out at most one more object. */
    method SendApart(id: int, fault: Fault, ghost finished: seq<StreamBuffer>)
      returns (needsFlush: bool, buffer: StreamBuffer?)
      requires Valid() && Linked() && Detached(finished)
      modifies this, streamBuffers.Values, connection
      ensures Valid() && Detached(finished) && streamBuffers.Values <= old(streamBuffers.Values)
      ensures var sent := SendData(old(View()), old(connection.windows), id, fault);
              && Shows(sent, old(connection.frames)) && needsFlush == sent.needsFlush
              && (buffer != null <==> sent.finished.Some?)
      ensures buffer != null ==>
                && buffer.Valid() && buffer in old(streamBuffers.Values)
                && forall j :: j in streamBuffers ==> streamBuffers[j] != buffer
    {
      assert forall j :: j in streamBuffers ==> streamBuffers[j] !in finished;
      needsFlush, buffer := SendOne(id, fault);
    }

    /** One turn of the loop of `_send_ready_batch`; `pick` records whether the
        library raised. */
    method Turn(id: int, needsFlush: bool, finished: seq<StreamBuffer>,
                ghost b: Batch, ghost log: seq<Frame>)
      returns (needsFlush': bool, finished': seq<StreamBuffer>, ghost pick: Pick, ghost b': Batch)
      requires Follows(b, log, needsFlush, finished)
      modifies this, streamBuffers.Values, connection
      ensures pick.0 == id && b' == Extend(b, pick)
      ensures Follows(b', log, needsFlush', finished')
      ensures streamBuffers.Values <= old(streamBuffers.Values)
      ensures forall f :: f in finished' ==> f in finished || f in old(streamBuffers.Values)
    {
      var fault: Fault := *;
      pick := (id, fault);
      b' := Extend(b, pick);
      ghost var c := SendData(b.sched, b.windows, id, fault);
      var flush, buffer := SendApart(id, fault, finished);
      AppendAssoc(log, b.frames, c.frames);
      needsFlush' := needsFlush || flush;
      finished' := if buffer == null then finished else finished + [buffer];
    }

    /** One turn more of a batch that began in the state `s` and `w`. */
    method TurnOn(id: int, needsFlush: bool, finished: seq<StreamBuffer>,
                  ghost s: Sched, ghost w: Windows, ghost log: seq<Frame>, ghost picks: seq<Pick>)
      returns (needsFlush': bool, finished': seq<StreamBuffer>, ghost picks': seq<Pick>)
      requires s.buffers.Keys <= w.streams.Keys && Picked(s, w, picks) && id in ready
      requires Follows(SendAll(s, w, picks), log, needsFlush, finished)
      modifies this, streamBuffers.Values, connection
      ensures |picks'| == |picks| + 1 && picks' == picks + [picks'[|picks|]] && picks'[|picks|].0 == id
      ensures Picked(s, w, picks') && Follows(SendAll(s, w, picks'), log, needsFlush', finished')
      ensures streamBuffers.Values <= old(streamBuffers.Values)
      ensures forall f :: f in finished' ==> f in finished || f in old(streamBuffers.Values)
    {
      ghost var pick, b;
      needsFlush', finished', pick, b := Turn(id, needsFlush, finished, SendAll(s, w, picks), log);
      PickedSnoc(s, w, picks, pick);
      picks' := picks + [pick];
    }

    /** One turn more on whichever ready stream the tree picks. */
    method NextTurn(needsFlush: bool, finished: seq<StreamBuffer>,
                    ghost s: Sched, ghost w: Windows, ghost log: seq<Frame>, ghost picks: seq<Pick>)
      returns (needsFlush': bool, finished': seq<StreamBuffer>, ghost picks': seq<Pick>)
      requires s.buffers.Keys <= w.streams.Keys && Picked(s, w, picks) && ready != {}
      requires Follows(SendAll(s, w, picks), log, needsFlush, finished)
      modifies this, streamBuffers.Values, connection
      ensures |picks'| == |picks| + 1 && picks' == picks + [picks'[|picks|]]
      ensures Picked(s, w, picks') && Follows(SendAll(s, w, picks'), log, needsFlush', finished')
      ensures streamBuffers.Values <= old(streamBuffers.Values)
      ensures forall f :: f in finished' ==> f in finished || f in old(streamBuffers.Values)
    {
      var id := Choose(ready);
      needsFlush', finished', picks' := TurnOn(id, needsFlush, finished, s, w, log, picks);
    }

    /** The part of `_send_ready_batch` before its flush.  `picks` records what
        the tree and the library chose. */
    method SendReadyBatch(first: int)
      returns (needsFlush: bool, finished: seq<StreamBuffer>, ghost picks: seq<Pick>, ghost b: Batch)
      requires Valid() && Linked() && first in ready
      modifies this, streamBuffers.Values, connection
      ensures 0 < |picks| <= 16 && picks[0].0 == first
      ensures Picked(old(View()), old(connection.windows), picks)
      ensures b == SendAll(old(View()), old(connection.windows), picks)
      ensures Follows(b, old(connection.frames), needsFlush, finished)
      ensures |picks| == 16 || ready == {}
      ensures streamBuffers.Values <= old(streamBuffers.Values)
      ensures forall f :: f in finished ==> f in old(streamBuffers.Values)
    {
      ghost var s, w, log := View(), connection.windows, connection.frames;
      needsFlush, finished, picks := TurnOn(first, false, [], s, w, log, []);
      var sends := 1;
      while sends < MAX_BATCHED_SENDS && ready != {}
        invariant sends == |picks| <= MAX_BATCHED_SENDS && picks[0].0 == first
        invariant streamBuffers.Values <= old(streamBuffers.Values)
        invariant s.buffers.Keys <= w.streams.Keys && Picked(s, w, picks)
        invariant Follows(SendAll(s, w, picks), log, needsFlush, finished)
        invariant forall f :: f in finished ==> f in old(streamBuffers.Values)
      {
        needsFlush, finished, picks := NextTurn(needsFlush, finished, s, w, log, picks);
        sends := sends + 1;
      }
      b := SendAll(s, w, picks);
    }

    /** The part of `_send_ready_batch` after its flush, which also runs when
        the flush raises. */
    method FinishAll(finished: seq<StreamBuffer>, ghost b: Batch, ghost log: seq<Frame>)
      requires Computed(b, log) && Detached(finished)
      modifies finished
      ensures Computed(b, log)
      ensures forall i :: 0 <= i < |finished| ==>
                && finished[i].Valid()
                && finished[i].View() == old(finished[i].View()).(finished := true)
    {
      for n := 0 to |finished|
        invariant forall i :: 0 <= i < |finished| ==> finished[i].Valid()
        invariant forall i :: 0 <= i < |finished| ==>
                    finished[i].View().(finished := true) == old(finished[i].View()).(finished := true)
        invariant forall i :: 0 <= i < n ==> finished[i].finished
      {
        finished[n].Finish();
      }
    }

    /** The loop of `run` with no new input, up to the point where the tree
        reports that every stream is blocked. */
    method RunUntilBlocked() returns (ghost picks: seq<Pick>)
      requires Valid() && Linked()
      modifies this, streamBuffers.Values, connection
      ensures ready == {} && Picked(old(View()), old(connection.windows), picks)
      ensures |picks| <= Fuel(old(View()))
      ensures Computed(SendAll(old(View()), old(connection.windows), picks), old(connection.frames))
    {
      ghost var s, w, log := View(), connection.windows, connection.frames;
      picks := [];
      while ready != {}
        invariant Ran(s, w, log, picks) && streamBuffers.Values <= old(streamBuffers.Values)
        decreases Fuel(s) - |picks|
      {
        ghost var more := RunOnce(s, w, log, picks);
        picks := picks + more;
      }
      DrainIsBounded(s, w, picks);
    }

    ghost predicate Ran(s: Sched, w: Windows, log: seq<Frame>, picks: seq<Pick>)
      reads this, streamBuffers.Values, connection
    {
      && Tidy(s) && s.buffers.Keys <= w.streams.Keys && Picked(s, w, picks)
      && Computed(SendAll(s, w, picks), log)
    }

    /** One turn of the loop of `run`. */
    method RunOnce(ghost s: Sched, ghost w: Windows, ghost log: seq<Frame>, ghost picks: seq<Pick>)
      returns (ghost more: seq<Pick>)
      requires Ran(s, w, log, picks) && ready != {}
      modifies this, streamBuffers.Values, connection
      ensures more != [] && |picks + more| <= Fuel(s)
      ensures Ran(s, w, log, picks + more)
      ensures streamBuffers.Values <= old(streamBuffers.Values)
    {
      ghost var b;
      more, b := OneBatch();
      SendAllAppend(s, w, picks, more);
      DrainIsBounded(s, w, picks + more);
      AppendAssoc(log, SendAll(s, w, picks).frames, b.frames);
    }

    method OneBatch() returns (ghost picks: seq<Pick>, ghost b: Batch)
      requires Valid() && Linked() && ready != {}
      modifies this, streamBuffers.Values, connection
      ensures picks != [] && Picked(old(View()), old(connection.windows), picks)
      ensures b == SendAll(old(View()), old(connection.windows), picks)
      ensures Computed(b, old(connection.frames)) && streamBuffers.Values <= old(streamBuffers.Values)
    {
      var id := Choose(ready);
      picks, b := BatchOn(id);
    }

    /** All of `_send_ready_batch`; its flush lies between the two calls. */
    method BatchOn(first: int) returns (ghost picks: seq<Pick>, ghost b: Batch)
      requires Valid() && Linked() && first in ready
      modifies this, streamBuffers.Values, connection
      ensures picks != [] && Picked(old(View()), old(connection.windows), picks)
      ensures b == SendAll(old(View()), old(connection.windows), picks)
      ensures Computed(b, old(connection.frames)) && streamBuffers.Values <= old(streamBuffers.Values)
    {
      var needsFlush, finished;
      ghost var log := connection.frames;
      needsFlush, finished, picks, b := SendReadyBatch(first);
      FinishAll(finished, b, log);
    }
  }
}
