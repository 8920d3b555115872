/** The HTTP/2 send path does not stall and its drain loop ends. */
module H2Progress {
  import opened Common
  import opened StreamBuffers
  import opened H2Send
  import opened H2System

  /** Nothing of this stream may leave now: it has nothing to send and is not
      ended, or it has bytes and one of its two windows is used up.  The end of
      a stream that has no bytes left needs no window. */
  predicate Starved(w: Windows, id: int, b: BufferView)
    requires id in w.streams
  {
    if b.data == [] then !b.complete else Min(w.conn, w.streams[id]) <= 0
  }

  predicate Noticed(s: System, id: int) { 0 in s.notices || id in s.notices }

  /** A blocked stream is starved, or the call that will unblock it is due. */
  predicate NoStall(s: System)
    requires Base(s)
  {
    forall id :: id in s.sched.buffers && id !in s.sched.ready ==>
      Starved(s.windows, id, s.sched.buffers[id]) || Noticed(s, id)
  }

  /** The scheduler's task sleeps through no wake-up. */
  predicate Awake(s: System)
  {
    s.runner == Parked && !s.sched.hasData ==> s.sched.ready == {}
  }

  /** A call blocks only a stream that is starved. */
  lemma BlockedIsStarved(s: Sched, w: Windows, id: int, r: Sent)
    requires id in s.ready && id in s.buffers && id in w.streams && w.maxFrame > 0 && Outcome(s, w, id, r)
    requires id in r.sched.buffers && id !in r.sched.ready
    ensures id in r.windows.streams && Starved(r.windows, id, r.sched.buffers[id])
  {
    var b := s.buffers[id];
    var n := ChunkSize(w, id);
    assert PopData(b, n) == [] && r.windows == w && r.sched.buffers[id] == PopRest(b, n);
  }

  /** It leaves the others no more credit and the same buffers. */
  lemma OthersStayStarved(s: Sched, w: Windows, id: int, r: Sent, j: int)
    requires id in s.ready && id in s.buffers && id in w.streams && Outcome(s, w, id, r)
    requires j != id && j in r.sched.buffers && j !in r.sched.ready
    ensures j in s.buffers && j !in s.ready
    ensures j in w.streams ==> j in r.windows.streams
    ensures j in w.streams && Starved(w, j, s.buffers[j]) ==> Starved(r.windows, j, r.sched.buffers[j])
  {
  }

  lemma SendKeepsNoStall(s: System, id: int, sent: Sent)
    requires Base(s) && id in s.sched.ready && (s.runner == AtHead || s.runner.InBatch?)
    requires Outcome(s.sched, s.windows, id, sent) && Base(AfterSend(s, id, sent))
    requires NoStall(s)
    ensures NoStall(AfterSend(s, id, sent))
  {
    var s' := AfterSend(s, id, sent);
    forall j | j in s'.sched.buffers && j !in s'.sched.ready
      ensures Starved(s'.windows, j, s'.sched.buffers[j]) || Noticed(s', j)
    {
      if j == id {
        BlockedIsStarved(s.sched, s.windows, id, sent);
      } else {
        OthersStayStarved(s.sched, s.windows, id, sent, j);
      }
    }
  }

  lemma AppKeepsNoStall(s: System, step: Step)
    requires Base(s) && Enabled(s, step) && IsApp(step) && Base(Next(s, step)) && NoStall(s)
    ensures NoStall(Next(s, step))
  {
  }

  lemma ReaderKeepsNoStall(s: System, step: Step)
    requires Base(s) && Enabled(s, step) && !IsApp(step) && !IsTask(step)
    requires Base(Next(s, step)) && NoStall(s)
    ensures NoStall(Next(s, step))
  {
    var s' := Next(s, step);
    forall id | id in s'.sched.buffers && id !in s'.sched.ready
      ensures Starved(s'.windows, id, s'.sched.buffers[id]) || Noticed(s', id)
    {
      if step.NotifyStep? {
        assert s.notices == [s.notices[0]] + s'.notices;
      }
    }
  }

  lemma KeepNoStall(s: System, step: Step)
    requires Base(s) && Enabled(s, step) && NoStall(s) && Awake(s)
    ensures Base(Next(s, step)) && NoStall(Next(s, step)) && Awake(Next(s, step))
  {
    KeepBase(s, step);
    if IsApp(step) {
      AppKeepsNoStall(s, step);
    } else if !IsTask(step) {
      ReaderKeepsNoStall(s, step);
    } else if step.SendStep? {
      SendOutcome(s.sched, s.windows, step.id, step.fault);
      SendKeepsNoStall(s, step.id, SendData(s.sched, s.windows, step.id, step.fault));
    }
  }

  lemma {:induction false} RunDoesNotStall(steps: seq<Step>, s: System)
    requires Run(INITIAL, steps, s)
    ensures Base(s) && NoStall(s) && Awake(s)
    decreases |steps|
  {
    if steps == [] {
    } else {
      var mid :| Run(INITIAL, Front(steps), mid) && Base(mid) && Enabled(mid, Last(steps))
                 && s == Next(mid, Last(steps));
      RunDoesNotStall(Front(steps), mid);
      KeepNoStall(mid, Last(steps));
    }
  }

  /** In every reachable state the ready streams are registered and the
      registered ones are in the tree; every blocked stream is starved or has
      its wake-up due; and a task that sleeps with its flag clear and no
      notice due leaves no stream behind that could send. */
  lemma NeverStalls(s: System)
    requires Reachable(s)
    ensures Base(s) && Tidy(s.sched) && NoStall(s) && Awake(s)
    ensures s.runner == Parked && !s.sched.hasData && s.notices == [] ==>
              forall id :: id in s.sched.buffers ==> Starved(s.windows, id, s.sched.buffers[id])
  {
    var steps :| Run(INITIAL, steps, s);
    RunDoesNotStall(steps, s);
  }

  predicate BlockedAreStarved(s: Sched, w: Windows)
    requires s.buffers.Keys <= w.streams.Keys
  {
    forall id :: id in s.buffers && id !in s.ready ==> Starved(w, id, s.buffers[id])
  }

  lemma SendLeavesStarved(s: Sched, w: Windows, id: int, r: Sent)
    requires Tidy(s) && s.buffers.Keys <= w.streams.Keys && id in s.ready && Outcome(s, w, id, r)
    requires BlockedAreStarved(s, w) && w.maxFrame > 0
    ensures r.sched.buffers.Keys <= r.windows.streams.Keys && r.windows.maxFrame == w.maxFrame
    ensures BlockedAreStarved(r.sched, r.windows)
  {
    forall j | j in r.sched.buffers && j !in r.sched.ready
      ensures Starved(r.windows, j, r.sched.buffers[j])
    {
      if j == id {
        BlockedIsStarved(s, w, id, r);
      } else {
        OthersStayStarved(s, w, id, r, j);
      }
    }
  }

  /** Where the drain loop stops, every stream still registered is empty and
      not ended, or has bytes and a window used up: whatever the tree picked and wherever
      the library raised on the way. */
  lemma {:induction false} DrainLeavesOnlyStarved(s: Sched, w: Windows, picks: seq<Pick>)
    requires Tidy(s) && s.buffers.Keys <= w.streams.Keys && Picked(s, w, picks)
    requires BlockedAreStarved(s, w) && w.maxFrame > 0
    ensures var b := SendAll(s, w, picks);
            && b.windows.maxFrame > 0 && BlockedAreStarved(b.sched, b.windows)
            && (b.sched.ready == {} ==>
                  forall id :: id in b.sched.buffers ==> Starved(b.windows, id, b.sched.buffers[id]))
    decreases |picks|
  {
    if picks == [] {
    } else {
      DrainLeavesOnlyStarved(s, w, Front(picks));
      var b := SendAll(s, w, Front(picks));
      var (id, fault) := Last(picks);
      SendOutcome(b.sched, b.windows, id, fault);
      SendLeavesStarved(b.sched, b.windows, id, SendData(b.sched, b.windows, id, fault));
    }
  }
}
