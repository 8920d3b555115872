/** When the callers of `end` and `trailers` are let go, and that none of them
    is left behind. */
module H2Release {
  import opened Common
  import opened StreamBuffers
  import opened H2Send
  import opened H2System
  import opened H2Fidelity

  /** A flush began after the stream was ended. */
  predicate FlushCovers(h: History, id: int)
  {
    match h
    case Start => false
    case Then(past, FlushStarted) => EndedIn(past, id) || FlushCovers(past, id)
    case Then(past, _) => FlushCovers(past, id)
  }

  /** Such a flush has completed. */
  predicate EndFlushed(h: History, id: int)
  {
    match h
    case Start => false
    case Then(past, FlushDone) => FlushCovers(past, id) || EndFlushed(past, id)
    case Then(past, _) => EndFlushed(past, id)
  }

  /** Such a flush has raised, which ends the scheduler's task. */
  predicate EndLost(h: History, id: int)
  {
    match h
    case Start => false
    case Then(past, FlushFailed) => FlushCovers(past, id) || EndLost(past, id)
    case Then(past, _) => EndLost(past, id)
  }

  predicate MayRelease(h: History, id: int)
  {
    EndFlushed(h, id) || EndLost(h, id) || GoneIn(h, id)
  }

  /** At every release: the stream's end was flushed, or the flush raised, or
      the stream was closed. */
  predicate ReleasedInTime(h: History)
  {
    match h
    case Start => true
    case Then(past, Released(id)) => ReleasedInTime(past) && MayRelease(past, id)
    case Then(past, _) => ReleasedInTime(past)
  }

  /** The streams whose end waits for the running batch. */
  function InFlight(s: System): set<int>
  {
    if s.runner.InBatch? || s.runner.Flushing? then s.runner.done else {}
  }

  ghost predicate Timely(s: System, id: int)
  {
    && (id in InFlight(s) ==> EndedIn(s.history, id))
    && (id in InFlight(s) && s.runner.Flushing? ==> FlushCovers(s.history, id))
    && (Live(s, id) ==> !s.sched.buffers[id].finished)
    && (id in s.detached ==>
          if s.detached[id].finished then MayRelease(s.history, id) else id in InFlight(s))
    && (id in s.producers && s.producers[id] == AwaitFinished && Live(s, id) ==>
          s.sched.buffers[id].complete)
  }

  ghost predicate AllTimely(s: System)
  {
    ReleasedInTime(s.history) && forall id :: Timely(s, id)
  }

  /** Observing more never takes a reason to release away. */
  lemma MoreObserved(h: History, obs: Obs, id: int)
    ensures EndedIn(h, id) ==> EndedIn(Then(h, obs), id)
    ensures FlushCovers(h, id) ==> FlushCovers(Then(h, obs), id)
    ensures MayRelease(h, id) ==> MayRelease(Then(h, obs), id)
    ensures !obs.Released? && ReleasedInTime(h) ==> ReleasedInTime(Then(h, obs))
  {
  }

  lemma ExtendTimely(h: History, id: int, data: Bytes, end: Option<Frame>, closed: bool, j: int)
    requires end.Some? ==> IsEnd(end.value) && end.value.id == id
    ensures var h' := Extended(h, id, data, end, closed);
            && (EndedIn(h, j) ==> EndedIn(h', j))
            && (end.Some? ==> EndedIn(h', id))
            && (closed ==> GoneIn(h', id))
            && (MayRelease(h, j) ==> MayRelease(h', j))
            && (ReleasedInTime(h) ==> ReleasedInTime(h'))
  {
    var h1 := if data == [] then h else Then(h, FrameSent(DataFrame(id, data)));
    MoreObserved(h, FrameSent(DataFrame(id, data)), j);
    var h2 := if end == None then h1 else Then(h1, FrameSent(end.value));
    if end.Some? {
      MoreObserved(h1, FrameSent(end.value), j);
    }
    MoreObserved(h2, Gone(id), j);
  }

  lemma SendKeepsTimely(s: System, s': System, id: int, data: Bytes, end: Option<Frame>, closed: bool)
    requires Base(s) && SentStep(s, s', id, data, end, closed) && AllTimely(s)
    requires s.runner == AtHead || s.runner.InBatch?
    ensures AllTimely(s')
  {
    assert Timely(s, id);
    forall j
      ensures ReleasedInTime(s'.history) && Timely(s', j)
    {
      ExtendTimely(s.history, id, data, end, closed, j);
      assert Timely(s, j);
    }
  }

  lemma AppKeepsTimely(s: System, step: Step)
    requires Base(s) && Enabled(s, step) && IsApp(step) && AllTimely(s)
    ensures AllTimely(Next(s, step))
  {
    var s' := Next(s, step);
    assert Timely(s, step.id);
    if s'.history != s.history {
      forall j
        ensures MayRelease(s.history, j) ==> MayRelease(s'.history, j)
        ensures EndedIn(s.history, j) ==> EndedIn(s'.history, j)
      {
        MoreObserved(s.history, s'.history.obs, j);
      }
    }
    forall j
      ensures Timely(s', j)
    {
      assert Timely(s, j);
    }
  }

  lemma TaskKeepsTimely(s: System, step: Step)
    requires Base(s) && Enabled(s, step) && IsTask(step) && !step.SendStep? && AllTimely(s)
    ensures AllTimely(Next(s, step))
  {
    var s' := Next(s, step);
    forall j
      ensures Timely(s', j)
    {
      assert Timely(s, j);
      if s'.history != s.history {
        MoreObserved(s.history, s'.history.obs, j);
      }
    }
  }

  lemma ReaderKeepsTimely(s: System, step: Step)
    requires Base(s) && Enabled(s, step) && !IsApp(step) && !IsTask(step) && AllTimely(s)
    ensures AllTimely(Next(s, step))
  {
    var s' := Next(s, step);
    forall j
      ensures ReleasedInTime(s'.history) && Timely(s', j)
    {
      assert Timely(s, j);
      if s'.history != s.history {
        MoreObserved(s.history, s'.history.obs, j);
      }
    }
  }

  lemma {:induction false} RunIsTimely(steps: seq<Step>, s: System)
    requires Run(INITIAL, steps, s)
    ensures Base(s) && AllTimely(s)
    decreases |steps|
  {
    if steps == [] {
    } else {
      var mid :| Run(INITIAL, Front(steps), mid) && Base(mid) && Enabled(mid, Last(steps))
                 && s == Next(mid, Last(steps));
      RunIsTimely(Front(steps), mid);
      var step := Last(steps);
      KeepBase(mid, step);
      if step.SendStep? {
        var sent := SendData(mid.sched, mid.windows, step.id, step.fault);
        SendOutcome(mid.sched, mid.windows, step.id, step.fault);
        var data, end := SendIsStep(mid, step.id, sent);
        SendKeepsTimely(mid, s, step.id, data, end, sent.closed);
      } else if IsApp(step) {
        AppKeepsTimely(mid, step);
      } else if IsTask(step) {
        TaskKeepsTimely(mid, step);
      } else {
        ReaderKeepsTimely(mid, step);
      }
    }
  }

  /** Over every run a caller of `end` or `trailers` is released only after a
      flush that covers its end completed, or that flush raised, or the stream
      was closed; and a caller still waiting with its event unset belongs to a
      stream that is registered and ended, or to the running batch. */
  lemma CallersAreReleasedInTime(s: System, id: int)
    requires Reachable(s)
    ensures Base(s) && ReleasedInTime(s.history)
    ensures id in s.producers && s.producers[id] == AwaitFinished && !BufferOf(s, id).finished ==>
              || (Live(s, id) && s.sched.buffers[id].complete)
              || id in InFlight(s)
  {
    var steps :| Run(INITIAL, steps, s);
    RunIsTimely(steps, s);
    assert Timely(s, id);
  }

  /** What a caller is promised: its end was flushed, or the stream closed. */
  predicate Strict(h: History, id: int) { EndFlushed(h, id) || GoneIn(h, id) }

  predicate StrictlyReleased(h: History)
  {
    match h
    case Start => true
    case Then(past, Released(id)) => StrictlyReleased(past) && Strict(past, id)
    case Then(past, _) => StrictlyReleased(past)
  }

  predicate FlushFailedIn(h: History)
  {
    match h
    case Start => false
    case Then(past, FlushFailed) => true
    case Then(past, _) => FlushFailedIn(past)
  }

  lemma {:induction false} LostMeansFailed(h: History, id: int)
    ensures EndLost(h, id) ==> FlushFailedIn(h)
  {
    match h
    case Start =>
    case Then(past, _) => LostMeansFailed(past, id);
  }

  lemma {:induction false} StrictUnlessFailed(h: History)
    requires ReleasedInTime(h) && !FlushFailedIn(h)
    ensures StrictlyReleased(h)
  {
    match h
    case Start =>
    case Then(past, obs) =>
      StrictUnlessFailed(past);
      if obs.Released? {
        LostMeansFailed(past, obs.id);
      }
  }

  /** Over every run in which no flush raised, the promise is kept. */
  lemma CallersAreReleasedStrictly(s: System)
    requires Reachable(s) && !FlushFailedIn(s.history)
    ensures StrictlyReleased(s.history)
  {
    CallersAreReleasedInTime(s, 0);
    StrictUnlessFailed(s.history);
  }

  lemma {:induction false} LogHasNoFailure(h: History, frames: seq<Frame>)
    ensures FlushFailedIn(Log(h, frames)) <==> FlushFailedIn(h)
    decreases |frames|
  {
    if frames == [] {
    } else {
      LogHasNoFailure(h, Front(frames));
    }
  }

  lemma SendFailsNoFlush(s: System, id: int, fault: Fault)
    requires Base(s) && Enabled(s, SendStep(id, fault))
    ensures FlushFailedIn(DoSend(s, id, fault).history) <==> FlushFailedIn(s.history)
  {
    LogHasNoFailure(s.history, SendData(s.sched, s.windows, id, fault).frames);
  }

  lemma TaskFailsIff(s: System, step: Step, s': System)
    requires Base(s) && Enabled(s, step) && IsTask(step) && !step.SendStep? && s' == Next(s, step)
    ensures FlushFailedIn(s'.history) <==> FlushFailedIn(s.history) || step == FlushedStep(false)
    ensures step == FlushedStep(false) ==> s'.runner == Stopped
  {
  }

  lemma OthersFailNothing(s: System, step: Step, s': System)
    requires Base(s) && Enabled(s, step) && !IsTask(step) && s' == Next(s, step)
    ensures (FlushFailedIn(s'.history) <==> FlushFailedIn(s.history)) && s'.runner == s.runner
  {
  }

  lemma StoppedIsOver(s: System, step: Step)
    requires Base(s) && s.runner == Stopped && IsTask(step)
    ensures !Enabled(s, step)
  {
  }

  lemma StepStops(s: System, step: Step, s': System)
    requires Base(s) && Enabled(s, step) && s' == Next(s, step)
    requires FlushFailedIn(s.history) ==> s.runner == Stopped
    ensures FlushFailedIn(s'.history) ==> s'.runner == Stopped
  {
    if step.SendStep? {
      SendFailsNoFlush(s, step.id, step.fault);
    } else if IsTask(step) {
      TaskFailsIff(s, step, s');
    } else {
      OthersFailNothing(s, step, s');
    }
  }

  lemma {:induction false} FailureStops(steps: seq<Step>, s: System)
    requires Run(INITIAL, steps, s)
    ensures Base(s) && (FlushFailedIn(s.history) ==> s.runner == Stopped)
    decreases |steps|
  {
    if steps == [] {
    } else {
      var mid :| Run(INITIAL, Front(steps), mid) && Base(mid) && Enabled(mid, Last(steps))
                 && s == Next(mid, Last(steps));
      FailureStops(Front(steps), mid);
      KeepBase(mid, Last(steps));
      StepStops(mid, Last(steps), s);
    }
  }

  /** A flush that raises ends the loop: in every state reached after it the
      scheduler's task has nothing more to do. */
  lemma RaisedFlushEndsTheLoop(s: System, step: Step)
    requires Reachable(s) && FlushFailedIn(s.history) && IsTask(step)
    ensures Base(s) && s.runner == Stopped && !Enabled(s, step)
  {
    var steps :| Run(INITIAL, steps, s);
    FailureStops(steps, s);
    StoppedIsOver(s, step);
  }

  lemma {:induction false} CoveredWasEnded(h: History, id: int)
    ensures FlushCovers(h, id) ==> EndedIn(h, id)
    ensures EndFlushed(h, id) ==> FlushCovers(h, id)
  {
    match h
    case Start =>
    case Then(past, _) => CoveredWasEnded(past, id);
  }

  lemma {:induction false} EndedIsNotGone(h: History, id: int)
    requires Orderly(h)
    ensures !(EndedIn(h, id) && GoneIn(h, id))
  {
    match h
    case Start =>
    case Then(past, _) => EndedIsNotGone(past, id);
  }

  /** The ends of the running batch are not covered before its flush begins,
      and not flushed before it completes. */
  predicate Fresh(s: System, id: int)
  {
    && (id in InFlight(s) && s.runner.InBatch? ==> !FlushCovers(s.history, id))
    && (id in InFlight(s) && s.runner.Flushing? ==> !EndFlushed(s.history, id))
  }

  lemma ExtendCovers(h: History, id: int, data: Bytes, end: Option<Frame>, closed: bool, j: int)
    ensures FlushCovers(Extended(h, id, data, end, closed), j) <==> FlushCovers(h, j)
  {
    var h1 := if data == [] then h else Then(h, FrameSent(DataFrame(id, data)));
    assert FlushCovers(h1, j) <==> FlushCovers(h, j);
    var h2 := if end == None then h1 else Then(h1, FrameSent(end.value));
    assert FlushCovers(h2, j) <==> FlushCovers(h1, j);
  }

  lemma SendStaysFresh(s: System, s': System, id: int, data: Bytes, end: Option<Frame>, closed: bool, j: int)
    requires SentStep(s, s', id, data, end, closed) && Faithful(s, id) && Fresh(s, j)
    requires s.runner == AtHead || s.runner.InBatch?
    ensures Fresh(s', j)
  {
    CoveredWasEnded(s.history, id);
    ExtendCovers(s.history, id, data, end, closed, j);
  }

  lemma OtherStaysFresh(s: System, step: Step, j: int)
    requires Base(s) && Enabled(s, step) && !step.SendStep? && Fresh(s, j)
    ensures Fresh(Next(s, step), j)
  {
    CoveredWasEnded(s.history, j);
  }

  lemma {:induction false} RunStaysFresh(steps: seq<Step>, s: System, j: int)
    requires Run(INITIAL, steps, s)
    ensures Fresh(s, j)
    decreases |steps|
  {
    if steps == [] {
    } else {
      var mid :| Run(INITIAL, Front(steps), mid) && Base(mid) && Enabled(mid, Last(steps))
                 && s == Next(mid, Last(steps));
      RunStaysFresh(Front(steps), mid, j);
      var step := Last(steps);
      if step.SendStep? {
        var sent := SendData(mid.sched, mid.windows, step.id, step.fault);
        SendOutcome(mid.sched, mid.windows, step.id, step.fault);
        var data, end := SendIsStep(mid, step.id, sent);
        RunIsFaithful(Front(steps), mid);
        assert Faithful(mid, step.id);
        SendStaysFresh(mid, s, step.id, data, end, sent.closed, j);
      } else {
        OtherStaysFresh(mid, step, j);
      }
    }
  }

  /** The ends of a batch being flushed: covered, and not yet flushed or gone. */
  lemma FlushedNext(s: System, id: int)
    requires Reachable(s) && s.runner.Flushing? && id in s.runner.done
    ensures FlushCovers(s.history, id) && !EndFlushed(s.history, id) && !GoneIn(s.history, id)
  {
    var steps :| Run(INITIAL, steps, s);
    RunIsTimely(steps, s);
    assert Timely(s, id);
    RunStaysFresh(steps, s, id);
    StreamsAreFaithful(s, id);
    EndedIsNotGone(s.history, id);
  }

  /** A caller whose end is in the batch being flushed goes on when the flush is
      over, whichever way; that keeps the promise if and only if it completed. */
  lemma StrictIffTheFlushCompletes(s: System, id: int, ok: bool)
    requires Reachable(s) && Base(s) && s.runner.Flushing? && id in s.runner.done
    requires s.producers[id] == AwaitFinished
    ensures var s1 := Next(s, FlushedStep(ok));
            && Base(s1) && Enabled(s1, ResumeStep(id))
            && Next(s1, ResumeStep(id)).history == Then(s1.history, Released(id))
            && (Strict(s1.history, id) <==> ok)
  {
    KeepBase(s, FlushedStep(ok));
    FlushedNext(s, id);
  }

  /** The caller's next step after that flush. */
  lemma ReleasedAfterFlush(s: System, id: int, ok: bool) returns (s': System)
    requires Reachable(s) && Base(s) && s.runner.Flushing? && id in s.runner.done
    requires s.producers[id] == AwaitFinished
    ensures Reachable(s') && (StrictlyReleased(s'.history) ==> ok)
  {
    StrictIffTheFlushCompletes(s, id, ok);
    ReachNext(s, FlushedStep(ok));
    ReachNext(Next(s, FlushedStep(ok)), ResumeStep(id));
    s' := Next(Next(s, FlushedStep(ok)), ResumeStep(id));
  }

  predicate EndWaits(s: System)
  {
    && s.runner == AtHead && s.sched.ready == {1} && Live(s, 1) && s.producers == map[1 := AwaitFinished]
    && s.sched.buffers[1] == EMPTY.(complete := true) && 1 in s.windows.streams
  }

  lemma EndAsked() returns (s: System)
    ensures Reachable(s) && Base(s) && EndWaits(s)
  {
    FirstStreamOpens();
    ReachNext(OPENED, EndStep(1));
    s := Next(OPENED, EndStep(1));
  }

  lemma EndSent(s: System, s': System)
    requires Base(s) && EndWaits(s) && s' == Next(s, SendStep(1, NoFault))
    ensures s'.runner == InBatch(1, true, {1}) && s'.sched.ready == {} && s'.producers == s.producers
  {
  }

  /** One stream, ended and sent: its end is in the batch being flushed. */
  lemma EndInFlight() returns (s: System)
    ensures Reachable(s) && Base(s) && s.runner == Flushing({1}) && s.producers == map[1 := AwaitFinished]
  {
    var s1 := EndAsked();
    var s2 := Next(s1, SendStep(1, NoFault));
    EndSent(s1, s2);
    ReachNext(s1, SendStep(1, NoFault));
    ReachNext(s2, EndBatchStep);
    s := Next(s2, EndBatchStep);
  }

  /** The promise is broken: the flush of the only batch raises, and the caller
      of `end` is released all the same. */
  lemma RaisedFlushReleases()
    ensures exists s :: Reachable(s) && !StrictlyReleased(s.history)
  {
    var s := EndInFlight();
    var s' := ReleasedAfterFlush(s, 1, false);
  }
}
