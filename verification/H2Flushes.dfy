/** Frames handed to the library and the flush that puts them on the wire: when
    the scheduler's own flush is forgotten, and exactly when it is not. */
module H2Flushes {
  import opened Common
  import opened StreamBuffers
  import opened H2Send
  import opened H2System

  /** A frame was handed over since the scheduler last began a flush. */
  predicate Unflushed(h: History)
  {
    match h
    case Start => false
    case Then(past, FrameSent(_)) => true
    case Then(past, FlushStarted) => false
    case Then(past, _) => Unflushed(past)
  }

  /** The guard of the branch that forgets: the call drains a buffer that is
      complete, and the library refuses to end the stream. */
  predicate RefusesEnd(s: Sched, w: Windows, id: int, fault: Fault)
    requires id in s.buffers ==> id in w.streams
  {
    && id in s.buffers && fault == EndFault && s.buffers[id].complete
    && |s.buffers[id].data| <= ChunkSize(w, id)
  }

  /** A call that handed a frame over asks for a flush unless the library
      refused the end; one that handed none over never asks. */
  lemma CallAsksIff(s: Sched, w: Windows, id: int, fault: Fault)
    requires s.buffers.Keys <= w.streams.Keys
    ensures var r := SendData(s, w, id, fault);
            r.needsFlush <==> r.frames != [] && !RefusesEnd(s, w, id, fault)
  {
  }

  /** Every call of a batch that handed a frame over was refused its end. */
  predicate OnlyRefused(s: Sched, w: Windows, picks: seq<Pick>)
    requires s.buffers.Keys <= w.streams.Keys
  {
    picks != [] ==>
      && OnlyRefused(s, w, Front(picks))
      && var b, (id, fault) := SendAll(s, w, Front(picks)), Last(picks);
         SendData(b.sched, b.windows, id, fault).frames == [] || RefusesEnd(b.sched, b.windows, id, fault)
  }

  /** The batch of the scheduler object skips its flush if and only if every
      call that handed a frame over was refused its end. */
  lemma {:induction false} BatchSkipsFlushIff(s: Sched, w: Windows, picks: seq<Pick>)
    requires s.buffers.Keys <= w.streams.Keys
    ensures !SendAll(s, w, picks).needsFlush <==> OnlyRefused(s, w, picks)
    decreases |picks|
  {
    if picks == [] {
    } else {
      BatchSkipsFlushIff(s, w, Front(picks));
      var b := SendAll(s, w, Front(picks));
      CallAsksIff(b.sched, b.windows, Last(picks).0, Last(picks).1);
    }
  }

  /** A call that handed a frame over and was refused its end. */
  predicate Forgets(s: System, step: Step)
    requires Base(s)
  {
    && step.SendStep?
    && SendData(s.sched, s.windows, step.id, step.fault).frames != []
    && RefusesEnd(s.sched, s.windows, step.id, step.fault)
  }

  predicate Hands(s: System, step: Step)
    requires Base(s)
  {
    step.SendStep? && SendData(s.sched, s.windows, step.id, step.fault).frames != []
  }

  predicate BeginsFlush(s: System, step: Step)
  {
    step == EndBatchStep && s.runner.InBatch? && s.runner.needsFlush
  }

  /** The running batch is going to flush. */
  predicate WillFlush(s: System) { s.runner.InBatch? && s.runner.needsFlush }

  /** In the run `steps` to `s` some call forgot its frame's flush, and no flush
      has begun since. */
  ghost predicate Owes(steps: seq<Step>, s: System)
    decreases |steps|
  {
    && steps != []
    && exists mid ::
         && Run(INITIAL, Front(steps), mid) && Base(mid) && Enabled(mid, Last(steps))
         && s == Next(mid, Last(steps)) && !BeginsFlush(mid, Last(steps))
         && (Forgets(mid, Last(steps)) || Owes(Front(steps), mid))
  }

  lemma {:induction false} LogLeavesUnflushed(h: History, frames: seq<Frame>)
    ensures Unflushed(Log(h, frames)) <==> frames != [] || Unflushed(h)
    decreases |frames|
  {
    if frames == [] {
    } else {
      LogLeavesUnflushed(h, Front(frames));
    }
  }

  lemma SendHands(s: System, id: int, fault: Fault)
    requires Base(s) && Enabled(s, SendStep(id, fault))
    ensures var s' := DoSend(s, id, fault);
            && (Unflushed(s'.history) <==> Hands(s, SendStep(id, fault)) || Unflushed(s.history))
            && (WillFlush(s') <==>
                  WillFlush(s)
                  || (Hands(s, SendStep(id, fault)) && !RefusesEnd(s.sched, s.windows, id, fault)))
  {
    CallAsksIff(s.sched, s.windows, id, fault);
    LogLeavesUnflushed(s.history, SendData(s.sched, s.windows, id, fault).frames);
  }

  lemma TaskHandsNothing(s: System, step: Step, s': System)
    requires Base(s) && Enabled(s, step) && IsTask(step) && !step.SendStep? && s' == Next(s, step)
    ensures Unflushed(s'.history) <==> !BeginsFlush(s, step) && Unflushed(s.history)
    ensures WillFlush(s') <==> step != EndBatchStep && WillFlush(s)
  {
  }

  lemma NobodyElseHands(s: System, step: Step, s': System)
    requires Base(s) && Enabled(s, step) && !IsTask(step) && s' == Next(s, step)
    ensures (Unflushed(s'.history) <==> Unflushed(s.history)) && s'.runner == s.runner
  {
  }

  lemma OthersHandNothing(s: System, step: Step)
    requires Base(s) && Enabled(s, step) && !step.SendStep?
    ensures var s' := Next(s, step);
            && (Unflushed(s'.history) <==> !BeginsFlush(s, step) && Unflushed(s.history))
            && (WillFlush(s') <==> step != EndBatchStep && WillFlush(s))
  {
    if IsTask(step) {
      TaskHandsNothing(s, step, Next(s, step));
    } else {
      NobodyElseHands(s, step, Next(s, step));
    }
  }

  /** One step, in the terms of the theorem. */
  lemma StepOwes(s: System, step: Step, s': System)
    requires Base(s) && Enabled(s, step) && s' == Next(s, step)
    ensures Forgets(s, step) ==> Unflushed(s'.history)
    ensures BeginsFlush(s, step) ==> !Unflushed(s'.history) && !WillFlush(s')
    ensures !BeginsFlush(s, step) && Unflushed(s.history) ==> Unflushed(s'.history)
    ensures !BeginsFlush(s, step) && WillFlush(s) ==> WillFlush(s')
    ensures Unflushed(s'.history) && !Unflushed(s.history) ==> Forgets(s, step) || WillFlush(s')
    ensures WillFlush(s') && !WillFlush(s) ==> Unflushed(s'.history)
  {
    if step.SendStep? {
      SendHands(s, step.id, step.fault);
    } else {
      OthersHandNothing(s, step);
    }
  }

  lemma {:induction false} OwedIsUnflushed(steps: seq<Step>, s: System)
    requires Owes(steps, s)
    ensures Unflushed(s.history)
    decreases |steps|
  {
    var mid :| Run(INITIAL, Front(steps), mid) && Base(mid) && Enabled(mid, Last(steps))
               && s == Next(mid, Last(steps)) && !BeginsFlush(mid, Last(steps))
               && (Forgets(mid, Last(steps)) || Owes(Front(steps), mid));
    StepOwes(mid, Last(steps), s);
    if !Owes(Front(steps), mid) {
    } else {
      OwedIsUnflushed(Front(steps), mid);
    }
  }

  lemma {:induction false} UnflushedIsOwed(steps: seq<Step>, s: System)
    requires Run(INITIAL, steps, s)
    ensures Unflushed(s.history) ==> Owes(steps, s) || WillFlush(s)
    ensures WillFlush(s) ==> Unflushed(s.history)
    decreases |steps|
  {
    if steps == [] {
    } else {
      var mid :| Run(INITIAL, Front(steps), mid) && Base(mid) && Enabled(mid, Last(steps))
                 && s == Next(mid, Last(steps));
      UnflushedIsOwed(Front(steps), mid);
      StepOwes(mid, Last(steps), s);
    }
  }

  /** Over every run a frame waits unflushed if and only if the running batch is
      going to flush it, or some call forgot it and no flush has begun since. */
  lemma UnflushedIff(steps: seq<Step>, s: System)
    requires Run(INITIAL, steps, s)
    ensures Unflushed(s.history) <==> Owes(steps, s) || WillFlush(s)
  {
    UnflushedIsOwed(steps, s);
    if Owes(steps, s) {
      OwedIsUnflushed(steps, s);
    }
  }

  /** The steps of one batch and whatever comes between its calls. */
  predicate WithinABatch(steps: seq<Step>)
  {
    forall i :: 0 <= i < |steps| ==> IsTask(steps[i]) ==> steps[i].SendStep?
  }

  /** Every call of the run that handed a frame over was refused its end. */
  ghost predicate RefusedThroughout(start: System, steps: seq<Step>, s: System)
    decreases |steps|
  {
    if steps == [] then s == start
    else exists mid :: RefusedThroughout(start, Front(steps), mid) && Base(mid) && Enabled(mid, Last(steps))
                       && s == Next(mid, Last(steps)) && (Hands(mid, Last(steps)) ==> Forgets(mid, Last(steps)))
  }

  predicate BeforeEnd(s: System) { s.runner == AtHead || s.runner.InBatch? }

  lemma StepWithin(s: System, step: Step, s': System)
    requires Base(s) && Enabled(s, step) && s' == Next(s, step) && BeforeEnd(s) && (IsTask(step) ==> step.SendStep?)
    ensures BeforeEnd(s')
    ensures WillFlush(s') <==> WillFlush(s) || (Hands(s, step) && !Forgets(s, step))
  {
    if step.SendStep? {
      SendHands(s, step.id, step.fault);
    } else {
      OthersHandNothing(s, step);
    }
  }

  lemma {:induction false} RefusedSkips(start: System, steps: seq<Step>, s: System)
    requires RefusedThroughout(start, steps, s) && start.runner == AtHead && WithinABatch(steps)
    ensures BeforeEnd(s) && !WillFlush(s)
    decreases |steps|
  {
    if steps == [] {
    } else {
      var mid :| RefusedThroughout(start, Front(steps), mid) && Base(mid) && Enabled(mid, Last(steps))
                 && s == Next(mid, Last(steps)) && (Hands(mid, Last(steps)) ==> Forgets(mid, Last(steps)));
      RefusedSkips(start, Front(steps), mid);
      StepWithin(mid, Last(steps), s);
    }
  }

  lemma {:induction false} SkipsRefused(start: System, steps: seq<Step>, s: System)
    requires Run(start, steps, s) && start.runner == AtHead && WithinABatch(steps)
    ensures BeforeEnd(s) && (!WillFlush(s) ==> RefusedThroughout(start, steps, s))
    decreases |steps|
  {
    if steps == [] {
    } else {
      var mid :| Run(start, Front(steps), mid) && Base(mid) && Enabled(mid, Last(steps))
                 && s == Next(mid, Last(steps));
      SkipsRefused(start, Front(steps), mid);
      StepWithin(mid, Last(steps), s);
    }
  }

  /** A batch, whatever comes between its calls, goes back to the head of the
      loop without a flush if and only if every call of it that handed a frame
      over drained a complete buffer and was refused the end. */
  lemma BatchReturnsUnflushedIff(start: System, steps: seq<Step>, s: System)
    requires Run(start, steps, s) && start.runner == AtHead && WithinABatch(steps)
    requires Base(s) && Enabled(s, EndBatchStep)
    ensures Next(s, EndBatchStep).runner == AtHead <==> RefusedThroughout(start, steps, s)
  {
    SkipsRefused(start, steps, s);
    if RefusedThroughout(start, steps, s) {
      RefusedSkips(start, steps, s);
    }
  }

  predicate LastByteWaits(s: System, b: Byte)
  {
    && s.runner == AtHead && s.sched.ready == {1} && s.sched.buffers.Keys == {1} && s.notices == []
    && s.sched.buffers[1].data == [b] && s.sched.buffers[1].complete
    && s.windows == INITIAL_WINDOWS.(streams := map[1 := 65535])
  }

  lemma LastByteQueued(b: Byte) returns (s: System)
    ensures Reachable(s) && Base(s) && LastByteWaits(s, b)
  {
    FirstStreamOpens();
    ReachNext(OPENED, PushStep(1, [b]));
    ReachNext(Next(OPENED, PushStep(1, [b])), EndStep(1));
    s := Next(Next(OPENED, PushStep(1, [b])), EndStep(1));
  }

  lemma LastByteRefused(s: System, b: Byte, s': System)
    requires Base(s) && LastByteWaits(s, b) && s' == Next(s, SendStep(1, EndFault))
    ensures Unflushed(s'.history) && s'.runner == InBatch(1, false, {}) && s'.sched.ready == {} && s'.notices == []
  {
    assert ChunkSize(s.windows, 1) == 16384;
    SendHands(s, 1, EndFault);
  }

  /** The loop goes to sleep after a batch that skipped its flush. */
  lemma Sleeps(s: System) returns (s': System)
    requires Reachable(s) && Base(s) && Unflushed(s.history)
    requires s.runner == InBatch(1, false, {}) && s.sched.ready == {} && s.notices == []
    ensures Reachable(s') && Base(s') && Unflushed(s'.history)
    ensures s'.runner == Parked && s'.sched.ready == {} && s'.notices == []
  {
    ReachNext(s, EndBatchStep);
    var head := Next(s, EndBatchStep);
    ReachNext(head, ParkStep);
    s' := Next(head, ParkStep);
  }

  lemma SleepsOn(s: System) returns (s': System)
    requires Reachable(s) && Base(s) && Unflushed(s.history)
    requires s.runner == Parked && s.sched.ready == {} && s.notices == []
    ensures Reachable(s') && Base(s') && Unflushed(s'.history)
    ensures s'.runner == Parked && !s'.sched.hasData && s'.notices == []
  {
    if s.sched.hasData {
      ReachNext(s, UnparkStep);
      var head := Next(s, UnparkStep);
      ReachNext(head, ParkStep);
      s' := Next(head, ParkStep);
    } else {
      s' := s;
    }
  }

  /** The loop sleeps and no window change is due. */
  predicate Asleep(s: System) { s.runner == Parked && !s.sched.hasData && s.notices == [] }

  lemma AsleepDoesNothing(s: System, step: Step)
    requires Base(s) && Asleep(s) && (IsTask(step) || step == NotifyStep)
    ensures !Enabled(s, step)
  {
  }

  lemma FallsAsleep(s: System) returns (s': System)
    requires Reachable(s) && Base(s) && Unflushed(s.history)
    requires s.runner == InBatch(1, false, {}) && s.sched.ready == {} && s.notices == []
    ensures Reachable(s') && Base(s') && Unflushed(s'.history) && Asleep(s')
  {
    s' := Sleeps(s);
    s' := SleepsOn(s');
  }

  /** Nobody owes the forgotten flush: a byte is handed over, its stream's end
      is refused, and the loop falls asleep. */
  lemma ForgottenFlush(b: Byte)
    ensures exists s :: Reachable(s) && Unflushed(s.history) && Asleep(s)
  {
    var s := LastByteQueued(b);
    LastByteRefused(s, b, Next(s, SendStep(1, EndFault)));
    ReachNext(s, SendStep(1, EndFault));
    s := FallsAsleep(Next(s, SendStep(1, EndFault)));
  }
}
