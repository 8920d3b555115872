/** The drain loop of the scheduler object and the step machine agree: a batch
    is a run of send steps, so what holds over all runs holds for it. */
module H2Batches {
  import opened Common
  import opened StreamBuffers
  import opened H2Send
  import opened H2System

  function Sends(picks: seq<Pick>): seq<Step>
  {
    if picks == [] then [] else Sends(Front(picks)) + [SendStep(Last(picks).0, Last(picks).1)]
  }

  function FramesIn(h: History): seq<Frame>
  {
    match h
    case Start => []
    case Then(past, FrameSent(f)) => FramesIn(past) + [f]
    case Then(past, _) => FramesIn(past)
  }

  lemma {:induction false} LogFrames(h: History, frames: seq<Frame>)
    ensures FramesIn(Log(h, frames)) == FramesIn(h) + frames
    decreases |frames|
  {
    if frames == [] {
    } else {
      LogFrames(h, Front(frames));
      assert frames == Front(frames) + [Last(frames)];
      AppendAssoc(FramesIn(h), Front(frames), [Last(frames)]);
    }
  }

  /** The state `s'` of the machine is where the batch `b` stands. */
  ghost predicate Stands(s: System, s': System, b: Batch, sends: nat)
  {
    && s'.sched == b.sched && s'.windows == b.windows
    && FramesIn(s'.history) == FramesIn(s.history) + b.frames
    && (if sends == 0 then s' == s && b.finished == [] && !b.needsFlush
        else s'.runner == InBatch(sends, b.needsFlush, set id | id in b.finished))
  }

  lemma StandsAfter(s: System, mid: System, b: Batch, sends: nat, id: int, c: Sent, b': Batch)
    requires s.runner == AtHead && Stands(s, mid, b, sends) && Live(mid, id)
    requires mid.runner == AtHead || mid.runner.InBatch?
    requires b' == Batch(c.sched, c.windows, b.frames + c.frames, b.needsFlush || c.needsFlush,
                         if c.finished.Some? then b.finished + [id] else b.finished)
    ensures Stands(s, AfterSend(mid, id, c), b', sends + 1)
  {
    LogFrames(mid.history, c.frames);
    AppendAssoc(FramesIn(s.history), b.frames, c.frames);
  }

  lemma OneMoreSend(s: System, mid: System, b: Batch, sends: nat, pick: Pick)
    requires s.runner == AtHead && Stands(s, mid, b, sends) && Base(mid)
    requires Enabled(mid, SendStep(pick.0, pick.1))
    ensures Stands(s, DoSend(mid, pick.0, pick.1), Extend(b, pick), sends + 1)
  {
    StandsAfter(s, mid, b, sends, pick.0, SendData(mid.sched, mid.windows, pick.0, pick.1), Extend(b, pick));
  }

  lemma GoOn(s: System, steps: seq<Step>, mid: System, b: Batch, sends: nat, pick: Pick) returns (s': System)
    requires s.runner == AtHead && Run(s, steps, mid) && Base(mid) && Stands(s, mid, b, sends)
    requires sends < MAX_BATCHED_SENDS && pick.0 in b.sched.ready
    ensures Run(s, steps + [SendStep(pick.0, pick.1)], s') && Base(s')
    ensures Stands(s, s', Extend(b, pick), sends + 1)
  {
    s' := DoSend(mid, pick.0, pick.1);
    OneMoreSend(s, mid, b, sends, pick);
    KeepBase(mid, SendStep(pick.0, pick.1));
    RunSnoc(s, steps, mid, SendStep(pick.0, pick.1), s');
  }

  lemma OneMorePick(s: System, picks: seq<Pick>, mid: System) returns (s': System)
    requires Base(s) && s.runner == AtHead && 0 < |picks| <= MAX_BATCHED_SENDS
    requires Last(picks).0 in SendAll(s.sched, s.windows, Front(picks)).sched.ready
    requires Run(s, Sends(Front(picks)), mid) && Base(mid)
    requires Stands(s, mid, SendAll(s.sched, s.windows, Front(picks)), |Front(picks)|)
    ensures Run(s, Sends(picks), s') && Base(s')
    ensures Stands(s, s', SendAll(s.sched, s.windows, picks), |picks|)
  {
    var b := SendAll(s.sched, s.windows, Front(picks));
    s' := GoOn(s, Sends(Front(picks)), mid, b, |Front(picks)|, Last(picks));
  }

  lemma NoPicks(s: System)
    requires Base(s)
    ensures Run(s, Sends([]), s) && Stands(s, s, SendAll(s.sched, s.windows, []), 0)
  {
  }

  /** Up to 16 calls of `_send_data` by the drain loop are a run of the machine
      to the same buffers, windows, frames and ended streams. */
  lemma {:induction false} BatchIsARun(s: System, picks: seq<Pick>) returns (s': System)
    requires Base(s) && s.runner == AtHead && |picks| <= MAX_BATCHED_SENDS
    requires Picked(s.sched, s.windows, picks)
    ensures Run(s, Sends(picks), s') && Base(s')
    ensures Stands(s, s', SendAll(s.sched, s.windows, picks), |picks|)
    decreases |picks|
  {
    if picks == [] {
      s' := s;
      NoPicks(s);
    } else {
      var mid := BatchIsARun(s, Front(picks));
      s' := OneMorePick(s, picks, mid);
    }
  }
}
