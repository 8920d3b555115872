/** What each frame carries, reckoned from the history alone: a DATA frame all
    that may leave at that moment, the frame that ends a stream what the app ended
    it with. */
module H2Frames {
  import opened Common
  import opened StreamBuffers
  import opened H2Send
  import opened H2System
  import opened H2Fidelity
  import opened H2Flow

  /** How the app last ended a stream: bare or with these trailers. */
  function AskedOn(h: History, id: int): Option<Option<Headers>>
  {
    match h
    case Start => None
    case Then(past, EndAsked(i, trailers)) => if i == id then Some(trailers) else AskedOn(past, id)
    case Then(past, _) => AskedOn(past, id)
  }

  /** Every frame that ended a stream is the one the app asked for. */
  predicate EndsAsAsked(h: History)
  {
    match h
    case Start => true
    case Then(past, FrameSent(EndFrame(id))) => EndsAsAsked(past) && AskedOn(past, id) == Some(None)
    case Then(past, FrameSent(TrailersFrame(id, headers))) =>
      EndsAsAsked(past) && AskedOn(past, id) == Some(Some(headers))
    case Then(past, _) => EndsAsAsked(past)
  }

  /** Every DATA frame has as many bytes as were accepted and not sent, as the
      stream and the connection had credit for, or as a frame may have, whatever
      is least. */
  predicate FramesAreFull(h: History)
  {
    match h
    case Start => true
    case Then(past, FrameSent(DataFrame(id, data))) =>
      && FramesAreFull(past)
      && |data| == Least(|AcceptedOn(past, id)| - |SentOn(past, id)|, Granted(past, id) - |SentOn(past, id)|,
                         ConnGranted(past) - ConnSent(past), FrameLimit(past))
    case Then(past, _) => FramesAreFull(past)
  }

  function Least(a: int, b: int, c: int, d: int): (r: int)
    ensures r <= a && r <= b && r <= c && r <= d && r in {a, b, c, d}
  {
    Min(Min(a, b), Min(c, d))
  }

  /** An app ends its stream once, and a registered stream knows how. */
  predicate EndKnown(s: System, id: int)
  {
    && (Live(s, id) ==>
          var b := s.sched.buffers[id];
          && !b.finished
          && if b.complete then
               && id in s.producers && s.producers[id] == AwaitFinished
               && AskedOn(s.history, id) == Some(b.trailers)
             else AskedOn(s.history, id) == None && b.trailers == None)
    && (id !in s.producers ==> AskedOn(s.history, id) == None)
  }

  ghost predicate AllEndsKnown(s: System) { forall id :: EndKnown(s, id) }

  lemma AskedStays(h: History, obs: Obs, id: int)
    requires !obs.EndAsked?
    ensures AskedOn(Then(h, obs), id) == AskedOn(h, id)
  {
  }

  /** Everything known of a history that a call of `_send_data` extends. */
  predicate SendFits(h: History, id: int, data: Bytes, end: Option<Frame>)
  {
    && (data != [] ==>
          |data| == Least(|AcceptedOn(h, id)| - |SentOn(h, id)|, Granted(h, id) - |SentOn(h, id)|,
                          ConnGranted(h) - ConnSent(h), FrameLimit(h)))
    && (end.Some? ==> AskedOn(h, id).Some? && EndsWith(end.value, id, AskedOn(h, id).value))
  }

  lemma ExtendFrames(h: History, id: int, data: Bytes, end: Option<Frame>, closed: bool, j: int)
    requires EndsAsAsked(h) && FramesAreFull(h) && SendFits(h, id, data, end)
    ensures var h' := Extended(h, id, data, end, closed);
            EndsAsAsked(h') && FramesAreFull(h') && AskedOn(h', j) == AskedOn(h, j)
  {
    var h1 := if data == [] then h else Then(h, FrameSent(DataFrame(id, data)));
    assert EndsAsAsked(h1) && FramesAreFull(h1) && AskedOn(h1, j) == AskedOn(h, j) && AskedOn(h1, id) == AskedOn(h, id);
    var h2 := if end == None then h1 else Then(h1, FrameSent(end.value));
    assert EndsAsAsked(h2) && FramesAreFull(h2) && AskedOn(h2, j) == AskedOn(h, j);
  }

  lemma SendIsFull(s: System, s': System, id: int, data: Bytes, end: Option<Frame>, closed: bool)
    requires SentStep(s, s', id, data, end, closed) && Balanced(s.windows, s.history) && Faithful(s, id)
    requires EndKnown(s, id)
    ensures SendFits(s.history, id, data, end)
  {
    assert |SentOn(s.history, id)| + |s.sched.buffers[id].data| == |AcceptedOn(s.history, id)|;
  }

  lemma SendKeepsKnown(s: System, s': System, id: int, data: Bytes, end: Option<Frame>, closed: bool, j: int)
    requires SentStep(s, s', id, data, end, closed) && EndKnown(s, j)
    requires AskedOn(s'.history, j) == AskedOn(s.history, j)
    ensures EndKnown(s', j)
  {
  }

  lemma SendKeepsFrames(s: System, s': System, id: int, data: Bytes, end: Option<Frame>, closed: bool)
    requires Base(s) && SentStep(s, s', id, data, end, closed) && InCredit(s) && Faithful(s, id)
    requires EndsAsAsked(s.history) && FramesAreFull(s.history) && AllEndsKnown(s)
    ensures EndsAsAsked(s'.history) && FramesAreFull(s'.history) && AllEndsKnown(s')
  {
    assert EndKnown(s, id);
    SendIsFull(s, s', id, data, end, closed);
    forall j
      ensures EndsAsAsked(s'.history) && FramesAreFull(s'.history) && EndKnown(s', j)
    {
      assert EndKnown(s, j);
      ExtendFrames(s.history, id, data, end, closed, j);
      SendKeepsKnown(s, s', id, data, end, closed, j);
    }
  }

  lemma AppKeepsKnown(s: System, step: Step, id: int)
    requires Base(s) && Enabled(s, step) && IsApp(step) && EndKnown(s, step.id) && EndKnown(s, id)
    ensures EndKnown(Next(s, step), id)
  {
  }

  lemma TaskKeepsKnown(s: System, step: Step, id: int)
    requires Base(s) && Enabled(s, step) && IsTask(step) && !step.SendStep? && EndKnown(s, id)
    ensures EndKnown(Next(s, step), id)
  {
  }

  lemma ReaderKeepsKnown(s: System, step: Step, id: int)
    requires Base(s) && Enabled(s, step) && !IsApp(step) && !IsTask(step)
    requires EndKnown(s, id)
    ensures EndKnown(Next(s, step), id)
  {
  }

  lemma OtherSendsNoFrame(s: System, step: Step)
    requires Base(s) && Enabled(s, step) && !step.SendStep?
    ensures Next(s, step).history == s.history
            || (Next(s, step).history.Then? && Next(s, step).history.past == s.history
                && !Next(s, step).history.obs.FrameSent?)
  {
  }

  lemma OtherKeepsHistory(s: System, step: Step)
    requires Base(s) && Enabled(s, step) && !step.SendStep? && EndsAsAsked(s.history) && FramesAreFull(s.history)
    ensures EndsAsAsked(Next(s, step).history) && FramesAreFull(Next(s, step).history)
  {
    OtherSendsNoFrame(s, step);
  }

  lemma OtherKeepsFrames(s: System, step: Step)
    requires Base(s) && Enabled(s, step) && !step.SendStep?
    requires EndsAsAsked(s.history) && FramesAreFull(s.history) && AllEndsKnown(s)
    ensures EndsAsAsked(Next(s, step).history) && FramesAreFull(Next(s, step).history) && AllEndsKnown(Next(s, step))
  {
    OtherKeepsHistory(s, step);
    forall id
      ensures EndKnown(Next(s, step), id)
    {
      assert EndKnown(s, id);
      if IsApp(step) {
        assert EndKnown(s, step.id);
        AppKeepsKnown(s, step, id);
      } else if IsTask(step) {
        TaskKeepsKnown(s, step, id);
      } else {
        ReaderKeepsKnown(s, step, id);
      }
    }
  }

  lemma {:induction false} RunKeepsFrames(steps: seq<Step>, s: System)
    requires Run(INITIAL, steps, s)
    ensures EndsAsAsked(s.history) && FramesAreFull(s.history) && AllEndsKnown(s)
    decreases |steps|
  {
    if steps == [] {
    } else {
      var mid :| Run(INITIAL, Front(steps), mid) && Base(mid) && Enabled(mid, Last(steps))
                 && s == Next(mid, Last(steps));
      RunKeepsFrames(Front(steps), mid);
      var step := Last(steps);
      if step.SendStep? {
        RunStaysInCredit(Front(steps), mid);
        RunIsFaithful(Front(steps), mid);
        SendOutcome(mid.sched, mid.windows, step.id, step.fault);
        var data, end := SendIsStep(mid, step.id, SendData(mid.sched, mid.windows, step.id, step.fault));
        SendKeepsFrames(mid, s, step.id, data, end,
                        SendData(mid.sched, mid.windows, step.id, step.fault).closed);
      } else {
        OtherKeepsFrames(mid, step);
      }
    }
  }

  /** Over every run every DATA frame has all that may leave at its moment, and
      every end is the one the app asked for. */
  lemma FramesCarryAllTheyMay(s: System)
    requires Reachable(s)
    ensures FramesAreFull(s.history) && EndsAsAsked(s.history)
  {
    var steps :| Run(INITIAL, steps, s);
    RunKeepsFrames(steps, s);
  }

  /** The frame that ended a stream. */
  function EndSent(h: History, id: int): Option<Frame>
  {
    match h
    case Start => None
    case Then(past, FrameSent(f)) => if IsEnd(f) && f.id == id then Some(f) else EndSent(past, id)
    case Then(past, _) => EndSent(past, id)
  }

  /** The end that went out goes with what was asked. */
  predicate EndFits(s: System, id: int)
  {
    EndSent(s.history, id).Some? ==>
      && !Live(s, id) && id in s.producers && AskedOn(s.history, id).Some?
      && EndsWith(EndSent(s.history, id).value, id, AskedOn(s.history, id).value)
  }

  lemma SendKeepsEndFits(s: System, s': System, i: int, data: Bytes, end: Option<Frame>, closed: bool, id: int)
    requires Base(s) && SentStep(s, s', i, data, end, closed) && EndFits(s, id) && EndKnown(s, i)
    ensures EndFits(s', id)
  {
    var h1 := if data == [] then s.history else Then(s.history, FrameSent(DataFrame(i, data)));
    assert EndSent(h1, id) == EndSent(s.history, id) && AskedOn(h1, id) == AskedOn(s.history, id);
    var h2 := if end == None then h1 else Then(h1, FrameSent(end.value));
    assert AskedOn(h2, id) == AskedOn(s.history, id);
  }

  lemma AppKeepsEndFits(s: System, step: Step, s': System, id: int)
    requires Base(s) && Enabled(s, step) && IsApp(step) && s' == Next(s, step) && EndFits(s, id)
    ensures EndFits(s', id)
  {
  }

  lemma TaskKeepsEndFits(s: System, step: Step, s': System, id: int)
    requires Base(s) && Enabled(s, step) && IsTask(step) && !step.SendStep? && s' == Next(s, step) && EndFits(s, id)
    ensures EndFits(s', id)
  {
  }

  lemma ReaderKeepsEndFits(s: System, step: Step, s': System, id: int)
    requires Base(s) && Enabled(s, step) && !IsApp(step) && !IsTask(step) && s' == Next(s, step) && EndFits(s, id)
    ensures EndFits(s', id)
  {
  }

  lemma StepKeepsEndFits(s: System, step: Step, s': System, id: int)
    requires Base(s) && Enabled(s, step) && s' == Next(s, step) && EndFits(s, id) && AllEndsKnown(s)
    ensures EndFits(s', id)
  {
    if step.SendStep? {
      assert EndKnown(s, step.id);
      SendOutcome(s.sched, s.windows, step.id, step.fault);
      var r := SendData(s.sched, s.windows, step.id, step.fault);
      var data, end := SendIsStep(s, step.id, r);
      SendKeepsEndFits(s, s', step.id, data, end, r.closed, id);
    } else if IsApp(step) {
      AppKeepsEndFits(s, step, s', id);
    } else if IsTask(step) {
      TaskKeepsEndFits(s, step, s', id);
    } else {
      ReaderKeepsEndFits(s, step, s', id);
    }
  }

  lemma {:induction false} RunKeepsEndFits(steps: seq<Step>, s: System, id: int)
    requires Run(INITIAL, steps, s)
    ensures EndFits(s, id)
    decreases |steps|
  {
    if steps == [] {
    } else {
      var mid :| Run(INITIAL, Front(steps), mid) && Base(mid) && Enabled(mid, Last(steps))
                 && s == Next(mid, Last(steps));
      RunKeepsEndFits(Front(steps), mid, id);
      RunKeepsFrames(Front(steps), mid);
      StepKeepsEndFits(mid, Last(steps), s, id);
    }
  }

  lemma {:induction false} EndSentIffEnded(h: History, id: int)
    ensures EndSent(h, id).Some? <==> EndedIn(h, id)
  {
    match h
    case Start =>
    case Then(past, _) => EndSentIffEnded(past, id);
  }

  /** The frame is these trailers, or a bare end, just as was asked. */
  predicate SentAsAsked(sent: Option<Frame>, asked: Option<Option<Headers>>, id: int, headers: Headers)
  {
    && (sent == Some(TrailersFrame(id, headers)) <==> asked == Some(Some(headers)))
    && (sent == Some(EndFrame(id)) <==> asked == Some(None))
  }

  lemma FitsMeansAsAsked(s: System, id: int, headers: Headers)
    requires EndFits(s, id) && EndedIn(s.history, id)
    ensures SentAsAsked(EndSent(s.history, id), AskedOn(s.history, id), id, headers)
  {
    EndSentIffEnded(s.history, id);
    var sent, asked := EndSent(s.history, id).value, AskedOn(s.history, id).value;
    assert EndsWith(sent, id, asked);
  }

  /** In every reachable state, a stream that was ended was ended by its trailers
      if and only if its app ended it with trailers, and then with those. */
  lemma EndsAreTheApps(s: System, id: int, headers: Headers)
    requires Reachable(s) && EndedIn(s.history, id)
    ensures SentAsAsked(EndSent(s.history, id), AskedOn(s.history, id), id, headers)
  {
    var steps :| Run(INITIAL, steps, s);
    RunKeepsEndFits(steps, s, id);
    FitsMeansAsAsked(s, id, headers);
  }
}
