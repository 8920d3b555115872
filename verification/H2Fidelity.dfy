/** What is sent on a stream is what its app handed over, in order, ended once
    and only when all of it was sent. */
module H2Fidelity {
  import opened Common
  import opened StreamBuffers
  import opened H2Send
  import opened H2System

  /** The DATA bytes sent on a stream. */
  function SentOn(h: History, id: int): Bytes
  {
    match h
    case Start => []
    case Then(past, FrameSent(DataFrame(i, data))) =>
      if i == id then SentOn(past, id) + data else SentOn(past, id)
    case Then(past, _) => SentOn(past, id)
  }

  /** The bytes a stream's buffer accepted from its app. */
  function AcceptedOn(h: History, id: int): Bytes
  {
    match h
    case Start => []
    case Then(past, Accepted(i, data)) =>
      if i == id then AcceptedOn(past, id) + data else AcceptedOn(past, id)
    case Then(past, _) => AcceptedOn(past, id)
  }

  predicate EndedIn(h: History, id: int)
  {
    match h
    case Start => false
    case Then(past, FrameSent(f)) => (IsEnd(f) && f.id == id) || EndedIn(past, id)
    case Then(past, _) => EndedIn(past, id)
  }

  predicate GoneIn(h: History, id: int)
  {
    match h
    case Start => false
    case Then(past, Gone(i)) => i == id || GoneIn(past, id)
    case Then(past, _) => GoneIn(past, id)
  }

  predicate Over(h: History, id: int) { EndedIn(h, id) || GoneIn(h, id) }

  /** At every moment of the history: nothing is accepted or sent on a stream
      that was ended or closed, none is ended or closed twice, and a stream is
      ended, bare or by trailers, only when all it accepted was sent. */
  predicate Orderly(h: History)
  {
    match h
    case Start => true
    case Then(past, FrameSent(f)) =>
      && Orderly(past) && !Over(past, f.id)
      && (IsEnd(f) ==> SentOn(past, f.id) == AcceptedOn(past, f.id))
    case Then(past, Accepted(id, _)) => Orderly(past) && !Over(past, id)
    case Then(past, Gone(id)) => Orderly(past) && !Over(past, id)
    case Then(past, _) => Orderly(past)
  }

  /** What one stream's history and its buffer have to do with each other. */
  predicate Faithful(s: System, id: int)
  {
    && (Live(s, id) ==>
          && !Over(s.history, id)
          && SentOn(s.history, id) + s.sched.buffers[id].data == AcceptedOn(s.history, id))
    && (id in s.detached ==> Over(s.history, id))
    && (EndedIn(s.history, id) ==> SentOn(s.history, id) == AcceptedOn(s.history, id))
    && SentOn(s.history, id) <= AcceptedOn(s.history, id)
    && (id !in s.producers ==> !Over(s.history, id) && AcceptedOn(s.history, id) == [])
  }

  ghost predicate AllFaithful(s: System)
  {
    Orderly(s.history) && forall id :: Faithful(s, id)
  }

  lemma ExtendFaithful(h: History, id: int, data: Bytes, end: Option<Frame>, closed: bool, j: int)
    requires Orderly(h) && !Over(h, id) && !(end.Some? && closed)
    requires end.Some? ==> IsEnd(end.value) && end.value.id == id
                           && SentOn(h, id) + data == AcceptedOn(h, id)
    ensures var h' := Extended(h, id, data, end, closed);
            && Orderly(h')
            && AcceptedOn(h', j) == AcceptedOn(h, j)
            && SentOn(h', j) == (if j == id then SentOn(h, j) + data else SentOn(h, j))
            && (EndedIn(h', j) <==> (j == id && end.Some?) || EndedIn(h, j))
            && (GoneIn(h', j) <==> (j == id && closed) || GoneIn(h, j))
  {
    var h1 := if data == [] then h else Then(h, FrameSent(DataFrame(id, data)));
    assert Orderly(h1) && !Over(h1, id) && SentOn(h1, id) == SentOn(h, id) + data;
    var h2 := if end == None then h1 else Then(h1, FrameSent(end.value));
    assert Orderly(h2);
  }

  lemma SendKeepsOthers(s: System, s': System, id: int, data: Bytes, end: Option<Frame>, closed: bool, j: int)
    requires SentStep(s, s', id, data, end, closed) && j != id && Faithful(s, j)
    requires AcceptedOn(s'.history, j) == AcceptedOn(s.history, j) && SentOn(s'.history, j) == SentOn(s.history, j)
    requires (EndedIn(s'.history, j) <==> EndedIn(s.history, j)) && (GoneIn(s'.history, j) <==> GoneIn(s.history, j))
    ensures Faithful(s', j)
  {
  }

  /** What leaves the buffer and what stays in it make up what was in it. */
  lemma TakenAndLeft(sent: Bytes, data: Bytes, left: Bytes, accepted: Bytes)
    requires sent + (data + left) == accepted
    ensures (sent + data) + left == accepted && sent + data <= accepted
  {
    AppendAssoc(sent, data, left);
  }

  lemma SendKeepsOwn(s: System, s': System, id: int, data: Bytes, end: Option<Frame>, closed: bool, left: Bytes)
    requires Base(s) && SentStep(s, s', id, data, end, closed) && Faithful(s, id)
    requires s.sched.buffers[id].data == data + left
    requires end == None && !closed ==> left == s'.sched.buffers[id].data
    requires AcceptedOn(s'.history, id) == AcceptedOn(s.history, id)
    requires SentOn(s'.history, id) == SentOn(s.history, id) + data
    requires (EndedIn(s'.history, id) <==> end.Some?) && (GoneIn(s'.history, id) <==> closed)
    ensures Faithful(s', id)
  {
    TakenAndLeft(SentOn(s.history, id), data, left, AcceptedOn(s.history, id));
  }

  lemma SendLeaves(s: System, s': System, id: int, data: Bytes, end: Option<Frame>, closed: bool)
    requires SentStep(s, s', id, data, end, closed)
    ensures |data| <= |s.sched.buffers[id].data|
    ensures s.sched.buffers[id].data == data + s.sched.buffers[id].data[|data|..]
    ensures end == None && !closed ==> s'.sched.buffers[id].data == s.sched.buffers[id].data[|data|..]
  {
  }

  lemma SendKeepsEach(s: System, s': System, id: int, data: Bytes, end: Option<Frame>, closed: bool, j: int)
    requires Base(s) && SentStep(s, s', id, data, end, closed)
    requires Orderly(s.history) && Faithful(s, id) && Faithful(s, j)
    ensures Orderly(s'.history) && Faithful(s', j)
  {
    SendLeaves(s, s', id, data, end, closed);
    ExtendFaithful(s.history, id, data, end, closed, j);
    if j == id {
      SendKeepsOwn(s, s', id, data, end, closed, s.sched.buffers[id].data[|data|..]);
    } else {
      SendKeepsOthers(s, s', id, data, end, closed, j);
    }
  }

  lemma SendKeepsFaithful(s: System, s': System, id: int, data: Bytes, end: Option<Frame>, closed: bool)
    requires Base(s) && SentStep(s, s', id, data, end, closed) && AllFaithful(s)
    ensures AllFaithful(s')
  {
    assert Faithful(s, id);
    forall j
      ensures Orderly(s'.history) && Faithful(s', j)
    {
      assert Faithful(s, j);
      SendKeepsEach(s, s', id, data, end, closed, j);
    }
  }

  lemma AppKeepsFaithful(s: System, step: Step)
    requires Base(s) && Enabled(s, step) && IsApp(step) && AllFaithful(s)
    ensures AllFaithful(Next(s, step))
  {
    var s' := Next(s, step);
    if step.PushStep? {
      assert Faithful(s, step.id);
    }
    forall j
      ensures Faithful(s', j)
    {
      assert Faithful(s, j);
    }
  }

  lemma CloseKeepsFaithful(s: System, id: int, s': System)
    requires Base(s) && AllFaithful(s) && s' == DoClose(s, id)
    ensures AllFaithful(s')
  {
    assert Faithful(s, id);
    forall j
      ensures Faithful(s', j)
    {
      assert Faithful(s, j);
    }
  }

  lemma TaskKeepsFaithful(s: System, step: Step, s': System)
    requires Base(s) && Enabled(s, step) && IsTask(step) && !step.SendStep? && AllFaithful(s)
    requires s' == Next(s, step)
    ensures AllFaithful(s')
  {
    forall j
      ensures Faithful(s', j)
    {
      assert Faithful(s, j);
    }
  }

  lemma OtherKeepsFaithful(s: System, step: Step)
    requires Base(s) && Enabled(s, step) && !IsApp(step) && !step.SendStep? && AllFaithful(s)
    ensures AllFaithful(Next(s, step))
  {
    var s' := Next(s, step);
    if step.CloseStep? {
      CloseKeepsFaithful(s, step.id, s');
    } else if IsTask(step) {
      TaskKeepsFaithful(s, step, s');
    } else {
      forall j
        ensures Faithful(s', j)
      {
        assert Faithful(s, j);
      }
    }
  }

  lemma {:induction false} RunIsFaithful(steps: seq<Step>, s: System)
    requires Run(INITIAL, steps, s)
    ensures Base(s) && AllFaithful(s)
    decreases |steps|
  {
    if steps == [] {
    } else {
      var mid :| Run(INITIAL, Front(steps), mid) && Base(mid) && Enabled(mid, Last(steps))
                 && s == Next(mid, Last(steps));
      RunIsFaithful(Front(steps), mid);
      var step := Last(steps);
      KeepBase(mid, step);
      if step.SendStep? {
        SendOutcome(mid.sched, mid.windows, step.id, step.fault);
        var data, end := SendIsStep(mid, step.id, SendData(mid.sched, mid.windows, step.id, step.fault));
        SendKeepsFaithful(mid, s, step.id, data, end,
                          SendData(mid.sched, mid.windows, step.id, step.fault).closed);
      } else if IsApp(step) {
        AppKeepsFaithful(mid, step);
      } else {
        OtherKeepsFaithful(mid, step);
      }
    }
  }

  /** Over every run: while a stream is registered, what was sent and what is
      buffered make up what was accepted; what was sent is always a prefix of
      it, and all of it once the stream was ended; and the history is orderly. */
  lemma StreamsAreFaithful(s: System, id: int)
    requires Reachable(s)
    ensures Orderly(s.history)
    ensures Live(s, id) ==> SentOn(s.history, id) + s.sched.buffers[id].data == AcceptedOn(s.history, id)
    ensures SentOn(s.history, id) <= AcceptedOn(s.history, id)
    ensures EndedIn(s.history, id) ==> SentOn(s.history, id) == AcceptedOn(s.history, id) && !Live(s, id)
  {
    var steps :| Run(INITIAL, steps, s);
    RunIsFaithful(steps, s);
    assert Faithful(s, id);
  }
}
