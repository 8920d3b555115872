/** The send path stays inside the credit the peer granted (sections 6.9.1 and
    6.9.2 of RFC 9113), reckoned from the history alone. */
module H2Flow {
  import opened Common
  import opened StreamBuffers
  import opened H2Send
  import opened H2System
  import opened H2Fidelity

  function FrameLimit(h: History): nat
  {
    match h
    case Start => 16384
    case Then(_, NewMaxFrame(n)) => n
    case Then(past, _) => FrameLimit(past)
  }

  function InitialWindow(h: History): nat
  {
    match h
    case Start => 65535
    case Then(_, NewInitialWindow(n)) => n
    case Then(past, _) => InitialWindow(past)
  }

  predicate OpenedIn(h: History, id: int)
  {
    match h
    case Start => false
    case Then(past, Opened(i)) => i == id || OpenedIn(past, id)
    case Then(past, _) => OpenedIn(past, id)
  }

  /** The credit granted for one stream: the initial window in force, moved by
      every later settings change, and its window updates. */
  function Granted(h: History, id: int): int
  {
    match h
    case Start => 0
    case Then(past, Opened(i)) => if i == id then InitialWindow(past) else Granted(past, id)
    case Then(past, NewInitialWindow(n)) =>
      if OpenedIn(past, id) then Granted(past, id) + n - InitialWindow(past) else Granted(past, id)
    case Then(past, StreamCredit(i, n)) =>
      if i == id then Granted(past, id) + n else Granted(past, id)
    case Then(past, _) => Granted(past, id)
  }

  function ConnGranted(h: History): nat
  {
    match h
    case Start => 65535
    case Then(past, ConnCredit(n)) => ConnGranted(past) + n
    case Then(past, _) => ConnGranted(past)
  }

  /** DATA bytes sent on all streams. */
  function ConnSent(h: History): nat
  {
    match h
    case Start => 0
    case Then(past, FrameSent(DataFrame(_, data))) => ConnSent(past) + |data|
    case Then(past, _) => ConnSent(past)
  }

  /** At every DATA frame of the history: it is not empty, no longer than the
      frame limit in force, and with it neither the stream nor the connection
      has sent more than was granted by then. */
  predicate WithinCredit(h: History)
  {
    match h
    case Start => true
    case Then(past, FrameSent(DataFrame(id, data))) =>
      && WithinCredit(past) && OpenedIn(past, id)
      && 0 < |data| <= FrameLimit(past)
      && |SentOn(past, id)| + |data| <= Granted(past, id)
      && ConnSent(past) + |data| <= ConnGranted(past)
    case Then(past, _) => WithinCredit(past)
  }

  /** The library's windows are what the history leaves of the credit. */
  ghost predicate Balanced(w: Windows, h: History)
  {
    && w.conn == ConnGranted(h) - ConnSent(h)
    && w.initial == InitialWindow(h)
    && w.maxFrame == FrameLimit(h)
    && (forall id :: id in w.streams <==> OpenedIn(h, id))
    && (forall id :: id in w.streams ==> w.streams[id] == Granted(h, id) - |SentOn(h, id)|)
    && (forall id :: id !in w.streams ==> SentOn(h, id) == [])
  }

  ghost predicate InCredit(s: System)
  {
    WithinCredit(s.history) && Balanced(s.windows, s.history)
  }

  /** Observations that neither grant nor spend credit. */
  predicate Neutral(obs: Obs)
  {
    match obs
    case Accepted(_, _) => true
    case EndAsked(_, _) => true
    case FrameSent(f) => IsEnd(f)
    case FlushStarted => true
    case FlushDone => true
    case FlushFailed => true
    case Gone(_) => true
    case Released(_) => true
    case _ => false
  }

  lemma NeutralKeeps(w: Windows, h: History, obs: Obs)
    requires WithinCredit(h) && Balanced(w, h) && Neutral(obs)
    ensures WithinCredit(Then(h, obs)) && Balanced(w, Then(h, obs))
  {
    forall id
      ensures OpenedIn(Then(h, obs), id) == OpenedIn(h, id)
      ensures Granted(Then(h, obs), id) == Granted(h, id)
      ensures SentOn(Then(h, obs), id) == SentOn(h, id)
    {
    }
  }

  lemma SpendKeeps(w: Windows, h: History, id: int, data: Bytes)
    requires WithinCredit(h) && Balanced(w, h) && id in w.streams
    requires 0 < |data| <= ChunkSize(w, id)
    ensures WithinCredit(Then(h, FrameSent(DataFrame(id, data))))
    ensures Balanced(Spend(w, id, |data|), Then(h, FrameSent(DataFrame(id, data))))
  {
    var h' := Then(h, FrameSent(DataFrame(id, data)));
    forall j
      ensures OpenedIn(h', j) == OpenedIn(h, j) && Granted(h', j) == Granted(h, j)
      ensures SentOn(h', j) == if j == id then SentOn(h, j) + data else SentOn(h, j)
    {
    }
  }

  lemma SendKeepsInCredit(s: System, s': System, id: int, data: Bytes, end: Option<Frame>, closed: bool)
    requires Base(s) && SentStep(s, s', id, data, end, closed) && InCredit(s)
    ensures InCredit(s')
  {
    var h1 := if data == [] then s.history else Then(s.history, FrameSent(DataFrame(id, data)));
    if data != [] {
      SpendKeeps(s.windows, s.history, id, data);
    }
    var h2 := if end == None then h1 else Then(h1, FrameSent(end.value));
    if end.Some? {
      NeutralKeeps(s'.windows, h1, FrameSent(end.value));
    }
    if closed {
      NeutralKeeps(s'.windows, h2, Gone(id));
    }
  }

  lemma GrantGrants(s: System, step: Step, s': System)
    requires Base(s) && Enabled(s, step) && s' == Next(s, step)
    requires step.RegisterStep? || step.CreditStep? || step.ConnCreditStep? || step.MaxFrameStep?
    ensures forall j ::
              && SentOn(s'.history, j) == SentOn(s.history, j)
              && OpenedIn(s'.history, j) == (OpenedIn(s.history, j) || (step.RegisterStep? && j == step.id))
              && Granted(s'.history, j)
                 == if step.RegisterStep? && step.id == j then InitialWindow(s.history)
                    else if step.CreditStep? && step.id == j then Granted(s.history, j) + step.n
                    else Granted(s.history, j)
  {
  }

  lemma GrantKeeps(s: System, step: Step)
    requires Base(s) && Enabled(s, step) && InCredit(s)
    requires step.RegisterStep? || step.CreditStep? || step.ConnCreditStep? || step.MaxFrameStep?
    ensures InCredit(Next(s, step))
  {
    GrantGrants(s, step, Next(s, step));
  }

  lemma SettingsKeeps(s: System, initial: nat)
    requires Base(s) && InCredit(s)
    ensures InCredit(DoSettings(s, initial))
  {
    var s' := DoSettings(s, initial);
    forall j
      ensures SentOn(s'.history, j) == SentOn(s.history, j)
      ensures OpenedIn(s'.history, j) == OpenedIn(s.history, j)
    {
    }
  }

  lemma OtherKeepsInCredit(s: System, step: Step)
    requires Base(s) && Enabled(s, step) && InCredit(s) && !step.SendStep?
    ensures InCredit(Next(s, step))
  {
    var s' := Next(s, step);
    if step.RegisterStep? || step.CreditStep? || step.ConnCreditStep? || step.MaxFrameStep? {
      GrantKeeps(s, step);
    } else if step.SettingsStep? {
      SettingsKeeps(s, step.initial);
    } else if s'.history != s.history {
      NeutralKeeps(s.windows, s.history, s'.history.obs);
    }
  }

  lemma {:induction false} RunStaysInCredit(steps: seq<Step>, s: System)
    requires Run(INITIAL, steps, s)
    ensures Base(s) && InCredit(s)
    decreases |steps|
  {
    if steps == [] {
    } else {
      var mid :| Run(INITIAL, Front(steps), mid) && Base(mid) && Enabled(mid, Last(steps))
                 && s == Next(mid, Last(steps));
      RunStaysInCredit(Front(steps), mid);
      var step := Last(steps);
      KeepBase(mid, step);
      if step.SendStep? {
        var sent := SendData(mid.sched, mid.windows, step.id, step.fault);
        SendOutcome(mid.sched, mid.windows, step.id, step.fault);
        var data, end := SendIsStep(mid, step.id, sent);
        SendKeepsInCredit(mid, s, step.id, data, end, sent.closed);
      } else {
        OtherKeepsInCredit(mid, step);
      }
    }
  }

  /** Over every run every DATA frame was within the credit granted by then,
      however settings moved it, and the connection as a whole has never sent
      more than it was granted. */
  lemma CreditIsRespected(s: System)
    requires Reachable(s)
    ensures WithinCredit(s.history)
    ensures ConnSent(s.history) <= ConnGranted(s.history)
    ensures forall id :: id in s.windows.streams ==>
              s.windows.streams[id] == Granted(s.history, id) - |SentOn(s.history, id)|
  {
    var steps :| Run(INITIAL, steps, s);
    RunStaysInCredit(steps, s);
    SentWithinGrant(s.history);
  }

  lemma {:induction false} SentWithinGrant(h: History)
    requires WithinCredit(h)
    ensures ConnSent(h) <= ConnGranted(h)
  {
    match h
    case Start =>
    case Then(past, _) => SentWithinGrant(past);
  }

  lemma NoCreditNoData(s: System, s': System, i: int, data: Bytes, end: Option<Frame>, closed: bool, id: int)
    requires SentStep(s, s', i, data, end, closed)
    requires i == id ==> s.windows.streams[id] <= 0
    ensures SentOn(s'.history, id) == SentOn(s.history, id)
  {
    assert i == id ==> data == [];
  }

  lemma OnlySendsSend(s: System, step: Step, id: int)
    requires Base(s) && Enabled(s, step) && !step.SendStep?
    ensures SentOn(Next(s, step).history, id) == SentOn(s.history, id)
  {
  }

  lemma StarvedSendsNothing(s: System, i: int, fault: Fault, id: int)
    requires Base(s) && Enabled(s, SendStep(i, fault)) && id in s.windows.streams && s.windows.streams[id] <= 0
    ensures SentOn(DoSend(s, i, fault).history, id) == SentOn(s.history, id)
  {
    var sent := SendData(s.sched, s.windows, i, fault);
    SendOutcome(s.sched, s.windows, i, fault);
    var data, end := SendIsStep(s, i, sent);
    NoCreditNoData(s, AfterSend(s, i, sent), i, data, end, sent.closed, id);
  }

  /** While a stream has been granted no more than it sent, as after a settings
      change that made its window negative, it sends no DATA. */
  lemma NoDataWithoutCredit(s: System, step: Step, id: int)
    requires Reachable(s) && Base(s) && Enabled(s, step)
    requires id in s.windows.streams && Granted(s.history, id) <= |SentOn(s.history, id)|
    ensures SentOn(Next(s, step).history, id) == SentOn(s.history, id)
  {
    CreditIsRespected(s);
    if step.SendStep? {
      StarvedSendsNothing(s, step.id, step.fault, id);
    } else {
      OnlySendsSend(s, step, id);
    }
  }

  predicate OneByteWaits(s: System, b: Byte)
  {
    && s.runner == AtHead && 1 in s.sched.ready && Live(s, 1)
    && s.sched.buffers[1].data == [b] && !s.sched.buffers[1].complete
    && s.windows == INITIAL_WINDOWS.(streams := map[1 := 65535])
  }

  lemma FirstByteWaits(b: Byte) returns (s: System)
    ensures Reachable(s) && Base(s) && OneByteWaits(s, b)
  {
    FirstStreamOpens();
    ReachNext(OPENED, PushStep(1, [b]));
    s := Next(OPENED, PushStep(1, [b]));
  }

  lemma OneByteLeaves(s: System, b: Byte, s': System)
    requires Base(s) && OneByteWaits(s, b) && s' == Next(s, SendStep(1, NoFault))
    ensures s'.windows.initial == 65535 && 1 in s'.windows.streams && s'.windows.streams[1] == 65534
  {
    var sent := SendData(s.sched, s.windows, 1, NoFault);
    SendOutcome(s.sched, s.windows, 1, NoFault);
    var data, end := SendIsStep(s, 1, sent);
    assert ChunkSize(s.windows, 1) == 16384;
  }

  /** A settings change does make a window negative: one byte is sent, then the
      initial window becomes zero. */
  lemma SettingsMayOverdraw(b: Byte)
    ensures exists s :: Reachable(s) && 1 in s.windows.streams && s.windows.streams[1] < 0
  {
    var s := FirstByteWaits(b);
    var s' := Next(s, SendStep(1, NoFault));
    OneByteLeaves(s, b, s');
    ReachNext(s, SendStep(1, NoFault));
    ReachNext(s', SettingsStep(0));
    assert 1 in Next(s', SettingsStep(0)).windows.streams;
  }
}
