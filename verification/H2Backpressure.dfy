/** How much a stream's buffer can hold when its app pauses as told. */
module H2Backpressure {
  import opened Common
  import opened StreamBuffers
  import opened H2Send
  import opened H2System

  /** No accepted piece was longer than `most`. */
  predicate PiecesUpTo(h: History, most: nat)
  {
    match h
    case Start => true
    case Then(past, Accepted(_, data)) => |data| <= most && PiecesUpTo(past, most)
    case Then(past, _) => PiecesUpTo(past, most)
  }

  /** The longest a buffer may be, given what its app is doing and whether its
      pause flag is set.  A flag left set by an earlier pop lets one push that
      reaches the high-water mark go by without waiting. */
  function Bound(p: Producer, paused: bool, most: nat): nat
  {
    match p
    case Idle => if paused then HIGH_WATER - 1 else HIGH_WATER - 1 + most
    case AwaitSpace => if paused then HIGH_WATER - 1 + most else HIGH_WATER - 1 + 2 * most
    case AwaitFinished => HIGH_WATER - 1 + most
  }

  predicate Fits(s: System, id: int, most: nat)
    requires Base(s) && Live(s, id)
  {
    var b := s.sched.buffers[id];
    && |b.data| <= Bound(s.producers[id], b.paused, most)
    && !b.finished
    && (b.complete ==> s.producers[id] == AwaitFinished)
    && (s.producers[id] == AwaitSpace && !b.paused ==> |b.data| > LOW_WATER)
  }

  ghost predicate AllFit(s: System, most: nat)
    requires Base(s)
  {
    && (forall id :: Live(s, id) ==> Fits(s, id, most))
    && (forall id :: id in s.producers && s.producers[id] == AwaitSpace && !Live(s, id) ==>
          s.detached[id].paused)
  }

  lemma ExtendPieces(h: History, id: int, data: Bytes, end: Option<Frame>, closed: bool, most: nat)
    ensures PiecesUpTo(Extended(h, id, data, end, closed), most) <==> PiecesUpTo(h, most)
  {
    var h1 := if data == [] then h else Then(h, FrameSent(DataFrame(id, data)));
    assert PiecesUpTo(h1, most) <==> PiecesUpTo(h, most);
    var h2 := if end == None then h1 else Then(h1, FrameSent(end.value));
    assert PiecesUpTo(h2, most) <==> PiecesUpTo(h, most);
  }

  lemma SendKeepsFit(s: System, s': System, id: int, data: Bytes, end: Option<Frame>, closed: bool, most: nat)
    requires Base(s) && Base(s') && SentStep(s, s', id, data, end, closed) && AllFit(s, most)
    ensures AllFit(s', most)
  {
    assert Fits(s, id, most);
    forall j | Live(s', j)
      ensures Fits(s', j, most)
    {
      assert Live(s, j) && Fits(s, j, most);
    }
  }

  lemma PushKeepsFit(s: System, id: int, data: Bytes, s': System, most: nat)
    requires Base(s) && Enabled(s, PushStep(id, data)) && AllFit(s, most) && s' == DoPush(s, id, data)
    requires Base(s') && PiecesUpTo(s'.history, most)
    ensures AllFit(s', most)
  {
    forall j | Live(s', j)
      ensures Fits(s', j, most)
    {
      assert Live(s, j) && Fits(s, j, most);
    }
  }

  lemma EndKeepsFit(s: System, step: Step, s': System, most: nat)
    requires Base(s) && Enabled(s, step) && (step.EndStep? || step.TrailersStep?) && AllFit(s, most)
    requires s' == Next(s, step) && Base(s')
    ensures AllFit(s', most)
  {
    forall j | Live(s', j)
      ensures Fits(s', j, most)
    {
      assert Live(s, j) && Fits(s, j, most);
    }
  }

  lemma ResumeKeepsFit(s: System, id: int, s': System, most: nat)
    requires Base(s) && Enabled(s, ResumeStep(id)) && AllFit(s, most) && s' == DoResume(s, id) && Base(s')
    ensures AllFit(s', most)
  {
    forall j | Live(s', j)
      ensures Fits(s', j, most)
    {
      assert Live(s, j) && Fits(s, j, most);
    }
  }

  lemma AppKeepsFit(s: System, step: Step, most: nat)
    requires Base(s) && Enabled(s, step) && IsApp(step) && AllFit(s, most)
    requires Base(Next(s, step)) && PiecesUpTo(Next(s, step).history, most)
    ensures AllFit(Next(s, step), most)
  {
    var s' := Next(s, step);
    match step
    case PushStep(id, data) => PushKeepsFit(s, id, data, s', most);
    case ResumeStep(id) => ResumeKeepsFit(s, id, s', most);
    case EndStep(_) => EndKeepsFit(s, step, s', most);
    case TrailersStep(_, _) => EndKeepsFit(s, step, s', most);
  }

  lemma TaskKeepsFit(s: System, step: Step, s': System, most: nat)
    requires Base(s) && Enabled(s, step) && IsTask(step) && !step.SendStep? && AllFit(s, most)
    requires s' == Next(s, step) && Base(s')
    ensures AllFit(s', most)
  {
    forall j | Live(s', j)
      ensures Fits(s', j, most)
    {
      assert Fits(s, j, most);
    }
  }

  lemma ReaderKeepsFit(s: System, step: Step, s': System, most: nat)
    requires Base(s) && Enabled(s, step) && !IsApp(step) && !IsTask(step) && AllFit(s, most)
    requires s' == Next(s, step) && Base(s')
    ensures AllFit(s', most)
  {
    forall j | Live(s', j)
      ensures Fits(s', j, most)
    {
      assert Live(s, j) ==> Fits(s, j, most);
    }
  }

  lemma OtherKeepsFit(s: System, step: Step, most: nat)
    requires Base(s) && Enabled(s, step) && !IsApp(step) && !step.SendStep? && AllFit(s, most)
    requires Base(Next(s, step))
    ensures AllFit(Next(s, step), most)
  {
    if IsTask(step) {
      TaskKeepsFit(s, step, Next(s, step), most);
    } else {
      ReaderKeepsFit(s, step, Next(s, step), most);
    }
  }

  lemma PiecesBefore(s: System, step: Step, most: nat)
    requires Base(s) && Enabled(s, step) && PiecesUpTo(Next(s, step).history, most)
    ensures PiecesUpTo(s.history, most)
  {
    if step.SendStep? {
      var sent := SendData(s.sched, s.windows, step.id, step.fault);
      SendOutcome(s.sched, s.windows, step.id, step.fault);
      var data, end := SendIsStep(s, step.id, sent);
      ExtendPieces(s.history, step.id, data, end, sent.closed, most);
    }
  }

  lemma {:induction false} RunFits(steps: seq<Step>, s: System, most: nat)
    requires Run(INITIAL, steps, s) && PiecesUpTo(s.history, most)
    ensures Base(s) && AllFit(s, most)
    decreases |steps|
  {
    if steps == [] {
    } else {
      var mid :| Run(INITIAL, Front(steps), mid) && Base(mid) && Enabled(mid, Last(steps))
                 && s == Next(mid, Last(steps));
      var step := Last(steps);
      PiecesBefore(mid, step, most);
      RunFits(Front(steps), mid, most);
      KeepBase(mid, step);
      if step.SendStep? {
        var sent := SendData(mid.sched, mid.windows, step.id, step.fault);
        SendOutcome(mid.sched, mid.windows, step.id, step.fault);
        var data, end := SendIsStep(mid, step.id, sent);
        SendKeepsFit(mid, s, step.id, data, end, sent.closed, most);
      } else if IsApp(step) {
        AppKeepsFit(mid, step, most);
      } else {
        OtherKeepsFit(mid, step, most);
      }
    }
  }

  /** Over every run that hands over pieces of at most `most` bytes, no buffer
      holds more than the high-water mark and two such pieces less one byte,
      and an app waiting with its flag clear has more than the low-water mark
      left to send, so that a later pop will set the flag. */
  lemma BuffersAreBounded(s: System, id: int, most: nat)
    requires Reachable(s) && PiecesUpTo(s.history, most) && Live(s, id)
    ensures |s.sched.buffers[id].data| <= HIGH_WATER - 1 + 2 * most
    ensures id in s.producers && s.producers[id] == AwaitSpace && !s.sched.buffers[id].paused ==>
              |s.sched.buffers[id].data| > LOW_WATER
  {
    var steps :| Run(INITIAL, steps, s);
    RunFits(steps, s, most);
    assert Fits(s, id, most);
  }

  /** An app waiting for space on a stream that was closed finds its flag set. */
  lemma ClosedStreamsFreeTheirApps(s: System, id: int)
    requires Reachable(s) && id in s.producers && s.producers[id] == AwaitSpace && !Live(s, id)
    ensures Base(s) && s.detached[id].paused
  {
    var steps :| Run(INITIAL, steps, s);
    var most := Longest(s.history);
    LongestIsLongest(s.history, most);
    RunFits(steps, s, most);
  }

  function Longest(h: History): nat
  {
    match h
    case Start => 0
    case Then(past, Accepted(_, data)) => Max(|data|, Longest(past))
    case Then(past, _) => Longest(past)
  }

  lemma {:induction false} LongestIsLongest(h: History, most: nat)
    requires Longest(h) <= most
    ensures PiecesUpTo(h, most)
  {
    match h
    case Start =>
    case Then(past, _) => LongestIsLongest(past, most);
  }

  function Zeros(n: nat): (b: Bytes)
    ensures |b| == n
  {
    seq(n, _ => 0)
  }

  /** Stream 1 is open with `n` bytes buffered and its app in state `p`. */
  predicate Holds(s: System, n: nat, p: Producer, paused: bool, most: nat)
  {
    && Base(s) && Live(s, 1) && s.producers[1] == p
    && s.sched.buffers[1].paused == paused && !s.sched.buffers[1].complete
    && |s.sched.buffers[1].data| == n
    && PiecesUpTo(s.history, most)
  }

  lemma PushHolds(s: System, n: nat, paused: bool, k: nat, most: nat)
    requires Holds(s, n, Idle, paused, most) && k <= most
    ensures Enabled(s, PushStep(1, Zeros(k)))
    ensures Base(Next(s, PushStep(1, Zeros(k)))) ==>
              Holds(Next(s, PushStep(1, Zeros(k))), n + k,
                    if n + k >= HIGH_WATER then AwaitSpace else Idle, paused, most)
  {
  }

  /** The first send leaves the flag set, with nobody waiting for it. */
  lemma SendHolds(s: System, most: nat)
    requires Holds(s, 1, Idle, false, most) && s.windows == INITIAL_WINDOWS.(streams := map[1 := 65535])
    requires s.runner == AtHead && 1 in s.sched.ready && Base(Next(s, SendStep(1, NoFault)))
    ensures Holds(Next(s, SendStep(1, NoFault)), 0, Idle, true, most)
  {
    var sent := SendData(s.sched, s.windows, 1, NoFault);
    SendOutcome(s.sched, s.windows, 1, NoFault);
    var data, end := SendIsStep(s, 1, sent);
    ExtendPieces(s.history, 1, data, end, sent.closed, most);
    assert ChunkSize(s.windows, 1) == 16384;
  }

  lemma StaleStart(most: nat) returns (s: System)
    requires most > 0
    ensures Reachable(s) && Holds(s, 0, Idle, true, most)
  {
    FirstStreamOpens();
    PushHolds(OPENED, 0, false, 1, most);
    ReachNext(OPENED, PushStep(1, Zeros(1)));
    var pushed := Next(OPENED, PushStep(1, Zeros(1)));
    ReachNext(pushed, SendStep(1, NoFault));
    SendHolds(pushed, most);
    s := Next(pushed, SendStep(1, NoFault));
  }

  /** The app is let go at once by the flag the first send left set. */
  lemma ResumeHolds(s: System, n: nat, most: nat)
    requires Holds(s, n, AwaitSpace, true, most)
    ensures Enabled(s, ResumeStep(1))
    ensures Base(Next(s, ResumeStep(1))) ==> Holds(Next(s, ResumeStep(1)), n, Idle, false, most)
  {
  }

  lemma PushOn(s: System, n: nat, paused: bool, k: nat, most: nat) returns (s': System)
    requires Reachable(s) && Holds(s, n, Idle, paused, most) && k <= most
    ensures Reachable(s')
    ensures Holds(s', n + k, if n + k >= HIGH_WATER then AwaitSpace else Idle, paused, most)
  {
    PushHolds(s, n, paused, k, most);
    ReachNext(s, PushStep(1, Zeros(k)));
    s' := Next(s, PushStep(1, Zeros(k)));
  }

  lemma ResumeOn(s: System, n: nat, most: nat) returns (s': System)
    requires Reachable(s) && Holds(s, n, AwaitSpace, true, most)
    ensures Reachable(s') && Holds(s', n, Idle, false, most)
  {
    ResumeHolds(s, n, most);
    ReachNext(s, ResumeStep(1));
    s' := Next(s, ResumeStep(1));
  }

  lemma {:induction false} StaleUpTo(n: nat, most: nat) returns (s: System)
    requires most > 0 && n < HIGH_WATER
    ensures Reachable(s) && Holds(s, n, Idle, true, most)
    decreases n
  {
    if n == 0 {
      s := StaleStart(most);
    } else {
      s := StaleUpTo(n - 1, most);
      s := PushOn(s, n - 1, true, 1, most);
    }
  }

  /** The bound is met: for every piece length some run fills a buffer to it. */
  lemma BoundIsReached(most: nat)
    requires most > 0
    ensures exists s :: Reachable(s) && PiecesUpTo(s.history, most) && Live(s, 1)
                        && |s.sched.buffers[1].data| == HIGH_WATER - 1 + 2 * most
  {
    var s := StaleUpTo(HIGH_WATER - 1, most);
    s := PushOn(s, HIGH_WATER - 1, true, most, most);
    s := ResumeOn(s, HIGH_WATER - 1 + most, most);
    s := PushOn(s, HIGH_WATER - 1 + most, false, most, most);
  }
}
