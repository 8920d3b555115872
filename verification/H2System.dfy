/** The HTTP/2 send path as a step machine under cooperative scheduling.

    A step is the code between two suspensions.  Any interleaving of the app
    tasks (one per stream), the reader task and the scheduler's own task is a
    sequence of steps.  `history` records what can be observed from outside:
    what the app handed over, the frames sent, the credit the peer granted,
    flushes, closes and released callers. */
module H2System {
  import opened Common
  import opened StreamBuffers
  import opened H2Send

  datatype Obs =
    | Opened(id: int)
    | Accepted(id: int, data: Bytes)
    /** The app has handed over the end of its stream, bare or as trailers. */
    | EndAsked(id: int, trailers: Option<Headers>)
    | FrameSent(frame: Frame)
    | StreamCredit(id: int, n: nat)
    | ConnCredit(n: nat)
    | NewInitialWindow(n: nat)
    | NewMaxFrame(n: nat)
    | FlushStarted
    | FlushDone
    | FlushFailed
    | Gone(id: int)
    | Released(id: int)

  /** Everything observed so far, the latest observation outermost. */
  datatype History = Start | Then(past: History, obs: Obs)

  /** The app task of a stream: at most one send is in flight. */
  datatype Producer = Idle | AwaitSpace | AwaitFinished

  /** The scheduler's task. */
  datatype Runner =
    | AtHead
    | Parked
    | InBatch(sends: nat, needsFlush: bool, done: set<int>)
    | Flushing(done: set<int>)
    | Stopped

  /** `detached` holds buffers no longer in the dictionary that an app task or
      the batch still refers to.  `notices` are window changes the library has
      applied and whose `window_updated` call is still to come; 0 stands for
      the connection and for a settings change. */
  datatype System = System(
    sched: Sched,
    windows: Windows,
    detached: map<int, BufferView>,
    producers: map<int, Producer>,
    runner: Runner,
    notices: seq<int>,
    history: History)

  const INITIAL_WINDOWS := Windows(65535, map[], 65535, 16384)

  const INITIAL := System(
    Sched(map[], {}, {}, false), INITIAL_WINDOWS, map[], map[], AtHead, [], Start)

  datatype Step =
    | RegisterStep(id: int)
    | PushStep(id: int, data: Bytes)
    | EndStep(id: int)
    | TrailersStep(id: int, headers: Headers)
    | ResumeStep(id: int)
    | CreditStep(id: int, n: nat)
    | ConnCreditStep(n: nat)
    | SettingsStep(initial: nat)
    | MaxFrameStep(n: nat)
    | NotifyStep
    | PriorityStep(added: set<int>)
    | CloseStep(id: int)
    | WakeStep
    | SendStep(id: int, fault: Fault)
    | EndBatchStep
    | FlushedStep(ok: bool)
    | ParkStep
    | UnparkStep
    | StopStep

  predicate Live(s: System, id: int) { id in s.sched.buffers }

  function BufferOf(s: System, id: int): BufferView
    requires id in s.sched.buffers.Keys + s.detached.Keys
  {
    if Live(s, id) then s.sched.buffers[id] else s.detached[id]
  }

  /** How the parts of the state refer to each other. */
  predicate Base(s: System)
  {
    && Tidy(s.sched)
    && s.producers.Keys == s.windows.streams.Keys == s.sched.buffers.Keys + s.detached.Keys
    && s.sched.buffers.Keys !! s.detached.Keys
    && 0 !in s.producers
    && s.windows.maxFrame > 0
    && (s.runner.InBatch? || s.runner.Flushing? ==> s.runner.done <= s.detached.Keys)
    && (s.runner.InBatch? && s.runner.done != {} ==> s.runner.needsFlush)
  }

  predicate Enabled(s: System, step: Step)
  {
    match step
    case RegisterStep(id) => id != 0 && id !in s.producers
    case PushStep(id, _) => id in s.producers && s.producers[id] == Idle
    case EndStep(id) => id in s.producers && s.producers[id] == Idle
    case TrailersStep(id, _) => id in s.producers && s.producers[id] == Idle
    case ResumeStep(id) =>
      && id in s.producers && id in s.sched.buffers.Keys + s.detached.Keys
      && match s.producers[id] {
           case Idle => false
           case AwaitSpace => BufferOf(s, id).paused
           case AwaitFinished => BufferOf(s, id).finished
         }
    case CreditStep(id, n) => id in s.windows.streams && n > 0
    case ConnCreditStep(n) => n > 0
    case SettingsStep(_) => true
    case MaxFrameStep(n) => n > 0
    case NotifyStep => s.notices != []
    case PriorityStep(_) => true
    case CloseStep(_) => true
    case WakeStep => true
    case SendStep(id, _) =>
      && id in s.sched.ready
      && (s.runner == AtHead || (s.runner.InBatch? && s.runner.sends < MAX_BATCHED_SENDS))
    case EndBatchStep =>
      s.runner.InBatch? && (s.runner.sends >= MAX_BATCHED_SENDS || s.sched.ready == {})
    case FlushedStep(_) => s.runner.Flushing?
    case ParkStep => s.runner == AtHead && s.sched.ready == {}
    case UnparkStep => s.runner == Parked && s.sched.hasData
    case StopStep => s.runner == AtHead
  }

  function Note(s: System, obs: Obs): System
  {
    s.(history := Then(s.history, obs))
  }

  function DoRegister(s: System, id: int): System
  {
    Note(s, Opened(id)).(
      sched := Register(s.sched, id),
      windows := s.windows.(streams := s.windows.streams[id := s.windows.initial]),
      producers := s.producers[id := Idle])
  }

  /** The source swallows KeyError and BufferCompleteError here. */
  function DoPush(s: System, id: int, data: Bytes): System
  {
    if Live(s, id) && CanPush(s.sched.buffers[id]) then
      var sched := Buffer(s.sched, id, data);
      Note(s, Accepted(id, data)).(
        sched := sched,
        producers := s.producers[id := if ShouldPause(sched.buffers[id]) then AwaitSpace else Idle])
    else s
  }

  function DoEnd(s: System, id: int): System
  {
    if Live(s, id) then
      Note(s, EndAsked(id, None)).(sched := End(s.sched, id), producers := s.producers[id := AwaitFinished])
    else s
  }

  function DoTrailers(s: System, id: int, headers: Headers): System
  {
    if Live(s, id) then
      Note(s, EndAsked(id, Some(headers))).(
        sched := Trailers(s.sched, id, headers),
        producers := s.producers[id := AwaitFinished])
    else s
  }

  function WithBuffer(s: System, id: int, b: BufferView): System
  {
    if Live(s, id) then s.(sched := s.sched.(buffers := s.sched.buffers[id := b]))
    else s.(detached := s.detached[id := b])
  }

  function DoResume(s: System, id: int): System
    requires id in s.producers && id in s.sched.buffers.Keys + s.detached.Keys
  {
    var s1 := s.(producers := s.producers[id := Idle]);
    if s.producers[id] == AwaitSpace then WithBuffer(s1, id, BufferOf(s, id).(paused := false))
    else Note(s1, Released(id))
  }

  function DoCredit(s: System, id: int, n: nat): System
    requires id in s.windows.streams
  {
    Note(s, StreamCredit(id, n)).(
      windows := s.windows.(streams := s.windows.streams[id := s.windows.streams[id] + n]),
      notices := s.notices + [id])
  }

  function DoConnCredit(s: System, n: nat): System
  {
    Note(s, ConnCredit(n)).(
      windows := s.windows.(conn := s.windows.conn + n),
      notices := s.notices + [0])
  }

  /** A new initial window moves every stream window by the difference, which
      can make it negative. */
  function Resize(w: Windows, initial: nat): Windows
  {
    w.(streams := map id | id in w.streams :: w.streams[id] + initial - w.initial, initial := initial)
  }

  function DoSettings(s: System, initial: nat): System
  {
    Note(s, NewInitialWindow(initial)).(
      windows := Resize(s.windows, initial),
      notices := s.notices + [0])
  }

  function DoMaxFrame(s: System, n: nat): System
  {
    Note(s, NewMaxFrame(n)).(windows := s.windows.(maxFrame := n))
  }

  function DoNotify(s: System): System
    requires s.notices != []
  {
    s.(sched := WindowUpdated(s.sched, s.notices[0]), notices := s.notices[1..])
  }

  function DoClose(s: System, id: int): System
  {
    if Live(s, id) then
      Note(s, Gone(id)).(
        sched := CloseStream(s.sched, id),
        detached := s.detached[id := Closed(s.sched.buffers[id])])
    else s
  }

  predicate IsEnd(f: Frame) { !f.DataFrame? }

  /** The frame ends this stream: by its trailers if it has any. */
  predicate EndsWith(f: Frame, id: int, trailers: Option<Headers>)
  {
    match trailers
    case None => f == EndFrame(id)
    case Some(headers) => f == TrailersFrame(id, headers)
  }

  function Log(h: History, frames: seq<Frame>): History
  {
    if frames == [] then h else Then(Log(h, Front(frames)), FrameSent(Last(frames)))
  }

  function DoSend(s: System, id: int, fault: Fault): System
    requires Base(s) && id in s.sched.ready && (s.runner == AtHead || s.runner.InBatch?)
  {
    AfterSend(s, id, SendData(s.sched, s.windows, id, fault))
  }

  function AfterSend(s: System, id: int, sent: Sent): System
    requires Live(s, id) && (s.runner == AtHead || s.runner.InBatch?)
  {
    var h := Log(s.history, sent.frames);
    var done := if s.runner == AtHead then {} else s.runner.done;
    System(
      sent.sched,
      sent.windows,
      if sent.closed then s.detached[id := Closed(s.sched.buffers[id])]
      else if sent.finished.Some? then s.detached[id := sent.finished.value]
      else s.detached,
      s.producers,
      InBatch(if s.runner == AtHead then 1 else s.runner.sends + 1,
              (s.runner.InBatch? && s.runner.needsFlush) || sent.needsFlush,
              if sent.finished.Some? then done + {id} else done),
      s.notices,
      if sent.closed then Then(h, Gone(id)) else h)
  }

  /** `finish()` on every buffer the batch ended. */
  function Finish(detached: map<int, BufferView>, done: set<int>): map<int, BufferView>
  {
    map id | id in detached :: if id in done then detached[id].(finished := true) else detached[id]
  }

  function DoEndBatch(s: System): System
    requires s.runner.InBatch?
  {
    if s.runner.needsFlush then Note(s, FlushStarted).(runner := Flushing(s.runner.done))
    else s.(runner := AtHead, detached := Finish(s.detached, s.runner.done))
  }

  /** A flush that raises still finishes the buffers and then ends `run`. */
  function DoFlushed(s: System, ok: bool): System
    requires s.runner.Flushing?
  {
    Note(s, if ok then FlushDone else FlushFailed).(
      runner := if ok then AtHead else Stopped,
      detached := Finish(s.detached, s.runner.done))
  }

  function Next(s: System, step: Step): System
    requires Base(s) && Enabled(s, step)
  {
    match step
    case RegisterStep(id) => DoRegister(s, id)
    case PushStep(id, data) => DoPush(s, id, data)
    case EndStep(id) => DoEnd(s, id)
    case TrailersStep(id, headers) => DoTrailers(s, id, headers)
    case ResumeStep(id) => DoResume(s, id)
    case CreditStep(id, n) => DoCredit(s, id, n)
    case ConnCreditStep(n) => DoConnCredit(s, n)
    case SettingsStep(initial) => DoSettings(s, initial)
    case MaxFrameStep(n) => DoMaxFrame(s, n)
    case NotifyStep => DoNotify(s)
    case PriorityStep(added) => s.(sched := PriorityUpdated(s.sched, added))
    case CloseStep(id) => DoClose(s, id)
    case WakeStep => s.(sched := Wake(s.sched))
    case SendStep(id, fault) => DoSend(s, id, fault)
    case EndBatchStep => DoEndBatch(s)
    case FlushedStep(ok) => DoFlushed(s, ok)
    case ParkStep => s.(runner := Parked)
    case UnparkStep => s.(runner := AtHead, sched := s.sched.(hasData := false))
    case StopStep => s.(runner := Stopped)
  }

  /** Steps of an app task. */
  predicate IsApp(step: Step) { step.PushStep? || step.EndStep? || step.TrailersStep? || step.ResumeStep? }

  /** Steps of the scheduler's task. */
  predicate IsTask(step: Step)
  {
    step.SendStep? || step.EndBatchStep? || step.FlushedStep? || step.ParkStep? || step.UnparkStep? || step.StopStep?
  }

  lemma AppKeepsBase(s: System, step: Step)
    requires Base(s) && Enabled(s, step) && IsApp(step)
    ensures Base(Next(s, step))
  {
  }

  lemma TaskKeepsBase(s: System, step: Step)
    requires Base(s) && Enabled(s, step) && IsTask(step)
    ensures Base(Next(s, step))
  {
    if step.SendStep? {
      SendOutcome(s.sched, s.windows, step.id, step.fault);
      SendKeepsBase(s, step.id, SendData(s.sched, s.windows, step.id, step.fault));
    }
  }

  lemma ReaderKeepsBase(s: System, step: Step)
    requires Base(s) && Enabled(s, step) && !IsApp(step) && !IsTask(step)
    ensures Base(Next(s, step))
  {
    if step.SettingsStep? {
      assert Next(s, step).windows.streams.Keys == s.windows.streams.Keys;
    }
  }

  lemma KeepBase(s: System, step: Step)
    requires Base(s) && Enabled(s, step)
    ensures Base(Next(s, step))
  {
    if IsApp(step) {
      AppKeepsBase(s, step);
    } else if IsTask(step) {
      TaskKeepsBase(s, step);
    } else {
      ReaderKeepsBase(s, step);
    }
  }

  /** A stream that leaves the dictionary while its buffer stays known. */
  lemma LeavingKeepsBase(s: System, id: int, s': System)
    requires Base(s) && id in s.sched.ready && Tidy(s'.sched)
    requires s'.sched.buffers.Keys == s.sched.buffers.Keys - {id} && s'.detached.Keys == s.detached.Keys + {id}
    requires s'.producers == s.producers && s'.windows.streams.Keys == s.windows.streams.Keys
    requires s'.windows.maxFrame == s.windows.maxFrame && s'.runner.InBatch?
    requires s'.runner.done <= (if s.runner.InBatch? then s.runner.done else {}) + {id}
    requires s'.runner.done != {} ==> s'.runner.needsFlush
    ensures Base(s')
  {
  }

  lemma StayingKeepsBase(s: System, id: int, s': System)
    requires Base(s) && id in s.sched.ready && Tidy(s'.sched)
    requires s'.sched.buffers.Keys == s.sched.buffers.Keys && s'.detached == s.detached
    requires s'.producers == s.producers && s'.windows.streams.Keys == s.windows.streams.Keys
    requires s'.windows.maxFrame == s.windows.maxFrame && s'.runner.InBatch?
    requires s'.runner.done == (if s.runner.InBatch? then s.runner.done else {})
    requires s'.runner.done != {} ==> s'.runner.needsFlush
    ensures Base(s')
  {
  }

  /** What every outcome of `_send_data` leaves in order. */
  predicate Ordered(s: Sched, w: Windows, id: int, r: Sent)
  {
    && Tidy(r.sched) && r.windows.streams.Keys == w.streams.Keys && r.windows.maxFrame == w.maxFrame
    && r.sched.buffers.Keys == (if r.closed || r.finished.Some? then s.buffers.Keys - {id} else s.buffers.Keys)
    && (r.finished.Some? ==> r.needsFlush && !r.closed)
  }

  lemma OutcomeIsOrdered(s: Sched, w: Windows, id: int, r: Sent)
    requires Tidy(s) && id in s.ready && id in w.streams && Outcome(s, w, id, r)
    ensures Ordered(s, w, id, r)
  {
  }

  lemma SentKeepsBase(s: System, id: int, sent: Sent)
    requires Base(s) && id in s.sched.ready && (s.runner == AtHead || s.runner.InBatch?)
    requires Ordered(s.sched, s.windows, id, sent)
    ensures Base(AfterSend(s, id, sent))
  {
    var s' := AfterSend(s, id, sent);
    if sent.closed || sent.finished.Some? {
      LeavingKeepsBase(s, id, s');
    } else {
      StayingKeepsBase(s, id, s');
    }
  }

  lemma SendKeepsBase(s: System, id: int, sent: Sent)
    requires Base(s) && id in s.sched.ready && (s.runner == AtHead || s.runner.InBatch?)
    requires Outcome(s.sched, s.windows, id, sent)
    ensures Base(AfterSend(s, id, sent))
  {
    OutcomeIsOrdered(s.sched, s.windows, id, sent);
    SentKeepsBase(s, id, sent);
  }

  lemma LogOne(h: History, f: Frame)
    ensures Log(h, [f]) == Then(h, FrameSent(f))
  {
    assert Front([f]) == [];
  }

  lemma LogTwo(h: History, f: Frame, g: Frame)
    ensures Log(h, [f] + [g]) == Then(Then(h, FrameSent(f)), FrameSent(g))
  {
    assert Front([f] + [g]) == [f];
    LogOne(h, f);
  }

  /** The history after a call of `_send_data` that took `data` out of the
      buffer: maybe a DATA frame, maybe an end, maybe a close. */
  function Extended(h: History, id: int, data: Bytes, end: Option<Frame>, closed: bool): History
  {
    var h1 := if data == [] then h else Then(h, FrameSent(DataFrame(id, data)));
    var h2 := if end == None then h1 else Then(h1, FrameSent(end.value));
    if closed then Then(h2, Gone(id)) else h2
  }

  /** One call of `_send_data` as a step: `data` left the buffer of `id` (none
      of it when the library refused), and the stream stayed, ended or closed. */
  predicate SentStep(s: System, s': System, id: int, data: Bytes, end: Option<Frame>, closed: bool)
  {
    && Live(s, id) && id in s.windows.streams
    && var b := s.sched.buffers[id];
    var n := ChunkSize(s.windows, id);
    && s'.history == Extended(s.history, id, data, end, closed)
    && s'.producers == s.producers
    && (data == [] || data == PopData(b, n))
    && s'.windows == (if data == [] then s.windows else Spend(s.windows, id, |data|))
    && (end.Some? ==> !closed && EndsWith(end.value, id, b.trailers) && data == b.data && b.complete)
    && (end.Some? || closed ==>
          && s'.sched.buffers == s.sched.buffers - {id}
          && s'.detached == s.detached[id := if closed then Closed(b) else PopRest(b, n)])
    && (end == None && !closed ==>
          && data == PopData(b, n)
          && s'.sched.buffers == s.sched.buffers[id := PopRest(b, n)]
          && s'.detached == s.detached)
    && s'.runner.InBatch?
    && s'.runner.done == (if s.runner.InBatch? then s.runner.done else {})
                         + (if end.Some? then {id} else {})
  }

  lemma LogIsExtended(h: History, id: int, data: Bytes, end: Option<Frame>, frames: seq<Frame>)
    requires frames == (if data == [] then [] else [DataFrame(id, data)])
                       + (if end == None then [] else [end.value])
    ensures Log(h, frames) == Extended(h, id, data, end, false)
    ensures Then(Log(h, frames), Gone(id)) == Extended(h, id, data, end, true)
  {
    if data != [] && end.Some? {
      LogTwo(h, DataFrame(id, data), end.value);
    } else if frames != [] {
      LogOne(h, frames[0]);
      assert frames == [frames[0]];
    }
  }

  /** What one call of `_send_data` took out of the buffer. */
  function TakenBy(s: System, id: int, sent: Sent): Bytes
    requires Live(s, id) && id in s.windows.streams
  {
    if sent == Sent(CloseStream(s.sched, id), s.windows, [], false, None, true) then []
    else PopData(s.sched.buffers[id], ChunkSize(s.windows, id))
  }

  function EndBy(s: System, id: int, sent: Sent): Option<Frame>
    requires Live(s, id) && id in s.windows.streams
  {
    if sent.finished == None then None
    else Some(EndOf(id, PopRest(s.sched.buffers[id], ChunkSize(s.windows, id))))
  }

  /** What a call took out, sent, ended or closed, in terms of its outcome. */
  predicate Yields(s: System, id: int, sent: Sent, data: Bytes, end: Option<Frame>)
    requires Live(s, id) && id in s.windows.streams
  {
    var b, n := s.sched.buffers[id], ChunkSize(s.windows, id);
    && (data == [] || data == PopData(b, n))
    && sent.windows == (if data == [] then s.windows else Spend(s.windows, id, |data|))
    && (end.Some? <==> sent.finished.Some?)
    && (end.Some? ==> !sent.closed && EndsWith(end.value, id, b.trailers) && data == b.data && b.complete
                      && sent.finished == Some(PopRest(b, n)))
    && (end.Some? || sent.closed ==> sent.sched.buffers == s.sched.buffers - {id})
    && (end == None && !sent.closed ==>
          data == PopData(b, n) && sent.sched.buffers == s.sched.buffers[id := PopRest(b, n)])
  }

  lemma OutcomeYields(s: System, id: int, sent: Sent)
    requires Live(s, id) && id in s.windows.streams && Outcome(s.sched, s.windows, id, sent)
    ensures Yields(s, id, sent, TakenBy(s, id, sent), EndBy(s, id, sent))
  {
    var b, n := s.sched.buffers[id], ChunkSize(s.windows, id);
    assert Drained(PopRest(b, n)) ==> PopData(b, n) == b.data;
  }

  lemma OutcomeFrames(s: System, id: int, sent: Sent)
    requires Live(s, id) && id in s.windows.streams && Outcome(s.sched, s.windows, id, sent)
    ensures var data, end := TakenBy(s, id, sent), EndBy(s, id, sent);
            sent.frames == (if data == [] then [] else [DataFrame(id, data)])
                           + (if end == None then [] else [end.value])
  {
  }

  lemma YieldsStep(s: System, id: int, sent: Sent, data: Bytes, end: Option<Frame>, s': System)
    requires Live(s, id) && id in s.windows.streams && Yields(s, id, sent, data, end)
    requires s'.sched == sent.sched && s'.windows == sent.windows && s'.producers == s.producers
    requires s'.detached == (if sent.closed then s.detached[id := Closed(s.sched.buffers[id])]
                             else if sent.finished.Some? then s.detached[id := sent.finished.value]
                             else s.detached)
    requires s'.runner.InBatch?
    requires s'.runner.done == (if s.runner.InBatch? then s.runner.done else {})
                               + (if sent.finished.Some? then {id} else {})
    requires s'.history == Extended(s.history, id, data, end, sent.closed)
    ensures SentStep(s, s', id, data, end, sent.closed)
  {
  }

  lemma SendIsStep(s: System, id: int, sent: Sent) returns (data: Bytes, end: Option<Frame>)
    requires Live(s, id) && id in s.windows.streams && (s.runner == AtHead || s.runner.InBatch?)
    requires Outcome(s.sched, s.windows, id, sent)
    ensures SentStep(s, AfterSend(s, id, sent), id, data, end, sent.closed)
  {
    data, end := TakenBy(s, id, sent), EndBy(s, id, sent);
    OutcomeYields(s, id, sent);
    OutcomeFrames(s, id, sent);
    LogIsExtended(s.history, id, data, end, sent.frames);
    YieldsStep(s, id, sent, data, end, AfterSend(s, id, sent));
  }

  /** A run: each step is enabled in the state the earlier ones lead to. */
  ghost predicate Run(s: System, steps: seq<Step>, s': System)
    decreases |steps|
  {
    if steps == [] then s' == s
    else exists mid :: Run(s, Front(steps), mid) && Base(mid) && Enabled(mid, Last(steps))
                       && s' == Next(mid, Last(steps))
  }

  /** A state that some run of steps reaches from a new connection. */
  ghost predicate Reachable(s: System)
  {
    exists steps :: Run(INITIAL, steps, s)
  }

  lemma RunSnoc(s: System, steps: seq<Step>, mid: System, step: Step, s': System)
    requires Run(s, steps, mid) && Base(mid) && Enabled(mid, step) && s' == Next(mid, step)
    ensures Run(s, steps + [step], s')
  {
    assert Front(steps + [step]) == steps;
  }

  lemma ReachNext(s: System, step: Step)
    requires Reachable(s) && Base(s) && Enabled(s, step)
    ensures Reachable(Next(s, step)) && Base(Next(s, step))
  {
    KeepBase(s, step);
    var steps :| Run(INITIAL, steps, s);
    RunSnoc(INITIAL, steps, s, step, Next(s, step));
  }

  /** A new connection with its first stream. */
  const OPENED := System(
    Sched(map[1 := EMPTY], {1}, {}, false), INITIAL_WINDOWS.(streams := map[1 := 65535]), map[],
    map[1 := Idle], AtHead, [], Then(Start, Opened(1)))

  lemma FirstStreamOpens()
    ensures Reachable(OPENED) && Base(OPENED)
  {
    assert Run(INITIAL, [], INITIAL);
    ReachNext(INITIAL, RegisterStep(1));
    assert Next(INITIAL, RegisterStep(1)) == OPENED;
  }
}
