/** With enough credit the scheduler's own steps let every app go on. */
module H2Liveness {
  import opened Common
  import opened StreamBuffers
  import opened H2Send
  import opened H2Drain
  import opened H2System
  import opened H2Progress
  import opened H2Release
  import opened H2Backpressure

  /** There is credit for the bytes of these buffers, of each stream and in all.
      Where there are none, none is needed. */
  ghost predicate Covers(w: Windows, m: map<int, BufferView>)
  {
    && (forall id :: id in m && m[id].data != [] ==> id in w.streams && w.streams[id] >= |m[id].data|)
    && (TotalBytes(m) > 0 ==> w.conn >= TotalBytes(m))
  }

  ghost predicate EnoughCredit(s: System) { Covers(s.windows, s.sched.buffers) }

  /** What the scheduler does when the library refuses nothing: the calls that
      are due, and every step of its loop but the stop. */
  predicate IsOwn(step: Step)
  {
    || step == NotifyStep || step == EndBatchStep || step == FlushedStep(true)
    || step == ParkStep || step == UnparkStep || (step.SendStep? && step.fault == NoFault)
  }

  predicate AllOwn(steps: seq<Step>) { forall i :: 0 <= i < |steps| ==> IsOwn(steps[i]) }

  predicate Alive(s: System) { s.runner != Stopped }

  /** No step of its own is left. */
  ghost predicate Stuck(s: System)
  {
    forall step :: IsOwn(step) ==> !Enabled(s, step)
  }

  predicate Resting(s: System)
  {
    s.notices == [] && s.runner == Parked && !s.sched.hasData && s.sched.ready == {}
  }

  /** One of the own steps that are left. */
  ghost function Own(s: System): Step
  {
    if s.notices != [] then NotifyStep
    else if s.runner.Flushing? then FlushedStep(true)
    else if s.runner == Parked then UnparkStep
    else if s.sched.ready != {} && (s.runner.InBatch? ==> s.runner.sends < MAX_BATCHED_SENDS) then
      SendStep(AnyOf(s.sched.ready), NoFault)
    else if s.runner.InBatch? then EndBatchStep
    else ParkStep
  }

  lemma OwnIsEnabled(s: System)
    requires Awake(s) && Alive(s) && !Resting(s)
    ensures Enabled(s, Own(s)) && IsOwn(Own(s))
  {
  }

  lemma StuckIsResting(s: System)
    requires Alive(s) && Awake(s) && Stuck(s)
    ensures Resting(s)
  {
    if !Resting(s) {
      OwnIsEnabled(s);
    }
  }

  function Stage(r: Runner): nat
  {
    match r
    case InBatch(_, _, _) => 3
    case Flushing(_) => 2
    case AtHead => 1
    case _ => 0
  }

  /** A bound on the own steps that are left: a call that is due may ready every
      stream, a turn uses up a byte or a ready stream, and the loop comes back to
      its head. */
  ghost function StepsLeft(s: System): nat
  {
    5 * (|s.notices| * |s.sched.buffers| + Fuel(s.sched)) + 3 * |s.notices|
    + LoopLeft(s)
  }

  function LoopLeft(s: System): nat { Stage(s.runner) + if s.sched.hasData then 2 else 0 }

  lemma Fewer(small: set<int>, large: set<int>)
    requires small <= large
    ensures |small| <= |large|
  {
    assert large == small + (large - small);
  }

  lemma NotifyUses(s: System, s': System)
    requires s.notices != [] && |s'.notices| == |s.notices| - 1 && s'.runner == s.runner
    requires s'.sched.buffers == s.sched.buffers && s'.sched.ready <= s.sched.buffers.Keys
    ensures StepsLeft(s') < StepsLeft(s)
  {
    Fewer(s'.sched.ready, s.sched.buffers.Keys);
    assert |s.sched.buffers.Keys| == |s.sched.buffers|;
    TimesOneMore(|s.notices|, |s.sched.buffers|);
  }

  lemma SendUsesSteps(s: System, id: int, r: Sent, s': System)
    requires Base(s) && id in s.sched.ready && (s.runner == AtHead || s.runner.InBatch?)
    requires Outcome(s.sched, s.windows, id, r) && !r.closed
    requires s'.sched == r.sched && s'.notices == s.notices && s'.runner.InBatch?
    ensures StepsLeft(s') < StepsLeft(s)
  {
    SendUsesFuel(s.sched, s.windows, id, r);
    Fewer(s'.sched.buffers.Keys, s.sched.buffers.Keys);
    assert |s.sched.buffers.Keys| == |s.sched.buffers| && |s'.sched.buffers.Keys| == |s'.sched.buffers|;
    FewerTimes(|s.notices|, |s'.sched.buffers|, |s.sched.buffers|);
  }

  lemma FewerTimes(n: nat, a: nat, b: nat)
    requires a <= b
    ensures n * a <= n * b
  {
  }

  lemma NothingCloses(s: Sched, w: Windows, id: int)
    requires id in s.buffers && s.buffers.Keys <= w.streams.Keys
    ensures !SendData(s, w, id, NoFault).closed
  {
  }

  lemma LoopAdvances(s: System, step: Step, s': System)
    requires Base(s) && Enabled(s, step) && IsOwn(step) && !step.SendStep? && step != NotifyStep
    requires Alive(s) && s' == Next(s, step)
    ensures LoopLeft(s') < LoopLeft(s) && Alive(s') && s'.producers == s.producers && s'.notices == s.notices
    ensures s'.sched.buffers == s.sched.buffers && s'.sched.ready == s.sched.ready
  {
  }

  lemma LoopUses(s: System, s': System)
    requires LoopLeft(s') < LoopLeft(s) && s'.notices == s.notices
    requires s'.sched.buffers == s.sched.buffers && s'.sched.ready == s.sched.ready
    ensures StepsLeft(s') < StepsLeft(s)
  {
  }

  lemma OwnStepUses(s: System, step: Step, s': System)
    requires Base(s) && Enabled(s, step) && IsOwn(step) && Alive(s) && s' == Next(s, step)
    ensures StepsLeft(s') < StepsLeft(s) && Alive(s') && s'.producers == s.producers
  {
    if step == NotifyStep {
      NotifyUses(s, s');
    } else if step.SendStep? {
      SendOutcome(s.sched, s.windows, step.id, NoFault);
      NothingCloses(s.sched, s.windows, step.id);
      SendUsesSteps(s, step.id, SendData(s.sched, s.windows, step.id, NoFault), s');
    } else {
      LoopAdvances(s, step, s');
      LoopUses(s, s');
    }
  }

  /** A call spends as much credit as it takes bytes. */
  lemma SendSpends(s: Sched, w: Windows, id: int, r: Sent) returns (n: nat)
    requires id in s.buffers && id in w.streams && Outcome(s, w, id, r)
    ensures n <= |s.buffers[id].data| && r.windows == (if n == 0 then w else Spend(w, id, n))
    ensures r.sched.buffers - {id} == s.buffers - {id}
    ensures id in r.sched.buffers ==> |r.sched.buffers[id].data| == |s.buffers[id].data| - n
  {
    n := if r.windows == w then 0 else |PopData(s.buffers[id], ChunkSize(w, id))|;
  }

  /** Taking bytes of one buffer and spending the credit for them. */
  lemma StaysCovered(w: Windows, m: map<int, BufferView>, id: int, n: nat, m': map<int, BufferView>)
    requires Covers(w, m) && id in m && id in w.streams && n <= |m[id].data| && m' - {id} == m - {id}
    requires id in m' ==> |m'[id].data| + n <= |m[id].data|
    ensures Covers(if n == 0 then w else Spend(w, id, n), m')
  {
    TotalWithout(m, id);
    if id in m' {
      TotalWithout(m', id);
    } else {
      assert m' == m' - {id};
    }
    forall j | j in m' && m'[j].data != [] && j != id
      ensures j in m && m'[j] == m[j]
    {
      SameElsewhere(m, m', id, j);
    }
  }

  lemma OwnStepKeepsCredit(s: System, step: Step, s': System)
    requires Base(s) && Enabled(s, step) && IsOwn(step) && s' == Next(s, step) && EnoughCredit(s)
    ensures EnoughCredit(s')
  {
    if step.SendStep? {
      var r := SendData(s.sched, s.windows, step.id, NoFault);
      SendOutcome(s.sched, s.windows, step.id, NoFault);
      var n := SendSpends(s.sched, s.windows, step.id, r);
      StaysCovered(s.windows, s.sched.buffers, step.id, n, r.sched.buffers);
    }
  }

  lemma {:induction false} OwnRun(s: System, steps: seq<Step>, s': System)
    requires Reachable(s) && Base(s) && EnoughCredit(s) && Alive(s) && Run(s, steps, s') && AllOwn(steps)
    ensures Reachable(s') && Base(s') && EnoughCredit(s') && Alive(s') && s'.producers == s.producers
    ensures |steps| + StepsLeft(s') <= StepsLeft(s)
    decreases |steps|
  {
    if steps == [] {
    } else {
      var mid :| Run(s, Front(steps), mid) && Base(mid) && Enabled(mid, Last(steps)) && s' == Next(mid, Last(steps));
      OwnRun(s, Front(steps), mid);
      ReachNext(mid, Last(steps));
      OwnStepUses(mid, Last(steps), s');
      OwnStepKeepsCredit(mid, Last(steps), s');
    }
  }

  /** At rest with enough credit, no registered stream has bytes or an end left. */
  lemma RestedStreamsAreEmpty(s: System, id: int)
    requires Base(s) && NoStall(s) && EnoughCredit(s) && Resting(s) && Live(s, id)
    ensures s.sched.buffers[id].data == [] && !s.sched.buffers[id].complete
  {
    TotalWithout(s.sched.buffers, id);
    assert Starved(s.windows, id, s.sched.buffers[id]);
  }

  lemma RestedEndsAreReleased(s: System, id: int)
    requires Reachable(s) && Base(s) && NoStall(s) && EnoughCredit(s) && Resting(s)
    requires id in s.producers && s.producers[id] == AwaitFinished
    ensures Enabled(s, ResumeStep(id))
  {
    CallersAreReleasedInTime(s, id);
    if Live(s, id) {
      RestedStreamsAreEmpty(s, id);
    }
  }

  lemma RestedProducersHaveSpace(s: System, id: int)
    requires Reachable(s) && Base(s) && NoStall(s) && EnoughCredit(s) && Resting(s)
    requires id in s.producers && s.producers[id] == AwaitSpace
    ensures Enabled(s, ResumeStep(id))
  {
    if Live(s, id) {
      RestedStreamsAreEmpty(s, id);
      LongestIsLongest(s.history, Longest(s.history));
      BuffersAreBounded(s, id, Longest(s.history));
    } else {
      ClosedStreamsFreeTheirApps(s, id);
    }
  }

  lemma RestedAppsGoOn(s: System)
    requires Reachable(s) && Base(s) && EnoughCredit(s) && Alive(s) && Stuck(s)
    ensures NoStall(s) && Resting(s)
    ensures forall id :: id in s.producers && s.producers[id] != Idle ==> Enabled(s, ResumeStep(id))
  {
    NeverStalls(s);
    StuckIsResting(s);
    forall id | id in s.producers && s.producers[id] != Idle
      ensures Enabled(s, ResumeStep(id))
    {
      if s.producers[id] == AwaitFinished {
        RestedEndsAreReleased(s, id);
      } else {
        RestedProducersHaveSpace(s, id);
      }
    }
  }

  /** From every reached state with enough credit and a loop that has not
      stopped: the scheduler takes only so many steps of its own, in whatever
      order and on whatever stream the tree picks; and where it has none left
      every app that waits, for space or for its end to be sent, can go on. */
  lemma EveryAppGoesOn(s: System, steps: seq<Step>, s': System)
    requires Reachable(s) && EnoughCredit(s) && Alive(s) && Run(s, steps, s') && AllOwn(steps)
    ensures |steps| <= StepsLeft(s) && s'.producers == s.producers
    ensures Stuck(s') ==>
              forall id :: id in s'.producers && s'.producers[id] != Idle ==> Enabled(s', ResumeStep(id))
  {
    NeverStalls(s);
    OwnRun(s, steps, s');
    if Stuck(s') {
      RestedAppsGoOn(s');
    }
  }
}
