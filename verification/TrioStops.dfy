/** When a stop of the trio socket writer is for good. */
module TrioStops {
  import opened Common
  import opened ByteSinks
  import opened TrioWriters
  import opened TrioRuns

  lemma StepExtends(x: World, step: Step, x': World)
    requires May(x, step) && x' == Next(x, step)
    ensures Extends(x'.history, x.history)
  {
  }

  lemma {:induction false} ExtendsFurther(h: History, mid: History, past: History)
    requires Extends(h, mid) && Extends(mid, past)
    ensures Extends(h, past)
    decreases h
  {
    if h == mid {
    } else {
      ExtendsFurther(h.past, mid, past);
    }
  }

  lemma {:induction false} RunExtends(start: World, steps: seq<Step>, x: World)
    requires Run(start, steps, x)
    ensures Extends(x.history, start.history)
    decreases |steps|
  {
    if steps == [] {
    } else {
      var mid :| Run(start, Front(steps), mid) && May(mid, Last(steps)) && x == Next(mid, Last(steps));
      RunExtends(start, Front(steps), mid);
      StepExtends(mid, Last(steps), x);
      ExtendsFurther(x.history, mid.history, start.history);
    }
  }

  lemma {:induction false} RunGoesOn(start: World, steps: seq<Step>, x: World, more: seq<Step>, x': World)
    requires Run(start, steps, x) && Run(x, more, x')
    ensures Run(start, steps + more, x')
    decreases |more|
  {
    if more == [] {
      assert steps + more == steps;
    } else {
      var mid :| Run(x, Front(more), mid) && May(mid, Last(more)) && x' == Next(mid, Last(more));
      RunGoesOn(start, steps, x, Front(more), mid);
      RunSnoc(start, steps + Front(more), mid, Last(more));
      assert steps + more == (steps + Front(more)) + [Last(more)];
    }
  }

  /** The call `call` has just come back normally from a stop that did not find
      the writer started. */
  predicate JustStoppedUnstarted(x: World, call: int)
  {
    && x.history.Then? && x.history.obs == Returned(call)
    && IsStop(x.history, call) && !FoundOpen(x.history, call)
  }

  lemma WaitersFoundOpen(x: World, n: int)
    requires TasksFit(x) && n in x.tasks && !x.tasks[n].call.Sending?
    ensures FoundOpen(x.history, n)
  {
    assert TaskFits(x, n, x.tasks[n]);
  }

  /** A call that was suspended, or looked at a started writer, found it
      started. */
  lemma ReturnsFoundOpen(x: World, step: Step, x': World, call: int)
    requires TasksFit(x) && x.w.started && May(x, step) && x' == Next(x, step) && x'.history != x.history
    requires x'.history.Then? && x'.history.obs == Returned(call) && IsStop(x'.history, call)
    ensures FoundOpen(x'.history, call)
  {
    if call in x.tasks && !x.tasks[call].call.Sending? {
      WaitersFoundOpen(x, call);
    }
  }

  lemma StaysUnstarted(x: World, step: Step, x': World, call: int)
    requires TasksFit(x) && May(x, step) && x' == Next(x, step) && JustStoppedUnstarted(x', call)
    requires JustStoppedUnstarted(x, call) ==> !x.w.started
    ensures !x'.w.started
  {
    if x.w.started && x'.history != x.history {
      ReturnsFoundOpen(x, step, x', call);
    }
  }

  lemma {:induction false} NobodyStartedIt(highWater: nat, steps: seq<Step>, x: World, call: int)
    requires Run(NewWorld(highWater), steps, x) && JustStoppedUnstarted(x, call)
    ensures !x.w.started
    decreases |steps|
  {
    if steps == [] {
    } else {
      var mid :| Run(NewWorld(highWater), Front(steps), mid) && May(mid, Last(steps))
                 && x == Next(mid, Last(steps));
      RunsAreGood(highWater, Front(steps), mid);
      if JustStoppedUnstarted(mid, call) {
        NobodyStartedIt(highWater, Front(steps), mid, call);
      }
      StaysUnstarted(mid, Last(steps), x, call);
    }
  }

  lemma TasksNeedAStart(x: World)
    requires TasksFit(x)
    ensures forall n :: n in x.tasks ==> x.w.started
  {
    forall n | n in x.tasks
      ensures x.w.started
    {
      assert TaskFits(x, n, x.tasks[n]);
    }
  }

  lemma UnstartedIsFresh(x: World)
    requires Good(x) && !x.w.started
    ensures 0 !in x.tasks && !x.w.closing && x.w.error == None && x.w.buffered == 0
  {
    TasksNeedAStart(x);
    assert Pending(x) == [];
  }

  /** A writer that was not started can be, and then takes bytes. */
  lemma StartsAndAccepts(x: World, data: Bytes) returns (more: seq<Step>, x': World)
    requires 0 !in x.tasks && !x.w.closing && x.w.error == None && x.w.buffered == 0
    requires !x.w.started && data != []
    ensures Run(x, more, x') && more == [StartStep, SendStep(0, data)]
    ensures x'.history == Then(Then(x.history, Opened), Accepted(data))
  {
    var x1 := Next(x, StartStep);
    x' := Next(x1, SendStep(0, data));
    more := [StartStep] + [SendStep(0, data)];
    assert Run(x, [], x);
    RunSnoc(x, [], x, StartStep);
    assert [] + [StartStep] == [StartStep];
    RunSnoc(x, [StartStep], x1, SendStep(0, data));
  }

  /** Nothing is accepted in any continuation. */
  ghost predicate Final(x: World)
  {
    forall more, x' :: Run(x, more, x') ==> Items(x'.history) == Items(x.history)
  }

  /** When a call of `stop` comes back normally, nothing is ever accepted after
      it if and only if it had found the writer started. */
  lemma StopIsFinalIff(highWater: nat, steps: seq<Step>, x: World, call: int)
    requires Run(NewWorld(highWater), steps, x)
    requires x.history.Then? && x.history.obs == Returned(call) && IsStop(x.history, call)
    ensures Final(x) <==> FoundOpen(x.history, call)
  {
    RunsAreGood(highWater, steps, x);
    if FoundOpen(x.history, call) {
      forall more, x' | Run(x, more, x')
        ensures Items(x'.history) == Items(x.history)
      {
        RunGoesOn(NewWorld(highWater), steps, x, more, x');
        RunExtends(x, more, x');
        CallersMayRelyOnIt(highWater, steps + more, x', x.history.past, call);
      }
    } else {
      NobodyStartedIt(highWater, steps, x, call);
      UnstartedIsFresh(x);
      var more, x' := StartsAndAccepts(x, [0]);
      assert Run(x, more, x') && |Items(x'.history)| == |Items(x.history)| + 1;
    }
  }

  /** A stop before the start comes back at once, and the writer goes on to take
      bytes. */
  lemma StopBeforeStart(highWater: nat, data: Bytes) returns (x: World)
    requires data != []
    ensures Run(NewWorld(highWater), [StopStep(1), StartStep, SendStep(0, data)], x)
    ensures x.history == Then(Then(Then(Then(Start, Called(1, true)), Returned(1)), Opened), Accepted(data))
  {
    var x0 := NewWorld(highWater);
    assert Run(x0, [], x0);
    RunSnoc(x0, [], x0, StopStep(1));
    assert [] + [StopStep(1)] == [StopStep(1)];
    var x1 := Next(x0, StopStep(1));
    var more;
    more, x := StartsAndAccepts(x1, data);
    RunGoesOn(x0, [StopStep(1)], x1, more, x);
    assert [StopStep(1)] + more == [StopStep(1), StartStep, SendStep(0, data)];
  }
}
