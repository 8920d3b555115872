/** What the calls of the trio socket writer raise, over every run: the error
    its transport raised, once. */
module TrioErrors {
  import opened Common
  import opened ByteSinks
  import opened TrioWriters
  import opened TrioRuns

  /** The last error the transport raised in the steps. */
  function FaultOf(steps: seq<Step>): Option<int>
  {
    if steps == [] then None
    else if Last(steps).WriteStep? && Last(steps).fault.Some? then Last(steps).fault
    else FaultOf(Front(steps))
  }

  /** The error is on its way to the writer, or recorded in it. */
  predicate ErrorKnown(x: World, fault: Option<int>)
  {
    && (x.runner.Raising? ==> fault == Some(x.runner.error))
    && (x.w.error.Some? ==> fault == x.w.error)
    && (fault.Some? ==> x.runner.Raising? || x.w.error.Some?)
  }

  lemma StepKnows(x: World, step: Step, x': World, fault: Option<int>)
    requires Shape(x) && ErrorKnown(x, fault) && May(x, step) && x' == Next(x, step)
    ensures ErrorKnown(x', if step.WriteStep? && step.fault.Some? then step.fault else fault)
  {
  }

  lemma {:induction false} RunsKnow(highWater: nat, steps: seq<Step>, x: World)
    requires Run(NewWorld(highWater), steps, x)
    ensures Good(x) && ErrorKnown(x, FaultOf(steps))
    decreases |steps|
  {
    if steps == [] {
      RunsAreGood(highWater, steps, x);
    } else {
      var mid :| Run(NewWorld(highWater), Front(steps), mid) && May(mid, Last(steps))
                 && x == Next(mid, Last(steps));
      RunsKnow(highWater, Front(steps), mid);
      StepKnows(mid, Last(steps), x, FaultOf(Front(steps)));
      RunsAreGood(highWater, steps, x);
    }
  }

  /** Over every run: the writer broke if and only if its transport raised and
      the handler of `run` has been reached, and it keeps that very error.  A
      `send` of bytes then raises it; a writer that is not started, or stopped,
      refuses them as closed; any other takes them or lets the call wait. */
  lemma SendsRaiseTheTransportsError(highWater: nat, steps: seq<Step>, x: World, data: Bytes)
    requires Run(NewWorld(highWater), steps, x) && data != []
    ensures BrokeIn(x.history) <==> FaultOf(steps).Some? && x.runner == Done
    ensures var r := SendBlock(x.w, data).1;
            if BrokeIn(x.history) then r == SendFails(FaultOf(steps).value)
            else if StopIn(x.history) || !OpenIn(x.history) then r == SendClosed
            else r == SendDone || r == SendWaits
  {
    RunsKnow(highWater, steps, x);
  }
}
