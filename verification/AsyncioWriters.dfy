/** The asyncio socket writer.  A lock makes its calls follow each other; a call
    that waits for the transport holds it. */
module AsyncioWriters {
  import opened Common
  import opened ByteSinks

  datatype Writer = Writer(buffered: nat, closed: bool, error: Option<int>, highWater: nat)

  /** How a block ends: the call is over, or it waits for the transport. */
  datatype Result = Finished | Flushes | Fails(error: int) | Closed

  /** `send` up to its wait; `fault` is what writing to the transport raised. */
  function SendBlock(w: Writer, data: Bytes, fault: Option<int>): (Writer, Result)
  {
    if data == [] then (w, Finished)
    else if w.error.Some? then (w, Fails(w.error.value))
    else if w.closed then (w, Closed)
    else if fault.Some? then (w.(error := fault), Fails(fault.value))
    else
      var w' := w.(buffered := w.buffered + |data|);
      (w', if w'.buffered >= w.highWater then Flushes else Finished)
  }

  function DrainBlock(w: Writer): Result
  {
    if w.error.Some? then Fails(w.error.value) else if w.buffered > 0 then Flushes else Finished
  }

  function StopBlock(w: Writer): (Writer, Result)
  {
    if w.closed then (w, if w.error.Some? then Fails(w.error.value) else Finished)
    else (w.(closed := true), DrainBlock(w))
  }

  /** The transport is done with what was written, or has raised. */
  function FlushedBlock(w: Writer, fault: Option<int>): Writer
  {
    if fault.Some? then w.(error := fault) else w.(buffered := 0)
  }

  class BufferedWriter {
    const highWater: nat
    var buffered: nat
    var closed: bool
    var error: Option<int>

    ghost function View(): Writer
      reads this
    {
      Writer(buffered, closed, error, highWater)
    }

    constructor (highWater: nat)
      ensures View() == Writer(0, false, None, highWater)
    {
      this.highWater := highWater;
      buffered, closed, error := 0, false, None;
    }

    method Send(data: Bytes, fault: Option<int>) returns (r: Result)
      modifies this
      ensures (View(), r) == SendBlock(old(View()), data, fault)
    {
      if data == [] {
        return Finished;
      }
      if error.Some? {
        return Fails(error.value);
      }
      if closed {
        return Closed;
      }
      if fault.Some? {
        error := fault;
        return Fails(fault.value);
      }
      buffered := buffered + |data|;
      return if buffered >= highWater then Flushes else Finished;
    }

    method Drain() returns (r: Result)
      ensures r == DrainBlock(View())
    {
      if error.Some? {
        return Fails(error.value);
      }
      return if buffered > 0 then Flushes else Finished;
    }

    method Stop() returns (r: Result)
      modifies this
      ensures (View(), r) == StopBlock(old(View()))
    {
      if closed {
        return if error.Some? then Fails(error.value) else Finished;
      }
      closed := true;
      if error.Some? {
        return Fails(error.value);
      }
      return if buffered > 0 then Flushes else Finished;
    }

    method Flushed(fault: Option<int>)
      modifies this
      ensures View() == FlushedBlock(old(View()), fault)
    {
      if fault.Some? {
        error := fault;
      } else {
        buffered := 0;
      }
    }
  }

  /** The call that holds the lock while the transport flushes. */
  datatype Holder = Nobody | Sender(call: int) | Waiter(call: int)

  /** `unsettled` are the bytes written to the transport since it last said that
      it had room again, which is what the model calls taken. */
  datatype World = World(w: Writer, holder: Holder, unsettled: Bytes, history: History)

  datatype Step =
    | SendStep(call: int, data: Bytes, fault: Option<int>)
    | DrainStep(call: int)
    | StopStep(call: int)
    | FlushedStep(fault: Option<int>)

  predicate May(x: World, step: Step)
  {
    step.FlushedStep? <==> x.holder != Nobody
  }

  function Note(x: World, obs: Obs): World { x.(history := Then(x.history, obs)) }

  function DoSend(x: World, n: int, data: Bytes, fault: Option<int>): World
  {
    var (w, r) := SendBlock(x.w, data, fault);
    var x' := x.(w := w, holder := if r == Flushes then Sender(n) else Nobody);
    if data == [] then x'
    else if r == Finished || r == Flushes then
      Note(x', Accepted(data)).(unsettled := x.unsettled + data)
    else if w != x.w then Note(x', Broke)
    else Note(x', Refused)
  }

  function DoWait(x: World, n: int, w: Writer, r: Result): World
  {
    match r
    case Flushes => x.(w := w, holder := Waiter(n))
    case Finished => Note(x.(w := w), Returned(n))
    case _ => Note(x.(w := w), Raised(n))
  }

  function DoFlushed(x: World, fault: Option<int>): World
  {
    var x1 := x.(w := FlushedBlock(x.w, fault), holder := Nobody);
    if fault.Some? then
      var x2 := Note(x1, Broke);
      if x.holder.Waiter? then Note(x2, Raised(x.holder.call)) else x2
    else
      var x2 := Note(x1, Wrote(x.unsettled)).(unsettled := []);
      if x.holder.Waiter? then Note(x2, Returned(x.holder.call)) else x2
  }

  function Next(x: World, step: Step): World
  {
    match step
    case SendStep(n, data, fault) => DoSend(x, n, data, fault)
    case DrainStep(n) => DoWait(Note(x, Called(n, false)), n, x.w, DrainBlock(x.w))
    case StopStep(n) => DoWait(Note(x, Called(n, true)), n, StopBlock(x.w).0, StopBlock(x.w).1)
    case FlushedStep(fault) => DoFlushed(x, fault)
  }

  ghost predicate Run(start: World, steps: seq<Step>, x: World)
    decreases |steps|
  {
    if steps == [] then x == start
    else exists mid :: Run(start, Front(steps), mid) && May(mid, Last(steps)) && x == Next(mid, Last(steps))
  }

  /** This writer needs no start. */
  function NewWorld(highWater: nat): World
  {
    World(Writer(0, false, None, highWater), Nobody, [], Then(Start, Opened))
  }

  predicate Good(x: World)
  {
    && Faithful(x.history) && OpenIn(x.history)
    && Concat(Items(x.history)) == Written(x.history) + x.unsettled
    && (x.w.closed <==> StopIn(x.history))
    && (x.w.error.Some? <==> BrokeIn(x.history))
    && (x.w.error.Some? ==> x.holder == Nobody)
    && (x.w.error == None ==> x.w.buffered == |x.unsettled|)
    && (x.holder == Nobody && x.w.error == None ==>
          (x.w.buffered < x.w.highWater || x.w.buffered == 0) && (x.w.closed ==> x.w.buffered == 0))
  }

  lemma AcceptKeeps(x: World, data: Bytes, x': World)
    requires Good(x) && x.holder == Nobody && data != [] && x.w.error == None && !x.w.closed
    requires x'.history == Then(x.history, Accepted(data)) && x'.unsettled == x.unsettled + data
    requires x'.w == x.w.(buffered := x.w.buffered + |data|)
    requires x'.holder == Nobody ==> x'.w.buffered < x.w.highWater
    ensures Good(x')
  {
    ConcatSnoc(Items(x.history), data);
    AppendAssoc(Written(x.history), x.unsettled, data);
  }

  lemma SendKeeps(x: World, n: int, data: Bytes, fault: Option<int>)
    requires Good(x) && x.holder == Nobody
    ensures Good(DoSend(x, n, data, fault))
  {
    if data != [] && x.w.error == None && !x.w.closed && fault == None {
      AcceptKeeps(x, data, DoSend(x, n, data, fault));
    }
  }

  lemma PrefixCovered(x: World, n: int)
    requires Good(x) && x.unsettled == []
    ensures Allowed(x.history, Returned(n))
  {
    ItemsAtArePrefix(x.history, n);
    ConcatOfPrefix(ItemsAt(x.history, n), Items(x.history));
  }

  lemma DrainKeeps(x: World, n: int)
    requires Good(x) && x.holder == Nobody
    ensures Good(Next(x, DrainStep(n)))
  {
    var x1 := Note(x, Called(n, false));
    if x.unsettled == [] {
      PrefixCovered(x1, n);
    }
  }

  lemma StopKeeps(x: World, n: int)
    requires Good(x) && x.holder == Nobody
    ensures Good(Next(x, StopStep(n)))
  {
    var x1 := Note(x, Called(n, true)).(w := x.w.(closed := true));
    if x.unsettled == [] {
      PrefixCovered(x1, n);
    }
  }

  lemma FlushedKeeps(x: World, fault: Option<int>)
    requires Good(x) && x.holder != Nobody
    ensures Good(DoFlushed(x, fault))
  {
    if fault == None {
      var x1 := Note(x, Wrote(x.unsettled)).(w := x.w.(buffered := 0), unsettled := [], holder := Nobody);
      PrefixCovered(x1, if x.holder.Waiter? then x.holder.call else 0);
    }
  }

  lemma Keep(x: World, step: Step)
    requires Good(x) && May(x, step)
    ensures Good(Next(x, step))
  {
    match step
    case SendStep(n, data, fault) => SendKeeps(x, n, data, fault);
    case DrainStep(n) => DrainKeeps(x, n);
    case StopStep(n) => StopKeeps(x, n);
    case FlushedStep(fault) => FlushedKeeps(x, fault);
  }

  lemma HighWaterStays(x: World, step: Step)
    ensures Next(x, step).w.highWater == x.w.highWater
  {
  }

  lemma {:induction false} RunsAreGood(highWater: nat, steps: seq<Step>, x: World)
    requires Run(NewWorld(highWater), steps, x)
    ensures Good(x) && x.w.highWater == highWater
    decreases |steps|
  {
    if steps == [] {
    } else {
      var mid :| Run(NewWorld(highWater), Front(steps), mid) && May(mid, Last(steps))
                 && x == Next(mid, Last(steps));
      RunsAreGood(highWater, Front(steps), mid);
      Keep(mid, Last(steps));
      HighWaterStays(mid, Last(steps));
    }
  }

  /** Over every run the writer is a faithful sink; without an error it owes the
      transport exactly the bytes it counts, fewer than the high-water mark
      whenever no call holds the lock. */
  lemma WriterIsASink(highWater: nat, steps: seq<Step>, x: World)
    requires Run(NewWorld(highWater), steps, x)
    ensures Faithful(x.history)
    ensures Concat(Items(x.history)) == Written(x.history) + x.unsettled
    ensures x.w.error == None ==> x.w.buffered == |x.unsettled|
    ensures x.w.error == None && x.holder == Nobody && highWater > 0 ==> x.w.buffered < highWater
  {
    RunsAreGood(highWater, steps, x);
  }

  /** Over every run: what is written is the first of what was accepted, and
      every call that came back normally, `drain` or `stop`, has kept its word. */
  lemma CallersMayRelyOnIt(highWater: nat, steps: seq<Step>, x: World, past: History, call: int)
    requires Run(NewWorld(highWater), steps, x)
    ensures Written(x.history) <= Concat(Items(x.history))
    ensures Extends(x.history, Then(past, Returned(call))) ==> WordKept(x.history, past, call)
  {
    WriterIsASink(highWater, steps, x);
    WrittenIsAPrefix(x.history);
    if Extends(x.history, Then(past, Returned(call))) {
      WordIsKept(x.history, past, call);
    }
  }

  /** Over every run: bytes sent to a writer that is neither stopped nor broken
      are accepted, and the call comes back without waiting for the transport if
      and only if fewer bytes than the high-water mark are then unsettled. */
  lemma SendWaitsIffMarkReached(highWater: nat, steps: seq<Step>, x: World, n: int, data: Bytes)
    requires Run(NewWorld(highWater), steps, x) && x.holder == Nobody && data != []
    ensures var x' := Next(x, SendStep(n, data, None));
            if StopIn(x.history) || BrokeIn(x.history) then x' == Note(x, Refused)
            else
              && x'.history == Then(x.history, Accepted(data)) && x'.unsettled == x.unsettled + data
              && x'.holder == if |x.unsettled| + |data| < highWater then Nobody else Sender(n)
  {
    RunsAreGood(highWater, steps, x);
  }

  /** Over every run: `drain`, and the first `stop`, wait for the transport if and
      only if some bytes are unsettled; a later `stop` never does. */
  lemma DrainWaitsIffUnsettled(highWater: nat, steps: seq<Step>, x: World, n: int)
    requires Run(NewWorld(highWater), steps, x) && x.holder == Nobody
    ensures var x1, x' := Note(x, Called(n, false)), Next(x, DrainStep(n));
            if BrokeIn(x.history) then x' == Note(x1, Raised(n))
            else if x.unsettled == [] then x' == Note(x1, Returned(n))
            else x' == x1.(holder := Waiter(n))
    ensures var h1, x' := Then(x.history, Called(n, true)), Next(x, StopStep(n));
            if BrokeIn(x.history) then x'.history == Then(h1, Raised(n)) && x'.holder == Nobody
            else if x.unsettled == [] || StopIn(x.history) then
              x'.history == Then(h1, Returned(n)) && x'.holder == Nobody
            else x'.history == h1 && x'.holder == Waiter(n)
  {
    RunsAreGood(highWater, steps, x);
  }

  /** What the transport raised in a step. */
  function FaultOf(step: Step): Option<int>
  {
    match step
    case SendStep(_, _, fault) => fault
    case FlushedStep(fault) => fault
    case _ => None
  }

  /** The writer breaks only when its transport raises, with the transport's own
      error, and keeps that error ever after. */
  lemma ErrorIsTheTransports(x: World, step: Step)
    requires Good(x) && May(x, step)
    ensures var x' := Next(x, step);
            if BrokeIn(x.history) then x'.w.error == x.w.error && BrokeIn(x'.history)
            else if BrokeIn(x'.history) then FaultOf(step).Some? && x'.w.error == FaultOf(step)
            else x'.w.error == None
    ensures step.FlushedStep? && step.fault.Some? ==> BrokeIn(Next(x, step).history)
  {
    match step
    case SendStep(n, data, fault) =>
    case DrainStep(n) =>
      assert BrokeIn(Next(x, step).history) <==> BrokeIn(x.history);
    case StopStep(n) =>
      assert BrokeIn(Next(x, step).history) <==> BrokeIn(x.history);
    case FlushedStep(fault) =>
      assert BrokeIn(Next(x, step).history) <==> BrokeIn(x.history) || fault.Some?;
  }

  /** Over every run: a broken writer raises the error it keeps from `send` and
      from `drain` and `stop`, whether or not it was stopped; a stopped one
      refuses bytes as closed; and a `send` that finds neither raises what the
      transport raises, which breaks the writer. */
  lemma CallsRaiseTheError(highWater: nat, steps: seq<Step>, x: World, data: Bytes, fault: Option<int>)
    requires Run(NewWorld(highWater), steps, x) && data != []
    ensures var (w, r) := SendBlock(x.w, data, fault);
            if x.w.error.Some? then w == x.w && r == Fails(x.w.error.value)
            else if StopIn(x.history) then w == x.w && r == Closed
            else if fault.Some? then w.error == fault && r == Fails(fault.value)
            else w.error == None && (r == Flushes || r == Finished)
    ensures BrokeIn(x.history) ==>
              && x.w.error.Some? && DrainBlock(x.w) == Fails(x.w.error.value)
              && StopBlock(x.w).1 == Fails(x.w.error.value)
  {
    RunsAreGood(highWater, steps, x);
  }
}
