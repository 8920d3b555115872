/** The trio socket writer over whole runs: any number of tasks in `send`,
    `drain` and `stop`, `run`'s task, and any interleaving of their blocks
    under the condition. */
module TrioRuns {
  import opened Common
  import opened ByteSinks
  import opened TrioWriters

  datatype Call =
    | Sending(data: Bytes)
    | Draining(target: nat)
    | Stopping(target: nat)
    | Joining

  /** A task suspended in a call; `woken` once it was notified. */
  datatype Task = Task(call: Call, woken: bool)

  datatype Runner =
    | Unstarted
    | Awaiting
    | Ready
    | Writing(batch: seq<Entry>)
    | Sent(batch: seq<Entry>)
    | Raising(batch: seq<Entry>, error: int)
    | Done

  datatype World = World(w: Writer, tasks: map<int, Task>, runner: Runner, history: History)

  datatype Step =
    | StartStep
    | SendStep(call: int, data: Bytes)
    | DrainStep(call: int)
    | StopStep(call: int)
    | AgainStep(call: int)
    | JoinStep(call: int)
    | AwakeStep
    | TakeStep
    | WriteStep(fault: Option<int>)
    | FinishStep
    | FailStep

  function NewWorld(highWater: nat): World
  {
    World(NewWriter(highWater), map[], Unstarted, Start)
  }

  predicate May(x: World, step: Step)
  {
    match step
    case StartStep => true
    case SendStep(n, _) => n !in x.tasks
    case DrainStep(n) => n !in x.tasks
    case StopStep(n) => n !in x.tasks
    case AgainStep(n) => n in x.tasks && x.tasks[n].woken && x.tasks[n].call != Joining
    case JoinStep(n) => n in x.tasks && x.tasks[n].call == Joining && x.w.stopped
    case AwakeStep => x.runner == Awaiting && x.w.hasData
    case TakeStep => x.runner == Ready
    case WriteStep(_) => x.runner.Writing?
    case FinishStep => x.runner.Sent? && x.runner.batch != []
    case FailStep => x.runner.Raising?
  }

  function Note(x: World, obs: Obs): World { x.(history := Then(x.history, obs)) }

  function Wait(x: World, n: int, call: Call): World
  {
    x.(tasks := x.tasks[n := Task(call, false)])
  }

  function Drop(x: World, n: int): World { x.(tasks := x.tasks - {n}) }

  function WakeAll(tasks: map<int, Task>): map<int, Task>
  {
    map n | n in tasks :: Task(tasks[n].call, true)
  }

  function DoSend(x: World, n: int, data: Bytes): World
  {
    var (w, r) := SendBlock(x.w, data);
    match r
    case SendSkipped => Drop(x, n)
    case SendDone => Note(Drop(x, n).(w := w), Accepted(data))
    case SendWaits => Wait(x, n, Sending(data))
    case _ => Note(Drop(x, n), Refused)
  }

  /** A call comes back, normally unless the writer has an error. */
  function Return(x: World, n: int): World
  {
    Note(Drop(x, n), if x.w.error == None then Returned(n) else Raised(n))
  }

  function DoDrain(x: World, n: int, target: nat): World
  {
    if StillWaits(x.w, target) then Wait(x, n, Draining(target)) else Return(x, n)
  }

  function DoStop(x: World, n: int, target: nat): World
  {
    if StillWaits(x.w, target) then Wait(x, n, Stopping(target)) else Wait(x, n, Joining)
  }

  function DoTake(x: World): World
  {
    var (w, turn) := TakeBlock(x.w);
    match turn
    case Leave => x.(w := w.(stopped := true), runner := Done)
    case Again => x.(w := w, runner := Awaiting)
    case Write(batch) => x.(w := w, runner := Writing(batch))
  }

  function DoAgain(x: World, n: int): World
    requires n in x.tasks
  {
    match x.tasks[n].call
    case Sending(data) => DoSend(x, n, data)
    case Draining(target) => DoDrain(x, n, target)
    case Stopping(target) => DoStop(x, n, target)
    case Joining => x
  }

  function Next(x: World, step: Step): World
    requires May(x, step)
  {
    match step
    case StartStep =>
      if x.w.started then x else Note(x, Opened).(w := x.w.(started := true), runner := Awaiting)
    case SendStep(n, data) => DoSend(x, n, data)
    case DrainStep(n) =>
      var x1 := Note(x, Called(n, false));
      if !x.w.started then Note(x1, Returned(n)) else DoDrain(x1, n, x.w.submitted)
    case StopStep(n) =>
      if !x.w.started then Note(Note(x, Called(n, true)), Returned(n))
      else DoStop(Note(x, Called(n, true)).(w := x.w.(closing := true, hasData := true)), n, x.w.submitted)
    case AgainStep(n) => DoAgain(x, n)
    case JoinStep(n) => Return(x, n)
    case AwakeStep => x.(runner := Ready)
    case TakeStep => DoTake(x)
    case WriteStep(fault) =>
      var batch := x.runner.batch;
      if fault.Some? then x.(runner := Raising(batch, fault.value))
      else Note(x, Wrote(Concat(DatasOf(batch)))).(runner := Sent(batch))
    case FinishStep =>
      x.(w := Finished(x.w, x.runner.batch), tasks := WakeAll(x.tasks), runner := Awaiting)
    case FailStep =>
      Note(x, Broke).(w := Failed(x.w, x.runner.error).(stopped := true), tasks := WakeAll(x.tasks),
                      runner := Done)
  }

  ghost predicate Run(start: World, steps: seq<Step>, x: World)
    decreases |steps|
  {
    if steps == [] then x == start
    else exists mid :: Run(start, Front(steps), mid) && May(mid, Last(steps)) && x == Next(mid, Last(steps))
  }

  function InFlight(r: Runner): seq<Entry>
  {
    if r.Writing? || r.Sent? || r.Raising? then r.batch else []
  }

  /** Everything accepted and not completed. */
  function Pending(x: World): seq<Entry> { InFlight(x.runner) + x.w.queue }

  /** How many of the pending items are already written. */
  function SentCount(r: Runner): nat { if r.Sent? then |r.batch| else 0 }

  predicate Numbered(entries: seq<Entry>, from: nat)
  {
    forall i :: 0 <= i < |entries| ==> entries[i].number == from + i + 1 && entries[i].data != []
  }

  /** The accepted items are the completed ones and the pending ones; `sent`
      of the pending ones are written too. */
  predicate Accounts(w: Writer, pending: seq<Entry>, items: seq<Bytes>, sent: nat, written: Bytes)
  {
    && w.submitted == |items| && w.completed + |pending| == |items|
    && DatasOf(pending) == items[w.completed..] && Numbered(pending, w.completed)
    && w.buffered == |Concat(DatasOf(pending))|
    && sent <= |pending| && written == Concat(items[..w.completed + sent])
  }

  predicate Accounted(x: World)
  {
    Accounts(x.w, Pending(x), Items(x.history), SentCount(x.runner), Written(x.history))
  }

  /** At most the high-water mark, unless one item alone is pending. */
  predicate Bounded(x: World)
  {
    x.w.buffered <= x.w.highWater || |Pending(x)| == 1
  }

  predicate Shape(x: World)
  {
    && (x.runner == Unstarted <==> !x.w.started)
    && (x.runner == Done <==> x.w.stopped)
    && (x.w.started <==> OpenIn(x.history))
    && (!x.w.started ==> Items(x.history) == [] && !x.w.closing)
    && (InFlight(x.runner) == [] <==> !(x.runner.Writing? || x.runner.Sent? || x.runner.Raising?))
    && (x.w.closing <==> StopIn(x.history))
    && (x.w.error.Some? <==> BrokeIn(x.history))
    && (x.w.error.Some? ==> x.runner == Done)
    && (x.runner == Done && x.w.error == None ==> x.w.closing && x.w.queue == [])
    && (x.w.queue != [] ==> x.w.hasData)
    && (x.w.hasData ==> x.w.queue != [] || x.w.closing || x.runner == Done)
    && (x.w.closing && x.runner == Awaiting ==> x.w.hasData)
  }

  predicate Emptied(x: World)
  {
    && x.w.queue == [] && x.w.buffered == 0 && x.w.completed == x.w.submitted == |Items(x.history)|
    && Written(x.history) <= Concat(Items(x.history))
  }

  /** What a suspended task knows: it is stuck in no case where a notification
      could have been missed. */
  predicate TaskFits(x: World, n: int, t: Task)
  {
    x.w.started &&
    match t.call
    case Sending(data) => data != [] && (t.woken || (Full(x.w, data) && x.w.error == None))
    case Draining(target) =>
      && target == |ItemsAt(x.history, n)| && target <= x.w.submitted
      && !IsStop(x.history, n) && FoundOpen(x.history, n) && (t.woken || StillWaits(x.w, target))
    case Stopping(target) =>
      && target == |ItemsAt(x.history, n)| && target <= x.w.submitted
      && x.w.closing && FoundOpen(x.history, n) && (t.woken || StillWaits(x.w, target))
    case Joining => x.w.closing && FoundOpen(x.history, n)
  }

  predicate TasksFit(x: World)
  {
    forall n :: n in x.tasks ==> TaskFits(x, n, x.tasks[n])
  }

  predicate Good(x: World)
  {
    && Shape(x) && TasksFit(x) && Faithful(x.history)
    && if x.w.error == None then Accounted(x) && Bounded(x) else Emptied(x)
  }

  lemma AcceptAccounts(w: Writer, pending: seq<Entry>, items: seq<Bytes>, sent: nat, written: Bytes, data: Bytes)
    requires Accounts(w, pending, items, sent, written) && data != []
    ensures Accounts(Enqueued(w, data), pending + [Entry(w.submitted + 1, data)], items + [data], sent, written)
  {
    DatasSnoc(pending, Entry(w.submitted + 1, data));
    ConcatSnoc(DatasOf(pending), data);
    assert (items + [data])[w.completed..] == items[w.completed..] + [data];
    assert (items + [data])[..w.completed + sent] == items[..w.completed + sent];
  }

  lemma AcceptAccounted(x: World, n: int, data: Bytes, x': World)
    requires Accounted(x) && Bounded(x) && data != [] && !Full(x.w, data)
    requires x' == Note(Drop(x, n).(w := Enqueued(x.w, data)), Accepted(data))
    ensures Accounted(x') && Bounded(x')
  {
    AcceptAccounts(x.w, Pending(x), Items(x.history), SentCount(x.runner), Written(x.history), data);
    assert Pending(x') == Pending(x) + [Entry(x.w.submitted + 1, data)];
    if Pending(x) != [] {
      SomethingBuffered(Pending(x), x.w.completed);
    }
  }

  lemma SomethingBuffered(entries: seq<Entry>, from: nat)
    requires Numbered(entries, from) && entries != []
    ensures Concat(DatasOf(entries)) != []
  {
    assert entries[0].data != [];
  }

  lemma AcceptTasks(x: World, n: int, data: Bytes, x': World)
    requires TasksFit(x) && data != []
    requires x' == Note(Drop(x, n).(w := Enqueued(x.w, data)), Accepted(data))
    ensures TasksFit(x')
  {
  }

  lemma AcceptKeeps(x: World, n: int, data: Bytes)
    requires Good(x) && SendBlock(x.w, data).1 == SendDone
    ensures Good(DoSend(x, n, data))
  {
    var x' := DoSend(x, n, data);
    AcceptAccounted(x, n, data, x');
    AcceptTasks(x, n, data, x');
  }

  /** A step that moves no data keeps the accounts. */
  lemma SameAccounts(x: World, x': World)
    requires Accounted(x) && Bounded(x)
    requires Pending(x') == Pending(x) && SentCount(x'.runner) == SentCount(x.runner)
    requires x'.w.submitted == x.w.submitted && x'.w.completed == x.w.completed
    requires x'.w.buffered == x.w.buffered && x'.w.highWater == x.w.highWater
    requires Items(x'.history) == Items(x.history) && Written(x'.history) == Written(x.history)
    ensures Accounted(x') && Bounded(x')
  {
  }

  lemma CoveredByWritten(x: World, n: int)
    requires Accounted(x) && |ItemsAt(x.history, n)| <= x.w.completed
    ensures Concat(ItemsAt(x.history, n)) <= Written(x.history)
  {
    ItemsAtArePrefix(x.history, n);
    ConcatOfPrefix(ItemsAt(x.history, n), Items(x.history)[..x.w.completed + SentCount(x.runner)]);
  }

  lemma ReturnKeeps(x: World, n: int)
    requires Good(x) && Allowed(x.history, if x.w.error == None then Returned(n) else Raised(n))
    ensures Good(Return(x, n))
  {
    if x.w.error == None {
      SameAccounts(x, Return(x, n));
    }
  }

  lemma WaitTasks(x: World, n: int, call: Call, x': World)
    requires TasksFit(x) && TaskFits(x, n, Task(call, false)) && x' == Wait(x, n, call)
    ensures TasksFit(x')
  {
    forall m | m in x'.tasks ensures TaskFits(x', m, x'.tasks[m]) {
      assert m != n ==> TaskFits(x, m, x.tasks[m]);
    }
  }

  lemma WaitKeeps(x: World, n: int, call: Call)
    requires Good(x) && TaskFits(x, n, Task(call, false))
    ensures Good(Wait(x, n, call))
  {
    WaitTasks(x, n, call, Wait(x, n, call));
    if x.w.error == None {
      SameAccounts(x, Wait(x, n, call));
    }
  }

  lemma SkipTasks(x: World, n: int, x': World)
    requires TasksFit(x) && x' == Drop(x, n)
    ensures TasksFit(x')
  {
    forall m | m in x'.tasks ensures TaskFits(x', m, x'.tasks[m]) {
      assert TaskFits(x, m, x.tasks[m]);
    }
  }

  lemma SkipKeeps(x: World, n: int)
    requires Good(x)
    ensures Good(Drop(x, n))
  {
    SkipTasks(x, n, Drop(x, n));
    if x.w.error == None {
      SameAccounts(x, Drop(x, n));
    }
  }

  lemma RefuseKeeps(x: World, n: int)
    requires Good(x) && Allowed(x.history, Refused)
    ensures Good(Note(Drop(x, n), Refused))
  {
    SkipKeeps(x, n);
    var x1 := Drop(x, n);
    if x.w.error == None {
      SameAccounts(x1, Note(x1, Refused));
    }
  }

  lemma SendKeeps(x: World, n: int, data: Bytes)
    requires Good(x)
    ensures Good(DoSend(x, n, data))
  {
    match SendBlock(x.w, data).1
    case SendDone => AcceptKeeps(x, n, data);
    case SendWaits => WaitKeeps(x, n, Sending(data));
    case SendSkipped => SkipKeeps(x, n);
    case SendClosed => RefuseKeeps(x, n);
    case SendFails(_) => RefuseKeeps(x, n);
  }

  lemma DrainKeeps(x: World, n: int, target: nat)
    requires Good(x) && target == |ItemsAt(x.history, n)| <= x.w.submitted
    requires !IsStop(x.history, n) && FoundOpen(x.history, n) && x.w.started
    ensures Good(DoDrain(x, n, target))
  {
    if StillWaits(x.w, target) {
      WaitKeeps(x, n, Draining(target));
    } else {
      if x.w.error == None {
        CoveredByWritten(x, n);
      }
      ReturnKeeps(x, n);
    }
  }

  lemma StopKeeps(x: World, n: int, target: nat)
    requires Good(x) && target == |ItemsAt(x.history, n)| <= x.w.submitted
    requires FoundOpen(x.history, n) && x.w.started && x.w.closing
    ensures Good(DoStop(x, n, target))
  {
    WaitKeeps(x, n, if StillWaits(x.w, target) then Stopping(target) else Joining);
  }

  lemma JoinKeeps(x: World, n: int)
    requires Good(x) && May(x, JoinStep(n))
    ensures Good(Return(x, n))
  {
    if x.w.error == None {
      assert Pending(x) == [];
      assert Items(x.history)[..x.w.completed] == Items(x.history);
      ItemsAtArePrefix(x.history, n);
      ConcatOfPrefix(ItemsAt(x.history, n), Items(x.history));
    }
    ReturnKeeps(x, n);
  }

  lemma CalledTasks(x: World, n: int, stop: bool, x': World)
    requires TasksFit(x) && n !in x.tasks && x'.tasks == x.tasks && x'.history == Then(x.history, Called(n, stop))
    requires x'.w == x.w || x'.w == x.w.(closing := true, hasData := true)
    ensures TasksFit(x')
  {
    forall m | m in x.tasks ensures TaskFits(x', m, x.tasks[m]) {
      assert TaskFits(x, m, x.tasks[m]);
    }
  }

  lemma CalledShape(x: World, n: int, stop: bool, x': World)
    requires Shape(x)
    requires x' == if stop && x.w.started then Note(x, Called(n, true)).(w := x.w.(closing := true, hasData := true))
                   else Note(x, Called(n, stop))
    ensures Shape(x')
  {
    assert StopIn(x'.history) <==> (stop && x.w.started) || StopIn(x.history);
    assert InFlight(x'.runner) == InFlight(x.runner);
  }

  lemma CalledLooks(x: World, n: int, stop: bool, x': World)
    requires Shape(x) && x'.history == Then(x.history, Called(n, stop))
    ensures ItemsAt(x'.history, n) == Items(x.history) && IsStop(x'.history, n) == stop
    ensures FoundOpen(x'.history, n) == x.w.started
  {
  }

  lemma CalledKeeps(x: World, n: int, stop: bool, x': World)
    requires Good(x) && n !in x.tasks
    requires x' == if stop && x.w.started then Note(x, Called(n, true)).(w := x.w.(closing := true, hasData := true))
                   else Note(x, Called(n, stop))
    ensures Good(x') && ItemsAt(x'.history, n) == Items(x.history) && IsStop(x'.history, n) == stop
    ensures FoundOpen(x'.history, n) == x.w.started
  {
    CalledTasks(x, n, stop, x');
    CalledShape(x, n, stop, x');
    CalledLooks(x, n, stop, x');
    if x.w.error == None {
      SameAccounts(x, x');
    }
  }

  lemma AgainKeeps(x: World, n: int)
    requires Good(x) && May(x, AgainStep(n))
    ensures Good(DoAgain(x, n))
  {
    match x.tasks[n].call
    case Sending(data) => SendKeeps(x, n, data);
    case Draining(target) => DrainKeeps(x, n, target);
    case Stopping(target) => StopKeeps(x, n, target);
    case Joining =>
  }

  /** A step of the runner that completes and writes nothing. */
  lemma QuietKeeps(x: World, x': World)
    requires Good(x) && x.w.error == None && Shape(x') && Pending(x') == Pending(x)
    requires x'.history == x.history && x'.tasks == x.tasks && SentCount(x'.runner) == SentCount(x.runner)
    requires x'.w == x.w.(started := x'.w.started, stopped := x'.w.stopped, hasData := x'.w.hasData,
                          queue := x'.w.queue)
    ensures Good(x')
  {
    SameAccounts(x, x');
  }

  lemma StartKeeps(x: World, x': World)
    requires Good(x) && !x.w.started
    requires x' == Note(x, Opened).(w := x.w.(started := true), runner := Awaiting)
    ensures Good(x')
  {
    if x.w.error == None {
      SameAccounts(x, x');
    }
  }

  lemma AwakeKeeps(x: World)
    requires Good(x) && May(x, AwakeStep)
    ensures Good(x.(runner := Ready))
  {
    QuietKeeps(x, x.(runner := Ready));
  }

  lemma TakeKeeps(x: World, batch: seq<Entry>, x': World)
    requires Good(x) && May(x, TakeStep) && batch == x.w.queue != []
    requires x' == x.(w := x.w.(queue := [], hasData := false), runner := Writing(batch))
    ensures Good(x')
  {
    assert Pending(x') == batch == Pending(x);
    QuietKeeps(x, x');
  }

  lemma LookAgainKeeps(x: World, x': World)
    requires Good(x) && May(x, TakeStep) && x.w.queue == []
    requires x' == if x.w.closing then x.(w := x.w.(hasData := false, stopped := true), runner := Done)
                   else x.(w := x.w.(hasData := false), runner := Awaiting)
    ensures Good(x')
  {
    QuietKeeps(x, x');
  }

  lemma TurnKeeps(x: World)
    requires Good(x) && May(x, TakeStep)
    ensures Good(DoTake(x))
  {
    if x.w.queue != [] {
      TakeKeeps(x, x.w.queue, DoTake(x));
    } else {
      LookAgainKeeps(x, DoTake(x));
    }
  }

  lemma TakeMore(items: seq<Bytes>, k: nat, n: nat)
    requires k + n <= |items|
    ensures Concat(items[..k]) + Concat(items[k..k + n]) == Concat(items[..k + n]) <= Concat(items)
  {
    assert items[..k + n] == items[..k] + items[k..k + n];
    ConcatAppend(items[..k], items[k..k + n]);
    ConcatOfPrefix(items[..k + n], items);
  }

  /** Moving the written part on. */
  lemma WriteAccounts(w: Writer, batch: seq<Entry>, queue: seq<Entry>, items: seq<Bytes>, written: Bytes)
    requires Accounts(w, batch + queue, items, 0, written)
    ensures Accounts(w, batch + queue, items, |batch|, written + Concat(DatasOf(batch)))
    ensures written + Concat(DatasOf(batch)) <= Concat(items)
  {
    BatchIsNext(w, batch, queue, items);
    TakeMore(items, w.completed, |batch|);
  }

  lemma {:induction false} DatasLength(entries: seq<Entry>)
    ensures |DatasOf(entries)| == |entries|
    decreases |entries|
  {
    if entries == [] {
    } else {
      DatasLength(entries[1..]);
    }
  }

  lemma BatchIsNext(w: Writer, batch: seq<Entry>, queue: seq<Entry>, items: seq<Bytes>)
    requires w.completed + |batch + queue| == |items| && DatasOf(batch + queue) == items[w.completed..]
    ensures DatasOf(batch) == items[w.completed..w.completed + |batch|]
    ensures DatasOf(queue) == items[w.completed + |batch|..]
  {
    var k, n := w.completed, |batch|;
    DatasAppend(batch, queue);
    DatasLength(batch);
    assert items[k..][..n] == items[k..k + n] && items[k..][n..] == items[k + n..];
  }

  lemma FinishAccounts(w: Writer, batch: seq<Entry>, queue: seq<Entry>, items: seq<Bytes>, written: Bytes)
    requires Accounts(w, batch + queue, items, |batch|, written) && batch != []
    ensures Accounts(Finished(w, batch), queue, items, 0, written)
    ensures 0 <= Finished(w, batch).buffered < w.buffered
  {
    BatchIsNext(w, batch, queue, items);
    DatasAppend(batch, queue);
    ConcatAppend(DatasOf(batch), DatasOf(queue));
    var k := |batch|;
    assert (batch + queue)[k - 1] == batch[k - 1];
    assert forall i :: 0 <= i < |queue| ==> (batch + queue)[k + i] == queue[i];
    assert Numbered(batch, w.completed) by {
      assert forall i :: 0 <= i < k ==> (batch + queue)[i] == batch[i];
    }
    SomethingBuffered(batch, w.completed);
  }

  lemma WriteKeeps(x: World, x': World)
    requires Good(x) && May(x, WriteStep(None))
    requires x' == Note(x, Wrote(Concat(DatasOf(x.runner.batch)))).(runner := Sent(x.runner.batch))
    ensures Good(x')
  {
    WriteAccounts(x.w, x.runner.batch, x.w.queue, Items(x.history), Written(x.history));
  }

  lemma RaiseKeeps(x: World, error: int)
    requires Good(x) && x.runner.Writing?
    ensures Good(x.(runner := Raising(x.runner.batch, error)))
  {
    QuietKeeps(x, x.(runner := Raising(x.runner.batch, error)));
  }

  /** Waking every task keeps them: a woken task looks again for itself. */
  lemma WokenFit(x: World, x': World)
    requires TasksFit(x) && x'.tasks == WakeAll(x.tasks) && x'.w.closing == x.w.closing
    requires x'.w.submitted == x.w.submitted && x'.w.started == x.w.started
    requires x'.history == x.history || x'.history == Then(x.history, Broke)
    ensures TasksFit(x')
  {
    forall n | n in x'.tasks ensures TaskFits(x', n, x'.tasks[n]) {
      assert TaskFits(x, n, x.tasks[n]);
    }
  }

  lemma FinishKeeps(x: World, x': World)
    requires Good(x) && May(x, FinishStep) && x' == Next(x, FinishStep)
    ensures Good(x')
  {
    FinishAccounts(x.w, x.runner.batch, x.w.queue, Items(x.history), Written(x.history));
    assert Pending(x') == x.w.queue;
    WokenFit(x, x');
  }

  lemma FailKeeps(x: World, x': World)
    requires Good(x) && May(x, FailStep) && x' == Next(x, FailStep)
    ensures Good(x')
  {
    ConcatOfPrefix(Items(x.history)[..x.w.completed], Items(x.history));
    WokenFit(x, x');
  }

  /** A writer that was not started has nothing to wait for. */
  lemma NotStartedReturns(x: World, n: int)
    requires Good(x) && !x.w.started
    ensures Good(Note(x, Returned(n)))
  {
    ItemsAtArePrefix(x.history, n);
    ReturnKeeps(x, n);
    assert Drop(x, n) == x;
  }

  lemma CallKeeps(x: World, step: Step)
    requires Good(x) && May(x, step) && (step.SendStep? || step.DrainStep? || step.StopStep?)
    ensures Good(Next(x, step))
  {
    match step
    case SendStep(n, data) => SendKeeps(x, n, data);
    case DrainStep(n) =>
      var x1 := Note(x, Called(n, false));
      CalledKeeps(x, n, false, x1);
      if x.w.started {
        DrainKeeps(x1, n, x.w.submitted);
      } else {
        NotStartedReturns(x1, n);
      }
    case StopStep(n) =>
      if x.w.started {
        var x1 := Note(x, Called(n, true)).(w := x.w.(closing := true, hasData := true));
        CalledKeeps(x, n, true, x1);
        StopKeeps(x1, n, x.w.submitted);
      } else {
        CalledKeeps(x, n, true, Note(x, Called(n, true)));
        NotStartedReturns(Note(x, Called(n, true)), n);
      }
  }

  lemma Keep(x: World, step: Step)
    requires Good(x) && May(x, step)
    ensures Good(Next(x, step))
  {
    match step
    case StartStep =>
      if !x.w.started {
        StartKeeps(x, Next(x, step));
      }
    case AgainStep(n) => AgainKeeps(x, n);
    case JoinStep(n) => JoinKeeps(x, n);
    case AwakeStep => AwakeKeeps(x);
    case TakeStep => TurnKeeps(x);
    case WriteStep(fault) =>
      if fault == None {
        WriteKeeps(x, Next(x, step));
      } else {
        RaiseKeeps(x, fault.value);
      }
    case FinishStep => FinishKeeps(x, Next(x, step));
    case FailStep => FailKeeps(x, Next(x, step));
    case _ => CallKeeps(x, step);
  }

  lemma {:induction false} RunsAreGood(highWater: nat, steps: seq<Step>, x: World)
    requires Run(NewWorld(highWater), steps, x)
    ensures Good(x)
    decreases |steps|
  {
    if steps == [] {
    } else {
      var mid :| Run(NewWorld(highWater), Front(steps), mid) && May(mid, Last(steps))
                 && x == Next(mid, Last(steps));
      RunsAreGood(highWater, Front(steps), mid);
      Keep(mid, Last(steps));
    }
  }

  /** Accepted and not yet written: what `run`'s task is writing, then the
      queue. */
  function Unwritten(x: World): seq<Entry>
  {
    (if x.runner.Writing? then x.runner.batch else []) + x.w.queue
  }

  lemma SplitItems(items: seq<Bytes>, k: nat)
    requires k <= |items|
    ensures Concat(items) == Concat(items[..k]) + Concat(items[k..])
  {
    assert items == items[..k] + items[k..];
    ConcatAppend(items[..k], items[k..]);
  }

  lemma UnwrittenItems(x: World)
    requires Shape(x) && Accounted(x) && !x.runner.Raising?
    ensures DatasOf(Unwritten(x)) == Items(x.history)[x.w.completed + SentCount(x.runner)..]
  {
    if x.runner.Sent? {
      SentItems(x);
    } else {
      assert Unwritten(x) == Pending(x);
    }
  }

  lemma SentItems(x: World)
    requires Accounted(x) && x.runner.Sent?
    ensures DatasOf(Unwritten(x)) == Items(x.history)[x.w.completed + |x.runner.batch|..]
  {
    BatchIsNext(x.w, x.runner.batch, x.w.queue, Items(x.history));
    assert Unwritten(x) == x.w.queue;
  }

  lemma UnwrittenFollows(x: World)
    requires Shape(x) && Accounted(x) && !x.runner.Raising?
    ensures Concat(Items(x.history)) == Written(x.history) + Concat(DatasOf(Unwritten(x)))
  {
    UnwrittenItems(x);
    SplitItems(Items(x.history), x.w.completed + SentCount(x.runner));
  }

  /** Over every run the writer is a faithful sink; and without an error
      nothing is lost, doubled or reordered between acceptance and write. */
  lemma WriterIsASink(highWater: nat, steps: seq<Step>, x: World)
    requires Run(NewWorld(highWater), steps, x)
    ensures Faithful(x.history)
    ensures x.w.error == None && !x.runner.Raising? ==>
              Concat(Items(x.history)) == Written(x.history) + Concat(DatasOf(Unwritten(x)))
  {
    RunsAreGood(highWater, steps, x);
    if x.w.error == None && !x.runner.Raising? {
      UnwrittenFollows(x);
    }
  }

  /** The counters mean what they say, and the buffer is bounded. */
  lemma CountersAreExact(highWater: nat, steps: seq<Step>, x: World)
    requires Run(NewWorld(highWater), steps, x)
    ensures x.w.submitted == |Items(x.history)|
    ensures x.w.error == None ==>
              x.w.submitted - x.w.completed == |Pending(x)| && x.w.buffered == |Concat(DatasOf(Pending(x)))|
    ensures x.w.buffered <= x.w.highWater || |Pending(x)| == 1
  {
    RunsAreGood(highWater, steps, x);
    HighWaterIsKept(highWater, steps, x);
  }

  lemma HighWaterStays(x: World, step: Step)
    requires May(x, step)
    ensures Next(x, step).w.highWater == x.w.highWater
  {
  }

  lemma {:induction false} HighWaterIsKept(highWater: nat, steps: seq<Step>, x: World)
    requires Run(NewWorld(highWater), steps, x)
    ensures x.w.highWater == highWater
    decreases |steps|
  {
    if steps == [] {
    } else {
      var mid :| Run(NewWorld(highWater), Front(steps), mid) && May(mid, Last(steps))
                 && x == Next(mid, Last(steps));
      HighWaterIsKept(highWater, Front(steps), mid);
      HighWaterStays(mid, Last(steps));
    }
  }

  predicate IsOwn(step: Step)
  {
    step.AwakeStep? || step.TakeStep? || step.WriteStep? || step.FinishStep? || step.FailStep?
  }

  predicate Alive(r: Runner) { r != Unstarted && r != Done }

  /** What `run`'s task does next when the transport takes its bytes. */
  function Own(r: Runner): Step
    requires Alive(r)
  {
    match r
    case Awaiting => AwakeStep
    case Ready => TakeStep
    case Writing(_) => WriteStep(None)
    case Sent(_) => FinishStep
    case Raising(_, _) => FailStep
  }

  /** What the high-water mark promises: bytes are taken when nothing is pending,
      or when with them no more than the mark is. */
  predicate HasRoom(x: World, data: Bytes)
  {
    Pending(x) == [] || |Concat(DatasOf(Pending(x)))| + |data| <= x.w.highWater
  }

  /** All that was accepted before the call has been written and completed. */
  predicate Completed(x: World, n: int) { |ItemsAt(x.history, n)| + |Pending(x)| <= |Items(x.history)| }

  lemma RoomMeansNotFull(x: World, data: Bytes)
    requires Good(x) && x.w.error == None
    ensures HasRoom(x, data) <==> !Full(x.w, data)
  {
    if Pending(x) != [] {
      SomethingBuffered(Pending(x), x.w.completed);
    }
  }

  /** A call that waits unwoken waits for something: its guard is still true,
      bytes are pending, and `run`'s task can go on.  That task parks exactly
      while there is nothing to write and no stop to notice. */
  lemma NoLostWakeUp(highWater: nat, steps: seq<Step>, x: World, n: int)
    requires Run(NewWorld(highWater), steps, x)
    ensures x.runner == Awaiting ==> (x.w.hasData <==> x.w.queue != [] || x.w.closing)
    ensures n in x.tasks && !x.tasks[n].woken && x.tasks[n].call != Joining ==>
              && Pending(x) != [] && Alive(x.runner) && May(x, Own(x.runner))
              && match x.tasks[n].call {
                   case Sending(data) => !HasRoom(x, data)
                   case Draining(_) => !Completed(x, n)
                   case Stopping(_) => !Completed(x, n)
                   case Joining => true
                 }
    ensures n in x.tasks && x.tasks[n].call == Joining && !x.w.stopped ==>
              Alive(x.runner) && May(x, Own(x.runner))
  {
    RunsAreGood(highWater, steps, x);
    if n in x.tasks {
      assert TaskFits(x, n, x.tasks[n]);
      if x.tasks[n].call.Sending? && x.w.error == None {
        RoomMeansNotFull(x, x.tasks[n].call.data);
      }
    }
  }

  /** What one turn of a `send` comes to. */
  predicate TakenIffRoom(x: World, n: int, data: Bytes, x': World)
  {
    if data == [] then x' == Drop(x, n)
    else if !x.w.started || StopIn(x.history) || BrokeIn(x.history) then x' == Note(Drop(x, n), Refused)
    else if HasRoom(x, data) then
      && x'.history == Then(x.history, Accepted(data)) && n !in x'.tasks
      && x'.w.queue == x.w.queue + [Entry(|Items(x.history)| + 1, data)] && x'.w.hasData
    else x' == x.(tasks := x.tasks[n := Task(Sending(data), false)])
  }

  lemma SendTakes(x: World, n: int, data: Bytes)
    requires Good(x)
    ensures TakenIffRoom(x, n, data, DoSend(x, n, data))
  {
    if x.w.error == None {
      RoomMeansNotFull(x, data);
    }
  }

  /** Over every run: bytes sent to a writer that is started, not stopped and
      without an error are taken at once if and only if there is room under the
      high-water mark, when they are handed in and whenever the call goes on. */
  lemma SentAtOnceIffRoom(highWater: nat, steps: seq<Step>, x: World, n: int, data: Bytes)
    requires Run(NewWorld(highWater), steps, x)
    ensures x.w.highWater == highWater
    ensures n !in x.tasks ==> TakenIffRoom(x, n, data, Next(x, SendStep(n, data)))
    ensures May(x, AgainStep(n)) && x.tasks[n].call.Sending? ==>
              TakenIffRoom(x, n, x.tasks[n].call.data, Next(x, AgainStep(n)))
  {
    RunsAreGood(highWater, steps, x);
    HighWaterIsKept(highWater, steps, x);
    SendTakes(x, n, data);
    if May(x, AgainStep(n)) && x.tasks[n].call.Sending? {
      SendTakes(x, n, x.tasks[n].call.data);
    }
  }

  /** What a `drain` that looks at the writer comes to. */
  predicate ReturnsIffCompleted(x: World, n: int, x': World)
  {
    if BrokeIn(x.history) then x'.history == Then(x.history, Raised(n)) && n !in x'.tasks
    else if Completed(x, n) then x'.history == Then(x.history, Returned(n)) && n !in x'.tasks
    else x'.history == x.history && n in x'.tasks && x'.tasks[n].call.Draining? && !x'.tasks[n].woken
  }

  lemma DrainReturns(x: World, n: int, target: nat)
    requires Good(x) && target == |ItemsAt(x.history, n)|
    ensures ReturnsIffCompleted(x, n, DoDrain(x, n, target))
  {
  }

  /** Over every run: a `drain` of a started writer comes back as soon as it looks
      at the writer with everything completed that was accepted before the call,
      and an unstarted writer lets it go at once. */
  lemma DrainsReturnIffCompleted(highWater: nat, steps: seq<Step>, x: World, n: int)
    requires Run(NewWorld(highWater), steps, x)
    ensures n !in x.tasks ==>
              var x1 := Note(x, Called(n, false));
              if x.w.started then ReturnsIffCompleted(x1, n, Next(x, DrainStep(n)))
              else Next(x, DrainStep(n)) == Note(x1, Returned(n))
    ensures May(x, AgainStep(n)) && x.tasks[n].call.Draining? ==> ReturnsIffCompleted(x, n, Next(x, AgainStep(n)))
  {
    RunsAreGood(highWater, steps, x);
    if n !in x.tasks {
      CalledKeeps(x, n, false, Note(x, Called(n, false)));
      CountersAreExact(highWater, steps, x);
      DrainReturns(Note(x, Called(n, false)), n, x.w.submitted);
    }
    if May(x, AgainStep(n)) && x.tasks[n].call.Draining? {
      assert TaskFits(x, n, x.tasks[n]);
      DrainReturns(x, n, x.tasks[n].call.target);
    }
  }

  lemma RunSnoc(start: World, steps: seq<Step>, mid: World, step: Step)
    requires Run(start, steps, mid) && May(mid, step)
    ensures Run(start, steps + [step], Next(mid, step))
  {
    assert Front(steps + [step]) == steps;
  }

  predicate AllOwn(steps: seq<Step>) { forall i :: 0 <= i < |steps| ==> IsOwn(steps[i]) }

  /** How many of its own steps `run`'s task is from a notification. */
  function Distance(r: Runner): nat
  {
    match r
    case Awaiting => 4
    case Ready => 3
    case Writing(_) => 2
    case Sent(_) => 1
    case Raising(_, _) => 1
    case _ => 0
  }

  lemma OwnStepAdvances(x: World, step: Step, x': World)
    requires Shape(x) && Pending(x) != [] && Alive(x.runner)
    requires IsOwn(step) && May(x, step) && x' == Next(x, step)
    ensures if Distance(x.runner) > 1 then
              && Distance(x'.runner) == Distance(x.runner) - 1 && Alive(x'.runner)
              && Pending(x') == Pending(x) && x'.tasks == x.tasks
            else x'.tasks == WakeAll(x.tasks)
  {
    if x.runner == Ready {
      assert Pending(x) == x.w.queue;
      assert Pending(x') == x.w.queue;
    }
  }

  predicate CanGoOn(x: World) { Alive(x.runner) && May(x, Own(x.runner)) && IsOwn(Own(x.runner)) }

  lemma AliveWhilePending(x: World)
    requires Good(x) && Pending(x) != []
    ensures CanGoOn(x)
  {
  }

  lemma {:induction false} OwnStepsNotify(x: World, steps: seq<Step>, x': World)
    requires Good(x) && Pending(x) != [] && Run(x, steps, x') && AllOwn(steps) && |steps| <= Distance(x.runner)
    ensures Good(x')
    ensures if |steps| < Distance(x.runner) then
              && Distance(x'.runner) == Distance(x.runner) - |steps|
              && Pending(x') != [] && x'.tasks == x.tasks && CanGoOn(x')
            else x'.tasks == WakeAll(x.tasks)
    decreases |steps|
  {
    if steps == [] {
      AliveWhilePending(x);
    } else {
      var mid :| Run(x, Front(steps), mid) && May(mid, Last(steps)) && x' == Next(mid, Last(steps));
      OwnStepsNotify(x, Front(steps), mid);
      OwnStepAdvances(mid, Last(steps), x');
      Keep(mid, Last(steps));
      if |steps| < Distance(x.runner) {
        AliveWhilePending(x');
      }
    }
  }

  /** Whenever bytes are pending, `run`'s task alone brings a notification,
      whether the transport takes the bytes or raises: it can go on until, after
      at most four steps of its own, every suspended call is woken. */
  lemma WakeUpComes(highWater: nat, before: seq<Step>, x: World, steps: seq<Step>, x': World)
    requires Run(NewWorld(highWater), before, x) && Pending(x) != []
    requires Run(x, steps, x') && AllOwn(steps) && |steps| <= Distance(x.runner)
    ensures Distance(x.runner) <= 4
    ensures if |steps| == Distance(x.runner) then x'.tasks == WakeAll(x.tasks) else CanGoOn(x')
  {
    RunsAreGood(highWater, before, x);
    OwnStepsNotify(x, steps, x');
  }

  /** An upper bound on the steps `run`'s task still takes after a stop. */
  function Rank(x: World): nat
  {
    (if x.w.queue != [] then 4 else 0)
    + match x.runner
      case Writing(_) => 4
      case Sent(_) => 3
      case Awaiting => 2
      case Ready => 1
      case Raising(_, _) => 1
      case _ => 0
  }

  /** After a stop `run`'s task always can go on, each of its steps brings
      it nearer to its end, and nothing takes it further away: it ends within
      eight steps of its own. */
  lemma StopBringsTheEnd(highWater: nat, steps: seq<Step>, x: World, step: Step)
    requires Run(NewWorld(highWater), steps, x) && StopIn(x.history) && May(x, step)
    ensures Rank(x) <= 8 && StopIn(Next(x, step).history)
    ensures Alive(x.runner) ==> May(x, Own(x.runner))
    ensures if IsOwn(step) then Rank(Next(x, step)) < Rank(x) else Rank(Next(x, step)) == Rank(x)
    ensures Rank(x) == 0 ==> x.w.stopped
  {
    RunsAreGood(highWater, steps, x);
    ClosingRank(x, step);
  }

  /** A call writes nothing; after a stop it neither queues anything. */
  lemma CallsWriteNothing(x: World, step: Step, x': World)
    requires Shape(x) && May(x, step) && !IsOwn(step) && x' == Next(x, step)
    ensures WritesSinceStop(x'.history) == WritesSinceStop(x.history)
    ensures x.w.closing ==> x'.runner == x.runner && x'.w.queue == x.w.queue
  {
  }

  lemma OwnRank(x: World, step: Step, x': World)
    requires Shape(x) && May(x, step) && IsOwn(step) && x' == Next(x, step) && x.w.closing
    ensures Rank(x') < Rank(x)
  {
  }

  lemma ClosingRank(x: World, step: Step)
    requires Good(x) && x.w.closing && May(x, step)
    ensures StopIn(Next(x, step).history)
    ensures if IsOwn(step) then Rank(Next(x, step)) < Rank(x) else Rank(Next(x, step)) == Rank(x)
  {
    var x' := Next(x, step);
    StopStays(x, step, x');
    if IsOwn(step) {
      OwnRank(x, step, x');
    } else {
      CallsWriteNothing(x, step, x');
    }
  }

  lemma StopStays(x: World, step: Step, x': World)
    requires StopIn(x.history) && May(x, step) && x' == Next(x, step)
    ensures StopIn(x'.history)
  {
  }

  /** Batches that may still be written after the stop, with those that were. */
  predicate FewWrites(x: World)
  {
    if StopIn(x.history) then
      WritesSinceStop(x.history) + (if x.runner.Writing? then 1 else 0)
      + (if x.w.queue != [] then 1 else 0) <= 2
    else WritesSinceStop(x.history) == 0
  }

  lemma OwnStepWrites(x: World, step: Step, x': World)
    requires Shape(x) && FewWrites(x) && May(x, step) && IsOwn(step) && x' == Next(x, step)
    ensures FewWrites(x')
  {
  }

  lemma FewWritesStep(x: World, step: Step)
    requires Good(x) && FewWrites(x) && May(x, step)
    ensures FewWrites(Next(x, step))
  {
    var x' := Next(x, step);
    if IsOwn(step) {
      OwnStepWrites(x, step, x');
    } else {
      CallsWriteNothing(x, step, x');
      if StopIn(x.history) {
        StopStays(x, step, x');
      }
    }
  }

  /** After a stop at most two more batches are written: the one being written
      and the one that takes the rest of the queue. */
  lemma {:induction false} AtMostTwoBatchesAfterStop(highWater: nat, steps: seq<Step>, x: World)
    requires Run(NewWorld(highWater), steps, x)
    ensures FewWrites(x) && WritesSinceStop(x.history) <= 2
    decreases |steps|
  {
    if steps == [] {
    } else {
      var mid :| Run(NewWorld(highWater), Front(steps), mid) && May(mid, Last(steps))
                 && x == Next(mid, Last(steps));
      AtMostTwoBatchesAfterStop(highWater, Front(steps), mid);
      RunsAreGood(highWater, Front(steps), mid);
      FewWritesStep(mid, Last(steps));
    }
  }

  /** Over every run: what is written is the first of what was accepted, and
      every call that came back normally, `drain` or `stop`, has kept its word. */
  lemma CallersMayRelyOnIt(highWater: nat, steps: seq<Step>, x: World, past: History, call: int)
    requires Run(NewWorld(highWater), steps, x)
    ensures Written(x.history) <= Concat(Items(x.history))
    ensures Extends(x.history, Then(past, Returned(call))) ==> WordKept(x.history, past, call)
  {
    WriterIsASink(highWater, steps, x);
    WrittenIsAPrefix(x.history);
    if Extends(x.history, Then(past, Returned(call))) {
      WordIsKept(x.history, past, call);
    }
  }
}
