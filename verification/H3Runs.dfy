/** The HTTP/3 send scheduler over whole runs: any number of tasks that queue
    operations, `run`'s own task, `wake` and `close`, in any interleaving. */
module H3Runs {
  import opened Common
  import opened H3Sends

  datatype Obs =
    | Admitted(id: nat)
    | Applied(id: nat)
    | FlushDone
    | Broke
    | ClosedDown
    /** A call that ends a stream has come back normally. */
    | Returned(id: nat)
    | Raised

  /** Everything observed so far, the latest observation outermost. */
  datatype History = Start | Then(past: History, obs: Obs)

  function AdmittedCount(h: History): nat
  {
    match h
    case Start => 0
    case Then(past, Admitted(_)) => AdmittedCount(past) + 1
    case Then(past, _) => AdmittedCount(past)
  }

  function AppliedCount(h: History): nat
  {
    match h
    case Start => 0
    case Then(past, Applied(_)) => AppliedCount(past) + 1
    case Then(past, _) => AppliedCount(past)
  }

  /** How many operations a completed flush has covered. */
  function FlushedCount(h: History): nat
  {
    match h
    case Start => 0
    case Then(past, FlushDone) => AppliedCount(past)
    case Then(past, _) => FlushedCount(past)
  }

  predicate BrokeIn(h: History)
  {
    match h
    case Start => false
    case Then(past, Broke) => true
    case Then(past, _) => BrokeIn(past)
  }

  predicate ClosedIn(h: History)
  {
    match h
    case Start => false
    case Then(past, ClosedDown) => true
    case Then(past, _) => ClosedIn(past)
  }

  /** Operations are applied in the order of admission, at most 32 for each
      flush, none after an error or a close; a call that ends a stream comes
      back normally only once a flush has covered its operation, and so all
      operations admitted before it. */
  predicate Allowed(h: History, obs: Obs)
  {
    match obs
    case Admitted(id) => id == AdmittedCount(h) && !BrokeIn(h) && !ClosedIn(h)
    case Applied(id) =>
      && id == AppliedCount(h) < AdmittedCount(h) && !BrokeIn(h) && !ClosedIn(h)
      && AppliedCount(h) - FlushedCount(h) < MAX_BATCHED_SENDS
    case FlushDone => !BrokeIn(h)
    case Broke => !BrokeIn(h)
    case ClosedDown => true
    case Returned(id) => id < FlushedCount(h)
    case Raised => BrokeIn(h) || ClosedIn(h)
  }

  predicate Faithful(h: History)
  {
    match h
    case Start => true
    case Then(past, obs) => Faithful(past) && Allowed(past, obs)
  }

  /** A task suspended in `_enqueue`: until the operation that was the oldest is
      complete, or until its own is. */
  datatype Call = Admitting(size: nat, ends: bool, oldest: nat) | Finishing(id: nat)

  datatype Runner = AtHead | Parked | Flushing(batch: seq<Op>) | Ended

  /** `completed` gives each completed operation its error, if it has one. */
  datatype World = World(
    s: Sched, runner: Runner, calls: map<int, Call>, completed: map<nat, Option<int>>, history: History)

  const INITIAL := World(NEW_SCHED, AtHead, map[], map[], Start)

  datatype Step =
    | EnterStep(call: int, size: nat, ends: bool)
    | AgainStep(call: int)
    | FinishStep(call: int)
    | WakeStep
    | CloseStep(e: int)
    | TurnStep(faultAt: nat, e: int)
    | UnparkStep(faultAt: nat, e: int)
    | FlushedStep(fault: Option<int>)

  predicate May(x: World, step: Step)
  {
    match step
    case EnterStep(n, _, _) => n !in x.calls
    case AgainStep(n) => n in x.calls && x.calls[n].Admitting? && x.calls[n].oldest in x.completed
    case FinishStep(n) => n in x.calls && x.calls[n].Finishing? && x.calls[n].id in x.completed
    case WakeStep => true
    case CloseStep(_) => true
    case TurnStep(_, _) => x.runner == AtHead
    case UnparkStep(_, _) => x.runner == Parked && x.s.hasData
    case FlushedStep(_) => x.runner.Flushing?
  }

  function Note(x: World, obs: Obs): World { x.(history := Then(x.history, obs)) }

  function Drop(x: World, n: int): World { x.(calls := x.calls - {n}) }

  function AppliedAll(h: History, ops: seq<Op>): History
  {
    if ops == [] then h else Then(AppliedAll(h, Front(ops)), Applied(Last(ops).id))
  }

  function Marked(completed: map<nat, Option<int>>, ops: seq<Op>, fault: Option<int>): map<nat, Option<int>>
  {
    if ops == [] then completed else Marked(completed, Front(ops), fault)[Last(ops).id := fault]
  }

  function Try(x: World, n: int, size: nat, ends: bool): World
  {
    if MustWait(x.s, size) then
      x.(calls := x.calls[n := Admitting(size, ends, x.s.pending[0].id)])
    else
      var id := AdmittedCount(x.history);
      Note(x, Obs.Admitted(id)).(
        s := Admit(x.s, Op(id, size)),
        calls := if ends then x.calls[n := Finishing(id)] else x.calls - {n})
  }

  predicate Unavailable(s: Sched) { s.closed || s.error.Some? }

  function DoAgain(x: World, n: int): World
    requires n in x.calls && x.calls[n].Admitting? && x.calls[n].oldest in x.completed
  {
    var c := x.calls[n];
    if x.completed[c.oldest].Some? || Unavailable(x.s) then Note(Drop(x, n), Raised)
    else Try(x, n, c.size, c.ends)
  }

  function DoFinish(x: World, n: int): World
    requires n in x.calls && x.calls[n].Finishing? && x.calls[n].id in x.completed
  {
    var id := x.calls[n].id;
    Note(Drop(x, n), if x.completed[id].Some? then Raised else Returned(id))
  }

  /** `_fail_pending`. */
  function DoFail(x: World, e: int): World
  {
    x.(s := FailedPending(x.s), completed := Marked(x.completed, x.s.queue, Some(e)))
  }

  function DoClose(x: World, e: int): World
  {
    var x1 := DoFail(Note(x, ClosedDown).(s := x.s.(closed := true)), e);
    x1.(s := x1.s.(hasData := true))
  }

  /** The end of a batch. */
  function DoComplete(x: World, batch: seq<Op>, fault: Option<int>): World
  {
    x.(s := CompletedAll(x.s, batch), completed := Marked(x.completed, batch, fault))
  }

  /** A batch that met an error, up to the end of `run`. */
  function DoBreak(x: World, batch: seq<Op>, e: int): World
  {
    var x1 := Note(x, Broke).(s := x.s.(error := Some(e)));
    DoFail(DoComplete(x1, batch, Some(e)), e).(runner := Ended)
  }

  function DoBatch(x: World, faultAt: nat, e: int): World
  {
    var n := BatchLength(x.s.queue, faultAt);
    var batch, x1 := x.s.queue[..n], x.(s := x.s.(queue := x.s.queue[n..]));
    if Raises(x.s.queue, faultAt) then
      DoBreak(x1.(history := AppliedAll(x.history, Front(batch))), batch, e)
    else if n == 0 then x.(runner := AtHead)
    else x1.(history := AppliedAll(x.history, batch), runner := Flushing(batch))
  }

  function DoTurn(x: World, faultAt: nat, e: int): World
  {
    if x.s.closed then DoFail(x, e).(runner := Ended)
    else if x.s.queue == [] then x.(runner := Parked)
    else DoBatch(x, faultAt, e)
  }

  function DoUnpark(x: World, faultAt: nat, e: int): World
  {
    var x1 := x.(s := x.s.(hasData := false));
    if x.s.closed then DoFail(x1, e).(runner := Ended) else DoBatch(x1, faultAt, e)
  }

  function DoFlushed(x: World, fault: Option<int>): World
    requires x.runner.Flushing?
  {
    match fault
    case Some(e) => DoBreak(x, x.runner.batch, e)
    case None =>
      var x1 := DoComplete(Note(x, FlushDone), x.runner.batch, None);
      x1.(runner := AtHead, s := x1.s.(hasData := x1.s.hasData || x1.s.queue != []))
  }

  function Next(x: World, step: Step): World
    requires May(x, step)
  {
    match step
    case EnterStep(n, size, ends) => if Unavailable(x.s) then Note(x, Raised) else Try(x, n, size, ends)
    case AgainStep(n) => DoAgain(x, n)
    case FinishStep(n) => DoFinish(x, n)
    case WakeStep => x.(s := x.s.(hasData := true))
    case CloseStep(e) => DoClose(x, e)
    case TurnStep(faultAt, e) => DoTurn(x, faultAt, e)
    case UnparkStep(faultAt, e) => DoUnpark(x, faultAt, e)
    case FlushedStep(fault) => DoFlushed(x, fault)
  }

  ghost predicate Run(steps: seq<Step>, x: World)
    decreases |steps|
  {
    if steps == [] then x == INITIAL
    else exists mid :: Run(Front(steps), mid) && May(mid, Last(steps)) && x == Next(mid, Last(steps))
  }

  function InFlight(r: Runner): seq<Op> { if r.Flushing? then r.batch else [] }

  function Sizes(ops: seq<Op>): nat
  {
    if ops == [] then 0 else ops[0].size + Sizes(ops[1..])
  }

  predicate Numbered(ops: seq<Op>, from: nat)
  {
    forall i :: 0 <= i < |ops| ==> ops[i].id == from + i
  }

  predicate Room(s: Sched)
  {
    && |s.pending| <= MAX_PENDING_SENDS
    && (s.pendingBytes <= MAX_PENDING_BYTES || |s.pending| == 1)
  }

  /** What is pending is the batch being flushed and the queue, in the order of
      admission from the first operation not flushed. */
  predicate Accounted(x: World)
  {
    && x.s.pending == InFlight(x.runner) + x.s.queue
    && x.s.pendingBytes == Sizes(x.s.pending)
    && Numbered(x.s.pending, FlushedCount(x.history))
    && FlushedCount(x.history) + |x.s.pending| <= AdmittedCount(x.history)
    && (!Unavailable(x.s) ==> FlushedCount(x.history) + |x.s.pending| == AdmittedCount(x.history))
  }

  /** Completed is what is neither pending nor yet to come; completed without an
      error is what was flushed. */
  ghost predicate Settles(completed: map<nat, Option<int>>, flushed: nat, pending: nat, admitted: nat)
  {
    forall id: nat ::
      && (id in completed <==> id < flushed || flushed + pending <= id < admitted)
      && (id in completed ==> (completed[id] == None <==> id < flushed))
  }

  predicate Shape(x: World)
  {
    && (x.s.closed <==> ClosedIn(x.history))
    && (x.s.error.Some? <==> BrokeIn(x.history))
    && (Unavailable(x.s) ==> x.s.queue == [])
    && (x.s.error.Some? ==> x.runner == Ended)
    && (x.runner == Ended ==> Unavailable(x.s))
    && (x.s.error == None ==> AppliedCount(x.history) == FlushedCount(x.history) + |InFlight(x.runner)|)
    && (x.runner.Flushing? ==> 0 < |x.runner.batch| <= MAX_BATCHED_SENDS)
    && (x.runner == Parked && !x.s.hasData ==> x.s.queue == [] && !x.s.closed)
  }

  predicate CallsFit(x: World)
  {
    forall n :: n in x.calls ==>
      match x.calls[n]
      case Admitting(_, _, oldest) => oldest < AdmittedCount(x.history)
      case Finishing(id) => id < AdmittedCount(x.history)
  }

  ghost predicate Good(x: World)
  {
    && Accounted(x) && Room(x.s) && Shape(x) && CallsFit(x) && Faithful(x.history)
    && Settles(x.completed, FlushedCount(x.history), |x.s.pending|, AdmittedCount(x.history))
  }

  lemma {:induction false} SizesAppend(a: seq<Op>, b: seq<Op>)
    ensures Sizes(a + b) == Sizes(a) + Sizes(b)
    decreases |a|
  {
    if a == [] {
      assert a + b == b;
    } else {
      assert (a + b)[0] == a[0] && (a + b)[1..] == a[1..] + b;
      SizesAppend(a[1..], b);
    }
  }

  lemma {:induction false} MarkedKeys(completed: map<nat, Option<int>>, ops: seq<Op>, from: nat,
                                      fault: Option<int>, id: nat)
    requires Numbered(ops, from)
    ensures id in Marked(completed, ops, fault) <==> id in completed || from <= id < from + |ops|
    ensures from <= id < from + |ops| ==> Marked(completed, ops, fault)[id] == fault
    ensures id in completed && !(from <= id < from + |ops|) ==>
              Marked(completed, ops, fault)[id] == completed[id]
    decreases |ops|
  {
    if ops == [] {
    } else {
      MarkedKeys(completed, Front(ops), from, fault, id);
    }
  }

  /** Completing the first operations of `pending`. */
  lemma {:induction false} CompletesFront(s: Sched, batch: seq<Op>, rest: seq<Op>)
    requires s.pending == batch + rest
    ensures CompletedAll(s, batch) == s.(pending := rest, pendingBytes := s.pendingBytes - Sizes(batch))
    decreases |batch|
  {
    if batch == [] {
      assert s.pending == rest;
    } else {
      assert s.pending[0] == batch[0] && s.pending[1..] == batch[1..] + rest;
      CompletesFront(Completed(s, batch[0]), batch[1..], rest);
    }
  }

  /** Failing the queue leaves what is in flight pending. */
  lemma {:induction false} FailsQueue(s: Sched, batch: seq<Op>)
    requires s.pending == batch + s.queue
    requires forall i, j :: 0 <= i < |batch| && 0 <= j < |s.queue| ==> batch[i] != s.queue[j]
    ensures FailedPending(s)
            == s.(queue := [], pending := batch, pendingBytes := s.pendingBytes - Sizes(s.queue))
    decreases |s.queue|
  {
    if s.queue == [] {
      assert batch + [] == batch;
    } else {
      var op, rest := s.queue[0], s.queue[1..];
      RemovedAt(s.pending, |batch|);
      assert s.pending[..|batch|] == batch && s.pending[|batch| + 1..] == rest;
      FailsQueue(Completed(s.(queue := rest), op), batch);
    }
  }

  lemma NumberedParts(a: seq<Op>, b: seq<Op>, from: nat)
    requires Numbered(a + b, from)
    ensures Numbered(a, from) && Numbered(b, from + |a|)
  {
    assert forall i :: 0 <= i < |a| ==> (a + b)[i] == a[i];
    assert forall i :: 0 <= i < |b| ==> (a + b)[|a| + i] == b[i];
  }

  lemma AdmitNumbered(pending: seq<Op>, op: Op, from: nat)
    requires Numbered(pending, from) && op.id == from + |pending|
    ensures Numbered(pending + [op], from) && Sizes(pending + [op]) == Sizes(pending) + op.size
  {
    SizesAppend(pending, [op]);
    assert [op][1..] == [];
  }

  lemma AdmitAccounted(x: World, x': World, op: Op)
    requires Accounted(x) && Room(x.s) && !Unavailable(x.s) && !MustWait(x.s, op.size)
    requires op.id == AdmittedCount(x.history)
    requires x'.s == Admit(x.s, op) && x'.runner == x.runner && x'.history == Then(x.history, Obs.Admitted(op.id))
    ensures Accounted(x') && Room(x'.s)
  {
    AdmitNumbered(x.s.pending, op, FlushedCount(x.history));
    AppendAssoc(InFlight(x.runner), x.s.queue, [op]);
  }

  lemma TryKeeps(x: World, n: int, size: nat, ends: bool)
    requires Good(x) && !Unavailable(x.s)
    ensures Good(Try(x, n, size, ends))
  {
    if !MustWait(x.s, size) {
      AdmitAccounted(x, Try(x, n, size, ends), Op(AdmittedCount(x.history), size));
    }
  }

  lemma QueueFails(x: World)
    requires Accounted(x)
    ensures var f := InFlight(x.runner);
            && FailedPending(x.s) == x.s.(queue := [], pending := f, pendingBytes := Sizes(f))
            && Numbered(f, FlushedCount(x.history))
            && Numbered(x.s.queue, FlushedCount(x.history) + |f|)
            && |x.s.pending| == |f| + |x.s.queue|
            && Sizes(f) <= x.s.pendingBytes
  {
    var f := InFlight(x.runner);
    NumberedParts(f, x.s.queue, FlushedCount(x.history));
    FailsQueue(x.s, f);
    SizesAppend(f, x.s.queue);
  }

  /** Marking the last pending operations as failed. */
  lemma MarksTail(completed: map<nat, Option<int>>, ops: seq<Op>, e: int, flushed: nat, left: nat, admitted: nat)
    requires Settles(completed, flushed, left + |ops|, admitted) && Numbered(ops, flushed + left)
    requires flushed + left + |ops| <= admitted
    ensures Settles(Marked(completed, ops, Some(e)), flushed, left, admitted)
  {
    forall id: nat
      ensures id in Marked(completed, ops, Some(e)) <==> id < flushed || flushed + left <= id < admitted
      ensures id in Marked(completed, ops, Some(e)) ==>
                (Marked(completed, ops, Some(e))[id] == None <==> id < flushed)
    {
      MarkedKeys(completed, ops, flushed + left, Some(e), id);
    }
  }

  /** Marking the first pending operations as done. */
  lemma MarksHead(completed: map<nat, Option<int>>, ops: seq<Op>, flushed: nat, left: nat, admitted: nat)
    requires Settles(completed, flushed, |ops| + left, admitted) && Numbered(ops, flushed)
    requires flushed + |ops| + left <= admitted
    ensures Settles(Marked(completed, ops, None), flushed + |ops|, left, admitted)
  {
    forall id: nat
      ensures id in Marked(completed, ops, None) <==>
                id < flushed + |ops| || flushed + |ops| + left <= id < admitted
      ensures id in Marked(completed, ops, None) ==>
                (Marked(completed, ops, None)[id] == None <==> id < flushed + |ops|)
    {
      MarkedKeys(completed, ops, flushed, None, id);
    }
  }

  lemma CloseFits(x: World, x': World, completed: map<nat, Option<int>>)
    requires Good(x) && Settles(completed, FlushedCount(x.history), |InFlight(x.runner)|, AdmittedCount(x.history))
    requires var f := InFlight(x.runner);
             && Numbered(f, FlushedCount(x.history)) && |f| <= |x.s.pending| && Sizes(f) <= x.s.pendingBytes
             && x'.s == x.s.(closed := true, queue := [], pending := f, pendingBytes := Sizes(f), hasData := true)
    requires x'.runner == x.runner && x'.calls == x.calls && x'.completed == completed
    requires x'.history == Then(x.history, ClosedDown)
    ensures Good(x')
  {
    assert InFlight(x.runner) + [] == InFlight(x.runner);
  }

  lemma CloseKeeps(x: World, e: int)
    requires Good(x)
    ensures Good(DoClose(x, e))
  {
    var x1 := Note(x, ClosedDown).(s := x.s.(closed := true));
    QueueFails(x1);
    MarksTail(x.completed, x.s.queue, e, FlushedCount(x.history), |InFlight(x.runner)|, AdmittedCount(x.history));
    CloseFits(x, DoClose(x, e), DoClose(x, e).completed);
  }

  /** The end of `run` after a close. */
  lemma LeaveKeeps(x: World, hasData: bool, e: int, x': World)
    requires Good(x) && x.s.closed && !x.runner.Flushing?
    requires x' == DoFail(x.(s := x.s.(hasData := hasData)), e).(runner := Ended)
    ensures Good(x')
  {
  }

  lemma FinishKeeps(x: World, n: int)
    requires Good(x) && May(x, FinishStep(n))
    ensures Good(DoFinish(x, n))
  {
  }

  lemma AgainKeeps(x: World, n: int)
    requires Good(x) && May(x, AgainStep(n))
    ensures Good(DoAgain(x, n))
  {
    var c := x.calls[n];
    if x.completed[c.oldest] == None && !Unavailable(x.s) {
      TryKeeps(x, n, c.size, c.ends);
    }
  }

  lemma {:induction false} AppliedCounts(h: History, ops: seq<Op>)
    ensures AppliedCount(AppliedAll(h, ops)) == AppliedCount(h) + |ops|
    ensures AdmittedCount(AppliedAll(h, ops)) == AdmittedCount(h)
    ensures FlushedCount(AppliedAll(h, ops)) == FlushedCount(h)
    ensures BrokeIn(AppliedAll(h, ops)) == BrokeIn(h) && ClosedIn(AppliedAll(h, ops)) == ClosedIn(h)
    decreases |ops|
  {
    if ops == [] {
    } else {
      AppliedCounts(h, Front(ops));
    }
  }

  /** Applying the next operations, in order and within one batch, is faithful. */
  lemma {:induction false} AppliesFaithfully(h: History, ops: seq<Op>)
    requires Faithful(h) && !BrokeIn(h) && !ClosedIn(h) && Numbered(ops, AppliedCount(h))
    requires AppliedCount(h) + |ops| <= AdmittedCount(h)
    requires AppliedCount(h) - FlushedCount(h) + |ops| <= MAX_BATCHED_SENDS
    ensures Faithful(AppliedAll(h, ops))
    decreases |ops|
  {
    if ops == [] {
    } else {
      AppliesFaithfully(h, Front(ops));
      AppliedCounts(h, Front(ops));
    }
  }

  lemma {:induction false} MarkedAppend(completed: map<nat, Option<int>>, a: seq<Op>, b: seq<Op>, fault: Option<int>)
    ensures Marked(completed, a + b, fault) == Marked(Marked(completed, a, fault), b, fault)
    decreases |b|
  {
    if b == [] {
      assert a + b == a;
    } else {
      assert Front(a + b) == a + Front(b) && Last(a + b) == Last(b);
      MarkedAppend(completed, a, Front(b), fault);
    }
  }

  /** What a break makes of the pending operations: all are completed. */
  lemma BreakEnds(x: World, batch: seq<Op>, e: int)
    requires x.s.pending == batch + x.s.queue && x.s.pendingBytes == Sizes(x.s.pending)
    ensures DoBreak(x, batch, e).s == x.s.(error := Some(e), queue := [], pending := [], pendingBytes := 0)
    ensures DoBreak(x, batch, e).completed == Marked(x.completed, x.s.pending, Some(e))
  {
    var s1 := x.s.(error := Some(e));
    CompletesFront(s1, batch, x.s.queue);
    SizesAppend(batch, x.s.queue);
    assert [] + x.s.queue == x.s.queue;
    FailsQueue(CompletedAll(s1, batch), []);
    MarkedAppend(x.completed, batch, x.s.queue, Some(e));
  }

  lemma BreakShape(x: World, e: int, y: World)
    requires !BrokeIn(x.history) && (x.s.closed <==> ClosedIn(x.history))
    requires FlushedCount(x.history) <= AdmittedCount(x.history)
    requires y.s == x.s.(error := Some(e), queue := [], pending := [], pendingBytes := 0)
    requires y.runner == Ended && y.history == Then(x.history, Broke)
    ensures Accounted(y) && Room(y.s) && Shape(y)
  {
  }

  lemma BreakFits(x: World, e: int, y: World)
    requires Faithful(x.history) && !BrokeIn(x.history) && CallsFit(x) && (x.s.closed <==> ClosedIn(x.history))
    requires FlushedCount(x.history) <= AdmittedCount(x.history)
    requires Settles(y.completed, FlushedCount(x.history), 0, AdmittedCount(x.history))
    requires y.s == x.s.(error := Some(e), queue := [], pending := [], pendingBytes := 0)
    requires y.runner == Ended && y.calls == x.calls && y.history == Then(x.history, Broke)
    ensures Good(y)
  {
    BreakShape(x, e, y);
  }

  lemma BreakKeeps(x: World, batch: seq<Op>, e: int)
    requires x.s.pending == batch + x.s.queue && x.s.pendingBytes == Sizes(x.s.pending)
    requires Numbered(x.s.pending, FlushedCount(x.history))
    requires Settles(x.completed, FlushedCount(x.history), |x.s.pending|, AdmittedCount(x.history))
    requires FlushedCount(x.history) + |x.s.pending| <= AdmittedCount(x.history)
    requires Faithful(x.history) && !BrokeIn(x.history) && CallsFit(x)
    requires x.s.closed <==> ClosedIn(x.history)
    ensures Good(DoBreak(x, batch, e))
  {
    BreakEnds(x, batch, e);
    MarksTail(x.completed, x.s.pending, e, FlushedCount(x.history), 0, AdmittedCount(x.history));
    BreakFits(x, e, DoBreak(x, batch, e));
  }

  /** The history of a batch that takes `n` operations and applies `k` of them. */
  lemma BatchApplies(x: World, k: nat)
    requires Good(x) && !Unavailable(x.s) && !x.runner.Flushing?
    requires k <= |x.s.queue| && k <= MAX_BATCHED_SENDS
    ensures x.s.pending == x.s.queue && Numbered(x.s.queue, FlushedCount(x.history))
    ensures var h := AppliedAll(x.history, x.s.queue[..k]);
            && Faithful(h) && AppliedCount(h) == FlushedCount(x.history) + k
            && FlushedCount(h) == FlushedCount(x.history) && AdmittedCount(h) == AdmittedCount(x.history)
            && !BrokeIn(h) && !ClosedIn(h)
  {
    assert [] + x.s.queue == x.s.queue;
    AppliedCounts(x.history, x.s.queue[..k]);
    AppliesFaithfully(x.history, x.s.queue[..k]);
  }

  /** A batch of the history `h` leaves `rest` queued; it then meets an error. */
  lemma BrokenBatchFits(x: World, batch: seq<Op>, rest: seq<Op>, h: History, e: int)
    requires Good(x) && !Unavailable(x.s) && x.s.pending == x.s.queue == batch + rest
    requires Faithful(h) && !BrokeIn(h) && !ClosedIn(h)
    requires FlushedCount(h) == FlushedCount(x.history) && AdmittedCount(h) == AdmittedCount(x.history)
    ensures Good(DoBreak(x.(s := x.s.(queue := rest), history := h), batch, e))
  {
    BreakKeeps(x.(s := x.s.(queue := rest), history := h), batch, e);
  }

  lemma BrokenBatchFrom(x: World, batch: seq<Op>, rest: seq<Op>, e: int)
    requires Good(x) && !Unavailable(x.s) && !x.runner.Flushing? && x.s.queue == batch + rest
    requires 0 < |batch| <= MAX_BATCHED_SENDS
    ensures Good(DoBreak(x.(s := x.s.(queue := rest), history := AppliedAll(x.history, Front(batch))), batch, e))
  {
    BatchApplies(x, |batch| - 1);
    assert x.s.queue[..|batch| - 1] == Front(batch);
    BrokenBatchFits(x, batch, rest, AppliedAll(x.history, Front(batch)), e);
  }

  lemma BrokenBatchKeeps(x: World, faultAt: nat, e: int)
    requires Good(x) && !Unavailable(x.s) && !x.runner.Flushing? && Raises(x.s.queue, faultAt)
    ensures Good(DoBatch(x, faultAt, e))
  {
    var q, n := x.s.queue, faultAt + 1;
    assert q == q[..n] + q[n..];
    BrokenBatchFrom(x, q[..n], q[n..], e);
  }

  lemma BatchShape(x: World, batch: seq<Op>, rest: seq<Op>, h: History, x': World)
    requires Shape(x) && !Unavailable(x.s) && 0 < |batch| <= MAX_BATCHED_SENDS
    requires AppliedCount(h) == FlushedCount(h) + |batch| && !BrokeIn(h) && !ClosedIn(h)
    requires x' == x.(s := x.s.(queue := rest), runner := Flushing(batch), history := h)
    ensures Shape(x')
  {
  }

  /** ...or is flushed. */
  lemma BatchFits(x: World, batch: seq<Op>, rest: seq<Op>, h: History, x': World)
    requires Good(x) && !Unavailable(x.s) && x.s.pending == x.s.queue == batch + rest
    requires 0 < |batch| <= MAX_BATCHED_SENDS
    requires Faithful(h) && AppliedCount(h) == FlushedCount(h) + |batch| && !BrokeIn(h) && !ClosedIn(h)
    requires FlushedCount(h) == FlushedCount(x.history) && AdmittedCount(h) == AdmittedCount(x.history)
    requires x' == x.(s := x.s.(queue := rest), runner := Flushing(batch), history := h)
    ensures Good(x')
  {
    BatchShape(x, batch, rest, h, x');
  }

  lemma BatchKeeps(x: World, batch: seq<Op>, rest: seq<Op>, x': World)
    requires Good(x) && !Unavailable(x.s) && !x.runner.Flushing? && x.s.queue == batch + rest
    requires 0 < |batch| <= MAX_BATCHED_SENDS
    requires x' == x.(s := x.s.(queue := rest), runner := Flushing(batch),
                      history := AppliedAll(x.history, batch))
    ensures Good(x')
  {
    BatchApplies(x, |batch|);
    assert x.s.queue[..|batch|] == batch;
    BatchFits(x, batch, rest, x'.history, x');
  }

  lemma AnyBatchKeeps(x: World, faultAt: nat, e: int)
    requires Good(x) && !Unavailable(x.s) && !x.runner.Flushing?
    ensures Good(DoBatch(x, faultAt, e))
  {
    if Raises(x.s.queue, faultAt) {
      BrokenBatchKeeps(x, faultAt, e);
    } else if x.s.queue != [] {
      var q, n := x.s.queue, BatchLength(x.s.queue, faultAt);
      assert q == q[..n] + q[n..];
      BatchKeeps(x, q[..n], q[n..], DoBatch(x, faultAt, e));
    }
  }

  lemma TurnKeeps(x: World, faultAt: nat, e: int)
    requires Good(x) && x.runner == AtHead
    ensures Good(DoTurn(x, faultAt, e))
  {
    if x.s.closed {
      LeaveKeeps(x, x.s.hasData, e, DoTurn(x, faultAt, e));
    } else if x.s.queue != [] {
      AnyBatchKeeps(x, faultAt, e);
    }
  }

  lemma UnparkKeeps(x: World, faultAt: nat, e: int)
    requires Good(x) && x.runner == Parked && x.s.hasData
    ensures Good(DoUnpark(x, faultAt, e))
  {
    if x.s.closed {
      LeaveKeeps(x, false, e, DoUnpark(x, faultAt, e));
    } else {
      var x1 := x.(s := x.s.(hasData := false), runner := AtHead);
      AnyBatchKeeps(x1, faultAt, e);
      assert DoBatch(x.(s := x.s.(hasData := false)), faultAt, e) == DoBatch(x1, faultAt, e);
    }
  }

  lemma FlushedAccounted(x: World, x': World)
    requires Accounted(x) && Room(x.s) && Shape(x) && x.runner.Flushing?
    requires x'.s == x.s.(pending := x.s.queue, pendingBytes := Sizes(x.s.queue), hasData := x'.s.hasData)
    requires x'.runner == AtHead && x'.history == Then(x.history, FlushDone)
    ensures Accounted(x') && Room(x'.s) && Shape(x')
    ensures FlushedCount(x'.history) == FlushedCount(x.history) + |x.runner.batch|
  {
    NumberedParts(x.runner.batch, x.s.queue, FlushedCount(x.history));
    SizesAppend(x.runner.batch, x.s.queue);
    assert [] + x.s.queue == x.s.queue;
  }

  lemma FlushedFits(x: World, x': World)
    requires Good(x) && x.runner.Flushing?
    requires x'.s == x.s.(pending := x.s.queue, pendingBytes := Sizes(x.s.queue), hasData := x'.s.hasData)
    requires Settles(x'.completed, FlushedCount(x.history) + |x.runner.batch|, |x.s.queue|, AdmittedCount(x.history))
    requires x'.runner == AtHead && x'.calls == x.calls && x'.history == Then(x.history, FlushDone)
    ensures Good(x')
  {
    FlushedAccounted(x, x');
  }

  lemma FlushedKeeps(x: World, fault: Option<int>)
    requires Good(x) && x.runner.Flushing?
    ensures Good(DoFlushed(x, fault))
  {
    var f, h := x.runner.batch, x.history;
    if fault.Some? {
      BreakKeeps(x, f, fault.value);
    } else {
      NumberedParts(f, x.s.queue, FlushedCount(h));
      CompletesFront(x.s, f, x.s.queue);
      SizesAppend(f, x.s.queue);
      MarksHead(x.completed, f, FlushedCount(h), |x.s.queue|, AdmittedCount(h));
      FlushedFits(x, DoFlushed(x, fault));
    }
  }

  lemma Keep(x: World, step: Step)
    requires Good(x) && May(x, step)
    ensures Good(Next(x, step))
  {
    match step
    case EnterStep(n, size, ends) =>
      if !Unavailable(x.s) {
        TryKeeps(x, n, size, ends);
      }
    case AgainStep(n) => AgainKeeps(x, n);
    case FinishStep(n) => FinishKeeps(x, n);
    case WakeStep =>
    case CloseStep(e) => CloseKeeps(x, e);
    case TurnStep(faultAt, e) => TurnKeeps(x, faultAt, e);
    case UnparkStep(faultAt, e) => UnparkKeeps(x, faultAt, e);
    case FlushedStep(fault) => FlushedKeeps(x, fault);
  }

  lemma {:induction false} RunsAreGood(steps: seq<Step>, x: World)
    requires Run(steps, x)
    ensures Good(x)
    decreases |steps|
  {
    if steps == [] {
    } else {
      var mid :| Run(Front(steps), mid) && May(mid, Last(steps)) && x == Next(mid, Last(steps));
      RunsAreGood(Front(steps), mid);
      Keep(mid, Last(steps));
    }
  }

  predicate Extends(h: History, past: History)
  {
    h == past || (h.Then? && Extends(h.past, past))
  }

  predicate AppliedIn(h: History, id: nat)
  {
    match h
    case Start => false
    case Then(past, Applied(j)) => j == id || AppliedIn(past, id)
    case Then(past, _) => AppliedIn(past, id)
  }

  /** The operation was applied, and after that a flush completed. */
  predicate CoveredIn(h: History, id: nat)
  {
    match h
    case Start => false
    case Then(past, FlushDone) => AppliedIn(past, id) || CoveredIn(past, id)
    case Then(past, _) => CoveredIn(past, id)
  }

  lemma {:induction false} CountsMeanOperations(h: History, id: nat)
    requires Faithful(h)
    ensures id < AppliedCount(h) <==> AppliedIn(h, id)
    ensures id < FlushedCount(h) ==> CoveredIn(h, id)
    ensures AppliedCount(h) - FlushedCount(h) <= MAX_BATCHED_SENDS
  {
    match h
    case Start =>
    case Then(past, _) => CountsMeanOperations(past, id);
  }

  lemma {:induction false} EndCovers(h: History, past: History, id: nat, earlier: nat)
    requires Faithful(h) && Extends(h, Then(past, Returned(id))) && earlier <= id
    ensures CoveredIn(past, earlier)
  {
    if h == Then(past, Returned(id)) {
      CountsMeanOperations(past, earlier);
    } else {
      EndCovers(h.past, past, id, earlier);
    }
  }

  /** Over every run: operations are applied in the order of admission and at
      most 32 are between two flushes; and whenever a call that ends a stream
      came back normally, its operation and all admitted before it had been
      applied and then flushed. */
  lemma EndIsABarrier(steps: seq<Step>, x: World, past: History, id: nat, earlier: nat)
    requires Run(steps, x)
    ensures Faithful(x.history)
    ensures AppliedCount(x.history) - FlushedCount(x.history) <= MAX_BATCHED_SENDS
    ensures Extends(x.history, Then(past, Returned(id))) && earlier <= id ==> CoveredIn(past, earlier)
  {
    RunsAreGood(steps, x);
    CountsMeanOperations(x.history, 0);
    if Extends(x.history, Then(past, Returned(id))) && earlier <= id {
      EndCovers(x.history, past, id, earlier);
    }
  }

  /** Over every run: what is pending is the batch being flushed and the queue,
      its bytes are exactly counted, and both limits hold. */
  lemma AccountsHold(steps: seq<Step>, x: World)
    requires Run(steps, x)
    ensures x.s.pending == InFlight(x.runner) + x.s.queue && x.s.pendingBytes == Sizes(x.s.pending)
    ensures |x.s.pending| <= MAX_PENDING_SENDS && |InFlight(x.runner)| <= MAX_BATCHED_SENDS
    ensures x.s.pendingBytes <= MAX_PENDING_BYTES || |x.s.pending| == 1
  {
    RunsAreGood(steps, x);
  }

  /** A call of stream or task `n` finds an open scheduler: its operation is
      admitted, as the last of the pending ones and of the queue, if there is
      room; otherwise it waits for the oldest one. */
  predicate TakenIffRoom(x: World, n: int, size: nat, ends: bool, x': World)
  {
    var op := Op(AdmittedCount(x.history), size);
    if HasRoom(x.s, size) then
      && x'.history == Then(x.history, Obs.Admitted(op.id))
      && x'.s.pending == x.s.pending + [op] && x'.s.queue == x.s.queue + [op] && x'.s.hasData
      && x'.s.pendingBytes == x.s.pendingBytes + size
      && x'.calls == if ends then x.calls[n := Finishing(op.id)] else x.calls - {n}
    else
      && x'.history == x.history && x'.s == x.s && x.s.pending != []
      && x'.calls == x.calls[n := Admitting(size, ends, x.s.pending[0].id)]
  }

  lemma TryTakes(x: World, n: int, size: nat, ends: bool)
    ensures TakenIffRoom(x, n, size, ends, Try(x, n, size, ends))
  {
  }

  /** Over every run: a call is admitted at once if and only if the scheduler is
      open and nothing is pending, or fewer than 64 operations are and 32 KiB are
      not exceeded; the same when it goes on after a wait. */
  lemma AdmittedIffRoom(steps: seq<Step>, x: World, n: int, size: nat, ends: bool)
    requires Run(steps, x)
    ensures n !in x.calls ==>
              var x' := Next(x, EnterStep(n, size, ends));
              if x.s.closed || x.s.error.Some? then x' == Note(x, Raised) else TakenIffRoom(x, n, size, ends, x')
    ensures May(x, AgainStep(n)) ==>
              var x', call := Next(x, AgainStep(n)), x.calls[n];
              if x.s.closed || x.s.error.Some? then x' == Note(Drop(x, n), Raised)
              else TakenIffRoom(x, n, call.size, call.ends, x')
  {
    RunsAreGood(steps, x);
    TryTakes(x, n, size, ends);
    if May(x, AgainStep(n)) && !Unavailable(x.s) {
      OldestSucceeded(x, n);
      TryTakes(x, n, x.calls[n].size, x.calls[n].ends);
    }
  }

  lemma OldestSucceeded(x: World, n: int)
    requires Good(x) && May(x, AgainStep(n)) && !Unavailable(x.s)
    ensures x.completed[x.calls[n].oldest] == None
  {
  }

  /** When the loop looks at an open queue it takes the first 32 operations, or
      all there are, and applies them in order; where one raises, those before
      it. */
  lemma BatchTakesTheFirst(x: World, step: Step, faultAt: nat, e: int)
    requires May(x, step) && !x.s.closed && x.s.error == None && x.s.queue != []
    requires step == TurnStep(faultAt, e) || step == UnparkStep(faultAt, e)
    ensures var x', n := Next(x, step), if |x.s.queue| < 32 then |x.s.queue| else 32;
            if faultAt < n then
              && x'.runner == Ended && x'.history == Then(AppliedAll(x.history, x.s.queue[..faultAt]), Broke)
            else
              && x'.runner == Flushing(x.s.queue[..n]) && x'.s.queue == x.s.queue[n..]
              && x'.history == AppliedAll(x.history, x.s.queue[..n])
  {
    var n := BatchLength(x.s.queue, faultAt);
    assert Front(x.s.queue[..n]) == x.s.queue[..n - 1];
  }

  /** Over every run: a call that ends a stream comes back normally if and only
      if a flush has covered its operation. */
  lemma EndReturnsIff(steps: seq<Step>, x: World, n: int)
    requires Run(steps, x) && May(x, FinishStep(n))
    ensures Next(x, FinishStep(n)).history
            == Then(x.history, if x.calls[n].id < FlushedCount(x.history) then Returned(x.calls[n].id) else Raised)
  {
    RunsAreGood(steps, x);
  }

  /** Once `run` has ended nothing is left queued or pending and every admitted
      operation is complete; once the scheduler has an error or is closed
      nothing more is admitted. */
  lemma NothingIsStranded(steps: seq<Step>, x: World, step: Step, id: nat)
    requires Run(steps, x) && May(x, step)
    ensures x.runner == Ended ==> x.s.queue == [] && x.s.pending == [] && Unavailable(x.s)
    ensures x.runner == Ended && id < AdmittedCount(x.history) ==> id in x.completed
    ensures Unavailable(x.s) ==> Unavailable(Next(x, step).s)
    ensures Unavailable(x.s) ==> AdmittedCount(Next(x, step).history) == AdmittedCount(x.history)
  {
    RunsAreGood(steps, x);
    Keep(x, step);
    if Unavailable(x.s) {
      StaysUnavailable(x, step, Next(x, step));
    }
  }

  lemma BreakAdmitsNothing(x: World, batch: seq<Op>, e: int)
    ensures AdmittedCount(DoBreak(x, batch, e).history) == AdmittedCount(x.history)
    ensures BrokeIn(DoBreak(x, batch, e).history)
  {
  }

  lemma StaysUnavailable(x: World, step: Step, x': World)
    requires Shape(x) && Shape(x') && Unavailable(x.s) && May(x, step) && x' == Next(x, step)
    ensures Unavailable(x'.s) && AdmittedCount(x'.history) == AdmittedCount(x.history)
  {
    if step.FlushedStep? && step.fault.Some? {
      BreakAdmitsNothing(x, x.runner.batch, step.fault.value);
    }
  }

  /** What `run`'s task does next when nothing raises. */
  function Own(r: Runner): Step
  {
    match r
    case Parked => UnparkStep(MAX_BATCHED_SENDS, 0)
    case Flushing(_) => FlushedStep(None)
    case _ => TurnStep(MAX_BATCHED_SENDS, 0)
  }

  predicate IsPending(s: Sched, id: nat)
  {
    exists i :: 0 <= i < |s.pending| && s.pending[i].id == id
  }

  /** The operation a suspended call waits for. */
  function Awaited(c: Call): nat { if c.Admitting? then c.oldest else c.id }

  lemma AwaitedIsPending(x: World, id: nat)
    requires Good(x) && id < AdmittedCount(x.history) && id !in x.completed
    ensures IsPending(x.s, id) && x.runner != Ended
  {
    assert x.s.pending[id - FlushedCount(x.history)].id == id;
  }

  lemma OwnIsEnabled(x: World)
    requires Shape(x) && x.runner != Ended && (x.s.queue != [] || x.runner.Flushing?)
    ensures May(x, Own(x.runner))
  {
  }

  /** `run`'s task parks only with nothing to do; a call that waits waits
      for a pending operation, and then that task can go on. */
  lemma NoLostWakeUp(steps: seq<Step>, x: World, n: int)
    requires Run(steps, x)
    ensures x.runner == Parked && !x.s.hasData ==> x.s.queue == [] && !x.s.closed
    ensures n in x.calls && Awaited(x.calls[n]) !in x.completed ==>
              IsPending(x.s, Awaited(x.calls[n])) && May(x, Own(x.runner))
  {
    RunsAreGood(steps, x);
    if n in x.calls && Awaited(x.calls[n]) !in x.completed {
      AwaitedIsPending(x, Awaited(x.calls[n]));
      OwnIsEnabled(x);
    }
  }

  lemma RunSnoc(steps: seq<Step>, mid: World, step: Step)
    requires Run(steps, mid) && May(mid, step)
    ensures Run(steps + [step], Next(mid, step))
  {
    assert Front(steps + [step]) == steps;
  }

  predicate IsOwn(step: Step)
  {
    step.TurnStep? || step.UnparkStep? || step.FlushedStep?
  }

  predicate OwnFrom(steps: seq<Step>, k: nat) { forall i :: k <= i < |steps| ==> IsOwn(steps[i]) }

  lemma OwnStepAdvances(x: World, x': World)
    requires Good(x) && x.s.pending != [] && May(x, Own(x.runner)) && x' == Next(x, Own(x.runner))
    ensures if x.runner.Flushing? then |x'.s.pending| < |x.s.pending|
            else x'.runner.Flushing? && x'.s.pending == x.s.pending
    ensures x'.calls == x.calls && AdmittedCount(x'.history) == AdmittedCount(x.history)
  {
    if x.runner.Flushing? {
      CompletesFront(x.s, x.runner.batch, x.s.queue);
    } else {
      AppliedCounts(x.history, x.s.queue[..BatchLength(x.s.queue, MAX_BATCHED_SENDS)]);
    }
  }

  lemma AllCanGoOn(x: World)
    requires Good(x) && x.s.pending == []
    ensures forall n :: n in x.calls ==> May(x, if x.calls[n].Admitting? then AgainStep(n) else FinishStep(n))
  {
  }

  /** From every reached state `run`'s task, when nothing raises, completes
      everything pending by its own steps: every suspended call can go on. */
  lemma {:induction false} EverythingCompletes(done: seq<Step>, x: World) returns (steps: seq<Step>, x': World)
    requires Run(done, x) && Good(x)
    ensures Run(steps, x') && done <= steps && OwnFrom(steps, |done|)
    ensures x'.s.pending == [] && x'.calls == x.calls && Good(x')
    decreases |x.s.pending|, if x.runner.Flushing? then 0 else 1
  {
    if x.s.pending == [] {
      steps, x' := done, x;
    } else {
      OwnIsEnabled(x);
      Keep(x, Own(x.runner));
      var mid := Next(x, Own(x.runner));
      OwnStepAdvances(x, mid);
      RunSnoc(done, x, Own(x.runner));
      steps, x' := EverythingCompletes(done + [Own(x.runner)], mid);
    }
  }

  lemma EveryCallGoesOn(done: seq<Step>, x: World) returns (steps: seq<Step>, x': World)
    requires Run(done, x)
    ensures Run(steps, x') && done <= steps && OwnFrom(steps, |done|) && x'.calls == x.calls
    ensures forall n :: n in x.calls ==> May(x', if x.calls[n].Admitting? then AgainStep(n) else FinishStep(n))
  {
    RunsAreGood(done, x);
    steps, x' := EverythingCompletes(done, x);
    AllCanGoOn(x');
  }
}
