/** The HTTP/3 send scheduler: what each of its operations computes, on values,
    and the objects that compute it. */
module H3Sends {
  import opened Common

  const MAX_BATCHED_SENDS := 32
  const MAX_PENDING_SENDS := 64
  const MAX_PENDING_BYTES := 32 * 1024

  /** A queued operation; `id` counts admissions. */
  datatype Op = Op(id: nat, size: nat)

  datatype Sched = Sched(
    closed: bool, error: Option<int>, pending: seq<Op>, pendingBytes: int, queue: seq<Op>, hasData: bool)

  const NEW_SCHED := Sched(false, None, [], 0, [], false)

  predicate MustWait(s: Sched, size: nat)
  {
    s.pending != []
    && (|s.pending| >= MAX_PENDING_SENDS || s.pendingBytes + size > MAX_PENDING_BYTES)
  }

  /** What the limits promise: an operation is taken when nothing is pending, or
      when with it at most 64 operations and 32 KiB are. */
  predicate HasRoom(s: Sched, size: nat)
  {
    s.pending == [] || (|s.pending| + 1 <= 64 && s.pendingBytes + size <= 32768)
  }

  function Admit(s: Sched, op: Op): Sched
  {
    s.(queue := s.queue + [op], pending := s.pending + [op],
       pendingBytes := s.pendingBytes + op.size, hasData := true)
  }

  function Removed(ops: seq<Op>, op: Op): seq<Op>
  {
    if ops == [] then [] else if ops[0] == op then ops[1..] else [ops[0]] + Removed(ops[1..], op)
  }

  function Completed(s: Sched, op: Op): Sched
  {
    if op in s.pending then
      s.(pending := Removed(s.pending, op), pendingBytes := s.pendingBytes - op.size)
    else s
  }

  function CompletedAll(s: Sched, ops: seq<Op>): Sched
    decreases |ops|
  {
    if ops == [] then s else CompletedAll(Completed(s, ops[0]), ops[1..])
  }

  function FailedPending(s: Sched): Sched
    decreases |s.queue|
  {
    if s.queue == [] then s else FailedPending(Completed(s.(queue := s.queue[1..]), s.queue[0]))
  }

  /** Whether the batch meets an operation that raises, the one at `faultAt`. */
  predicate Raises(queue: seq<Op>, faultAt: nat) { faultAt < Min(|queue|, MAX_BATCHED_SENDS) }

  /** How many operations a batch takes from the queue. */
  function BatchLength(queue: seq<Op>, faultAt: nat): nat
  {
    if Raises(queue, faultAt) then faultAt + 1 else Min(|queue|, MAX_BATCHED_SENDS)
  }

  lemma {:induction false} RemovedAt(ops: seq<Op>, i: nat)
    requires i < |ops| && forall j :: 0 <= j < i ==> ops[j] != ops[i]
    ensures Removed(ops, ops[i]) == ops[..i] + ops[i + 1..]
    decreases i
  {
    if i == 0 {
    } else {
      RemovedAt(ops[1..], i - 1);
      assert ops[1..][..i - 1] == ops[1..i] && ops[1..][i..] == ops[i + 1..];
      assert [ops[0]] + ops[1..i] == ops[..i];
    }
  }

  class Operation {
    ghost const id: nat
    const size: nat
    var complete: bool
    var error: Option<int>

    constructor (ghost id: nat, size: nat)
      ensures this.id == id && this.size == size && !complete && error == None
    {
      this.id, this.size := id, size;
      complete, error := false, None;
    }

    ghost function View(): Op { Op(id, size) }
  }

  ghost function OpsOf(operations: seq<Operation>): seq<Op>
  {
    seq(|operations|, i requires 0 <= i < |operations| => operations[i].View())
  }

  datatype Admission = Admitted | Waits(oldest: Operation) | Fails(error: int) | ClosedOut

  class H3SendScheduler {
    var closed: bool
    var error: Option<int>
    var pending: seq<Operation>
    var pendingBytes: int
    var queue: seq<Operation>
    var hasData: bool
    /** What the connection was made to send. */
    ghost var applied: seq<Op>

    ghost function View(): Sched
      reads this
    {
      Sched(closed, error, OpsOf(pending), pendingBytes, OpsOf(queue), hasData)
    }

    /** No two objects stand for the same operation. */
    ghost predicate Known(operations: set<Operation>)
    {
      forall a, b :: a in operations && b in operations && a.id == b.id ==> a == b
    }

    ghost function Operations(): set<Operation>
      reads this
    {
      (set o | o in pending) + (set o | o in queue)
    }

    constructor ()
      ensures View() == NEW_SCHED && Operations() == {}
    {
      closed, error, pending, pendingBytes, queue, hasData := false, None, [], 0, [], false;
      applied := [];
    }

    /** `_enqueue` from its loop on: whether there is room, or what to wait for. */
    method TryAdmit(operation: Operation) returns (r: Admission)
      modifies this`queue, this`pending, this`pendingBytes, this`hasData
      ensures r == if HasRoom(old(View()), operation.size) then Admitted else Waits(old(pending)[0])
      ensures View() == if r.Admitted? then Admit(old(View()), operation.View()) else old(View())
    {
      if |pending| > 0
         && (|pending| >= MAX_PENDING_SENDS || pendingBytes + operation.size > MAX_PENDING_BYTES) {
        return Waits(pending[0]);
      }
      queue := queue + [operation];
      pending := pending + [operation];
      pendingBytes := pendingBytes + operation.size;
      hasData := true;
      return Admitted;
    }

    /** `_enqueue` from its start. */
    method Enqueue(operation: Operation) returns (r: Admission)
      modifies this`queue, this`pending, this`pendingBytes, this`hasData
      ensures old(closed) ==> r == ClosedOut
      ensures !old(closed) && old(error).Some? ==> r == Fails(old(error).value)
      ensures !old(closed) && old(error) == None ==>
                r == if HasRoom(old(View()), operation.size) then Admitted else Waits(old(pending)[0])
      ensures View() == if r.Admitted? then Admit(old(View()), operation.View()) else old(View())
    {
      if closed {
        return ClosedOut;
      }
      if error.Some? {
        return Fails(error.value);
      }
      r := TryAdmit(operation);
    }

    /** `_enqueue` from the completion of the operation it waited for. */
    method Resume(operation: Operation, oldest: Operation) returns (r: Admission)
      modifies this`queue, this`pending, this`pendingBytes, this`hasData
      ensures oldest.error.Some? ==> r == Fails(oldest.error.value)
      ensures oldest.error == None && old(error).Some? ==> r == Fails(old(error).value)
      ensures oldest.error == None && old(error) == None && old(closed) ==> r == ClosedOut
      ensures oldest.error == None && old(error) == None && !old(closed) ==>
                r == if HasRoom(old(View()), operation.size) then Admitted else Waits(old(pending)[0])
      ensures View() == if r.Admitted? then Admit(old(View()), operation.View()) else old(View())
    {
      if oldest.error.Some? {
        return Fails(oldest.error.value);
      }
      if error.Some? {
        return Fails(error.value);
      }
      if closed {
        return ClosedOut;
      }
      r := TryAdmit(operation);
    }

    /** `_complete`. */
    method Complete(operation: Operation)
      requires Known(Operations() + {operation})
      modifies this`pending, this`pendingBytes, operation`complete
      ensures View() == Completed(old(View()), operation.View()) && operation.complete
      ensures Operations() <= old(Operations())
    {
      ghost var ops, op := OpsOf(pending), operation.View();
      var i := 0;
      while i < |pending| && pending[i] != operation
        invariant 0 <= i <= |pending|
        invariant forall j :: 0 <= j < i ==> ops[j] != op
      {
        assert pending[i] in Operations();
        i := i + 1;
      }
      if i < |pending| {
        RemovedAt(ops, i);
        pending := pending[..i] + pending[i + 1..];
        pendingBytes := pendingBytes - operation.size;
        assert OpsOf(pending) == ops[..i] + ops[i + 1..];
        assert ops[i] == op;
      }
      operation.complete := true;
    }

    method PopLeft()
      requires queue != []
      modifies this`queue
      ensures queue == old(queue)[1..]
      ensures View() == old(View()).(queue := old(View()).queue[1..])
      ensures Operations() <= old(Operations())
    {
      queue := queue[1..];
      assert OpsOf(queue) == old(View()).queue[1..];
    }

    /** One turn of the loop of `_fail_pending`. */
    method FailFirst(e: int)
      requires Known(Operations()) && queue != []
      modifies this`queue, this`pending, this`pendingBytes, queue[0]
      ensures View() == Completed(old(View()).(queue := old(View()).queue[1..]), old(View()).queue[0])
      ensures queue == old(queue)[1..] && Operations() <= old(Operations())
      ensures old(queue[0]).complete && old(queue[0]).error == Some(e)
    {
      var operation := queue[0];
      assert operation in Operations();
      PopLeft();
      operation.error := Some(e);
      Complete(operation);
    }

    /** `_fail_pending`. */
    method FailPending(e: int)
      requires Known(Operations())
      modifies this`queue, this`pending, this`pendingBytes, queue
      ensures View() == FailedPending(old(View()))
      ensures forall o :: o in old(queue) ==> o.complete && o.error == Some(e)
      ensures Operations() <= old(Operations())
    {
      ghost var done: seq<Operation> := [];
      while |queue| > 0
        invariant FailedPending(View()) == FailedPending(old(View()))
        invariant done + queue == old(queue)
        invariant forall o :: o in done ==> o.complete && o.error == Some(e)
        invariant Operations() <= old(Operations())
      {
        assert queue[0] in old(queue);
        done := done + [queue[0]];
        FailFirst(e);
      }
    }

    /** The first half of `_send_ready_batch`: operations are taken and applied
        until one raises, the one at `faultAt`, or the batch is full. */
    method ApplyBatch(faultAt: nat) returns (processed: seq<Operation>, needsFlush: bool, raised: bool)
      modifies this`queue, this`applied
      ensures raised <==> faultAt < 32 && faultAt < |old(queue)|
      ensures |processed| == if raised then faultAt + 1 else Min(|old(queue)|, 32)
      ensures processed == old(queue)[..|processed|]
      ensures queue == old(queue)[|processed|..]
      ensures applied == old(applied) + OpsOf(if raised then Front(processed) else processed)
      ensures needsFlush <==> (if raised then |processed| > 1 else |processed| > 0)
    {
      processed, needsFlush, raised := [], false, false;
      assert applied == old(applied) + OpsOf([]);
      while |queue| > 0 && |processed| < MAX_BATCHED_SENDS
        invariant |processed| <= MAX_BATCHED_SENDS && |processed| <= |old(queue)|
        invariant |processed| <= faultAt
        invariant processed == old(queue)[..|processed|] && queue == old(queue)[|processed|..]
        invariant applied == old(applied) + OpsOf(processed)
        invariant needsFlush <==> |processed| > 0
      {
        var operation := queue[0];
        queue := queue[1..];
        processed := processed + [operation];
        if |processed| == faultAt + 1 {
          assert Front(processed) == old(queue)[..faultAt];
          return processed, needsFlush, true;
        }
        assert OpsOf(processed) == OpsOf(Front(processed)) + [operation.View()];
        applied := applied + [operation.View()];
        needsFlush := true;
      }
    }

    /** The second half: the flush is over, or there was an error. */
    method FinishBatch(processed: seq<Operation>, fault: Option<int>)
      requires Known(Operations() + (set o | o in processed))
      modifies this`error, this`pending, this`pendingBytes, this`hasData, processed
      ensures var failed := old(View()).(error := if fault.Some? then fault else old(error));
              var s := CompletedAll(failed, OpsOf(processed));
              View() == if s.queue != [] && s.error == None then s.(hasData := true) else s
      ensures forall o :: o in processed ==> o.complete && (fault.Some? ==> o.error == fault)
      ensures forall o :: o in processed && fault == None ==> o.error == old(o.error)
    {
      if fault.Some? {
        error := fault;
        MarkAll(processed, fault);
      }
      CompleteEach(processed);
      if |queue| > 0 && error == None {
        hasData := true;
      }
    }

    method MarkAll(processed: seq<Operation>, fault: Option<int>)
      modifies processed`error
      ensures forall o :: o in processed ==> o.error == fault
    {
      for i := 0 to |processed|
        invariant forall j :: 0 <= j < i ==> processed[j].error == fault
      {
        processed[i].error := fault;
      }
    }

    method CompleteEach(processed: seq<Operation>)
      requires Known(Operations() + (set o | o in processed))
      modifies this`pending, this`pendingBytes, processed`complete
      ensures View() == CompletedAll(old(View()), OpsOf(processed))
      ensures forall o :: o in processed ==> o.complete
    {
      for i := 0 to |processed|
        invariant CompletedAll(View(), OpsOf(processed[i..])) == CompletedAll(old(View()), OpsOf(processed))
        invariant forall j :: 0 <= j < i ==> processed[j].complete
        invariant Operations() <= old(Operations())
      {
        assert OpsOf(processed[i..])[1..] == OpsOf(processed[i + 1..]);
        Complete(processed[i]);
      }
    }

    method Close(e: int)
      requires Known(Operations())
      modifies this`closed, this`queue, this`pending, this`pendingBytes, this`hasData, queue
      ensures View() == FailedPending(old(View()).(closed := true)).(hasData := true)
      ensures forall o :: o in old(queue) ==> o.complete && o.error == Some(e)
    {
      closed := true;
      FailPending(e);
      hasData := true;
    }
  }
}
