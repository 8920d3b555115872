/** The trio socket writer: what each block under its condition computes, on
    values, and the object that computes it. */
module TrioWriters {
  import opened Common

  datatype Entry = Entry(number: nat, data: Bytes)

  datatype Writer = Writer(
    buffered: int, closing: bool, completed: nat, error: Option<int>, hasData: bool,
    highWater: nat, queue: seq<Entry>, started: bool, stopped: bool, submitted: nat)

  function NewWriter(highWater: nat): Writer
  {
    Writer(0, false, 0, None, false, highWater, [], false, false, 0)
  }

  function DatasOf(entries: seq<Entry>): seq<Bytes>
  {
    if entries == [] then [] else [entries[0].data] + DatasOf(entries[1..])
  }

  datatype SendResult = SendSkipped | SendDone | SendWaits | SendFails(error: int) | SendClosed

  predicate Full(w: Writer, data: Bytes) { w.buffered > 0 && w.buffered + |data| > w.highWater }

  function Enqueued(w: Writer, data: Bytes): Writer
  {
    w.(submitted := w.submitted + 1, queue := w.queue + [Entry(w.submitted + 1, data)],
       buffered := w.buffered + |data|, hasData := true)
  }

  /** One turn of `send`, from its start or from its wake-up. */
  function SendBlock(w: Writer, data: Bytes): (Writer, SendResult)
  {
    if data == [] then (w, SendSkipped)
    else if w.error.Some? then (w, SendFails(w.error.value))
    else if !w.started || w.closing then (w, SendClosed)
    else if Full(w, data) then (w, SendWaits)
    else (Enqueued(w, data), SendDone)
  }

  predicate StillWaits(w: Writer, target: nat) { w.completed < target && w.error == None }

  datatype Turn = Leave | Again | Write(batch: seq<Entry>)

  /** The first block of the loop of `run`. */
  function TakeBlock(w: Writer): (Writer, Turn)
  {
    var w' := w.(hasData := false, queue := []);
    if w.queue != [] then (w', Write(w.queue))
    else if w.closing then (w', Leave)
    else (w', Again)
  }

  /** The second one, after the payload was written. */
  function Finished(w: Writer, batch: seq<Entry>): Writer
    requires batch != []
  {
    w.(buffered := w.buffered - |Concat(DatasOf(batch))|, completed := Last(batch).number,
       hasData := w.hasData || w.closing)
  }

  /** The handler of an error of the transport. */
  function Failed(w: Writer, error: int): Writer
  {
    w.(error := Some(error), queue := [], buffered := 0, completed := w.submitted)
  }

  lemma {:induction false} DatasAppend(a: seq<Entry>, b: seq<Entry>)
    ensures DatasOf(a + b) == DatasOf(a) + DatasOf(b)
    decreases |a|
  {
    if a == [] {
      assert a + b == b;
    } else {
      assert (a + b)[0] == a[0] && (a + b)[1..] == a[1..] + b;
      DatasAppend(a[1..], b);
    }
  }

  lemma DatasSnoc(a: seq<Entry>, e: Entry)
    ensures DatasOf(a + [e]) == DatasOf(a) + [e.data]
  {
    DatasAppend(a, [e]);
    assert [e][1..] == [];
  }

  /** The one payload of a batch. */
  method Payload(batch: seq<Entry>) returns (payload: Bytes)
    requires batch != []
    ensures payload == Concat(DatasOf(batch))
  {
    payload := [];
    if |batch| == 1 {
      DatasSnoc([], batch[0]);
      ConcatSnoc([], batch[0].data);
      assert batch == [] + [batch[0]];
      return batch[0].data;
    }
    for i := 0 to |batch|
      invariant payload == Concat(DatasOf(batch[..i]))
    {
      assert batch[..i + 1] == batch[..i] + [batch[i]];
      DatasSnoc(batch[..i], batch[i]);
      ConcatSnoc(DatasOf(batch[..i]), batch[i].data);
      payload := payload + batch[i].data;
    }
    assert batch[..|batch|] == batch;
  }

  class BufferedWriter {
    const highWater: nat
    var buffered: int
    var closing: bool
    var completed: nat
    var error: Option<int>
    var hasData: bool
    var queue: seq<Entry>
    var started: bool
    var stopped: bool
    var submitted: nat

    ghost function View(): Writer
      reads this
    {
      Writer(buffered, closing, completed, error, hasData, highWater, queue, started, stopped, submitted)
    }

    constructor (highWater: nat)
      ensures View() == NewWriter(highWater)
    {
      this.highWater := highWater;
      buffered, closing, completed, error, hasData := 0, false, 0, None, false;
      queue, started, stopped, submitted := [], false, false, 0;
    }

    /** Says whether `run`'s task has to be spawned. */
    method Start() returns (spawn: bool)
      modifies this`started
      ensures spawn == !old(started) && View() == old(View()).(started := true)
    {
      if started {
        return false;
      }
      started := true;
      return true;
    }

    method TrySend(data: Bytes) returns (r: SendResult)
      modifies this
      ensures (View(), r) == SendBlock(old(View()), data)
    {
      if data == [] {
        return SendSkipped;
      }
      if error.Some? {
        return SendFails(error.value);
      }
      if !started || closing {
        return SendClosed;
      }
      if buffered > 0 && buffered + |data| > highWater {
        return SendWaits;
      }
      submitted := submitted + 1;
      queue := queue + [Entry(submitted, data)];
      buffered := buffered + |data|;
      hasData := true;
      return SendDone;
    }

    method MustWait(target: nat) returns (wait: bool)
      ensures wait == StillWaits(View(), target)
    {
      return completed < target && error == None;
    }

    method BeginStop() returns (target: nat)
      modifies this
      ensures View() == old(View()).(closing := true, hasData := true)
      ensures target == old(View()).submitted
    {
      closing := true;
      target := submitted;
      hasData := true;
    }

    method TakeBatch() returns (turn: Turn)
      modifies this
      ensures (View(), turn) == TakeBlock(old(View()))
    {
      if |queue| == 0 {
        hasData := false;
        return if closing then Leave else Again;
      }
      turn := Write(queue);
      queue := [];
      hasData := false;
    }

    method Finish(batch: seq<Entry>, payload: Bytes)
      requires batch != [] && payload == Concat(DatasOf(batch))
      modifies this
      ensures View() == Finished(old(View()), batch)
    {
      buffered := buffered - |payload|;
      completed := batch[|batch| - 1].number;
      if closing {
        hasData := true;
      }
    }

    method Fail(error: int)
      modifies this
      ensures View() == Failed(old(View()), error)
    {
      this.error := Some(error);
      queue := [];
      buffered := 0;
      completed := submitted;
    }

    method SetStopped()
      modifies this`stopped
      ensures View() == old(View()).(stopped := true)
    {
      stopped := true;
    }
  }
}
