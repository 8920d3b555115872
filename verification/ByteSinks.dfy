/** What a buffered writer promises, whichever event loop it runs on: a sink of
    bytes that keeps order, with barriers, one end and at most one failure.

    A history lists what can be observed of a writer.  Nothing in this module
    looks inside one. */
module ByteSinks {
  import opened Common

  datatype Obs =
    /** The writer was started. */
    | Opened
    | Accepted(data: Bytes)
    | Refused
    /** A call of `drain` or `stop` has looked at the writer for the first time. */
    | Called(call: int, stop: bool)
    /** The transport has taken these bytes. */
    | Wrote(data: Bytes)
    /** The writer has recorded its error. */
    | Broke
    | Returned(call: int)
    | Raised(call: int)

  /** Everything observed so far, the latest observation outermost. */
  datatype History = Start | Then(past: History, obs: Obs)

  function Items(h: History): seq<Bytes>
  {
    match h
    case Start => []
    case Then(past, Accepted(data)) => Items(past) + [data]
    case Then(past, _) => Items(past)
  }

  function Written(h: History): Bytes
  {
    match h
    case Start => []
    case Then(past, Wrote(data)) => Written(past) + data
    case Then(past, _) => Written(past)
  }

  /** What had been accepted when the call began. */
  function ItemsAt(h: History, call: int): seq<Bytes>
  {
    match h
    case Start => []
    case Then(past, Called(n, _)) => if n == call then Items(past) else ItemsAt(past, call)
    case Then(past, _) => ItemsAt(past, call)
  }

  predicate IsStop(h: History, call: int)
  {
    match h
    case Start => false
    case Then(past, Called(n, stop)) => if n == call then stop else IsStop(past, call)
    case Then(past, _) => IsStop(past, call)
  }

  predicate OpenIn(h: History)
  {
    match h
    case Start => false
    case Then(past, Opened) => true
    case Then(past, _) => OpenIn(past)
  }

  /** Whether the writer was started when the call began. */
  predicate FoundOpen(h: History, call: int)
  {
    match h
    case Start => false
    case Then(past, Called(n, _)) => if n == call then OpenIn(past) else FoundOpen(past, call)
    case Then(past, _) => FoundOpen(past, call)
  }

  /** A started writer was stopped; a stop before the start is forgotten. */
  predicate StopIn(h: History)
  {
    match h
    case Start => false
    case Then(past, Called(_, stop)) => (stop && OpenIn(past)) || StopIn(past)
    case Then(past, _) => StopIn(past)
  }

  predicate BrokeIn(h: History)
  {
    match h
    case Start => false
    case Then(past, Broke) => true
    case Then(past, _) => BrokeIn(past)
  }

  /** What may be observed next. */
  predicate Allowed(h: History, obs: Obs)
  {
    match obs
    case Opened => !OpenIn(h)
    case Accepted(data) => data != [] && OpenIn(h) && !StopIn(h) && !BrokeIn(h)
    case Refused => StopIn(h) || BrokeIn(h) || !OpenIn(h)
    case Called(_, _) => true
    case Wrote(data) => !BrokeIn(h) && Written(h) + data <= Concat(Items(h))
    case Broke => !BrokeIn(h)
    case Returned(n) =>
      && Concat(ItemsAt(h, n)) <= Written(h)
      && (IsStop(h, n) ==> Written(h) == Concat(Items(h)))
    case Raised(_) => BrokeIn(h)
  }

  predicate Faithful(h: History)
  {
    match h
    case Start => true
    case Then(past, obs) => Faithful(past) && Allowed(past, obs)
  }

  predicate Extends(h: History, past: History)
  {
    h == past || (h.Then? && Extends(h.past, past))
  }

  /** In a faithful history the written bytes are always the first of the
      accepted ones. */
  lemma {:induction false} WrittenIsAPrefix(h: History)
    requires Faithful(h)
    ensures Written(h) <= Concat(Items(h))
  {
    match h
    case Start =>
    case Then(past, obs) =>
      WrittenIsAPrefix(past);
      if obs.Accepted? {
        ConcatSnoc(Items(past), obs.data);
      }
  }

  /** After a normal return of a `stop` that found the writer started everything
      is written and stays all there is. */
  lemma {:induction false} StopIsFinal(h: History, past: History, call: int)
    requires Faithful(h) && Extends(h, Then(past, Returned(call))) && IsStop(past, call) && FoundOpen(past, call)
    ensures Items(h) == Items(past) && Written(h) == Concat(Items(h)) && StopIn(h)
  {
    if h == Then(past, Returned(call)) {
      StopsAreSeen(past, call);
    } else {
      StopIsFinal(h.past, past, call);
    }
  }

  lemma {:induction false} StopsAreSeen(h: History, call: int)
    requires IsStop(h, call) && FoundOpen(h, call)
    ensures StopIn(h)
  {
    match h
    case Start =>
    case Then(past, obs) =>
      if obs.Called? && obs.call == call {
      } else {
        StopsAreSeen(past, call);
      }
  }

  lemma {:induction false} ItemsAtArePrefix(h: History, call: int)
    ensures ItemsAt(h, call) <= Items(h)
  {
    match h
    case Start =>
    case Then(past, obs) => ItemsAtArePrefix(past, call);
  }

  lemma ConcatOfPrefix(a: seq<Bytes>, b: seq<Bytes>)
    requires a <= b
    ensures Concat(a) <= Concat(b)
  {
    assert b == a + b[|a|..];
    ConcatAppend(a, b[|a|..]);
  }

  /** How often bytes were written after the first call of `stop`. */
  function WritesSinceStop(h: History): nat
  {
    match h
    case Start => 0
    case Then(past, Wrote(_)) => WritesSinceStop(past) + if StopIn(past) then 1 else 0
    case Then(past, _) => WritesSinceStop(past)
  }

  /** What a caller may rely on once its call came back normally at `past`: all
      that was accepted before the call is written; if it was a stop, all there
      is is written; and if that stop found the writer started, nothing is
      accepted ever after. */
  predicate WordKept(h: History, past: History, call: int)
  {
    && Concat(ItemsAt(past, call)) <= Written(past)
    && (IsStop(past, call) ==> Written(past) == Concat(Items(past)))
    && (IsStop(past, call) && FoundOpen(past, call) ==>
          Items(h) == Items(past) && Written(h) == Concat(Items(h)))
  }

  lemma {:induction false} WordIsKept(h: History, past: History, call: int)
    requires Faithful(h) && Extends(h, Then(past, Returned(call)))
    ensures WordKept(h, past, call)
    decreases h
  {
    if IsStop(past, call) && FoundOpen(past, call) {
      StopIsFinal(h, past, call);
    }
    if h == Then(past, Returned(call)) {
    } else {
      WordIsKept(h.past, past, call);
    }
  }
}
