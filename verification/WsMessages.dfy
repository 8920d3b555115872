/** How WebSocket messages are put together from fragments. */
module WsMessages {
  import opened Common

  datatype Kind = Text | Binary

  /** A fragment as the library hands it over: characters of a text message,
      bytes of a binary one. */
  datatype Fragment = Fragment(kind: Kind, data: seq<int>, finished: bool)

  datatype Event = Message(fragment: Fragment) | Ping | Other

  datatype Received = Received(kind: Kind, data: seq<int>)

  /** The buffer: what was put together so far and the length that counts. */
  datatype Partial = Partial(value: Option<Received>, length: nat)

  const EMPTY := Partial(None, 0)

  datatype Extension = Extended | TooLarge | WrongType

  function Extend(p: Partial, f: Fragment, limit: nat): (Partial, Extension)
  {
    var v := if p.value == None then Received(f.kind, []) else p.value.value;
    if v.kind != f.kind then (p, WrongType)
    else
      var p' := Partial(Some(v.(data := v.data + f.data)), p.length + |f.data|);
      (p', if p'.length > limit then TooLarge else Extended)
  }

  /** `closes` counts the close frames sent for messages too big; `crashed` once
      writing a fragment has raised; `handled` are the fragments taken so far. */
  datatype Assembly = Assembly(
    partial: Partial, delivered: seq<Received>, pongs: nat, closes: nat, crashed: bool, handled: seq<Fragment>)

  const NEW_ASSEMBLY := Assembly(EMPTY, [], 0, 0, false, [])

  /** One event; whether the loop of `_handle_events` goes on. */
  function Handle(a: Assembly, e: Event, limit: nat): (Assembly, bool)
  {
    match e
    case Message(f) =>
      var (p, ext) := Extend(a.partial, f, limit);
      (match ext
       case WrongType => (a.(crashed := true), false)
       case TooLarge => (a.(partial := p, closes := a.closes + 1, handled := a.handled + [f]), false)
       case Extended =>
         if f.finished then
           (a.(partial := EMPTY, delivered := a.delivered + [p.value.value], handled := a.handled + [f]), true)
         else (a.(partial := p, handled := a.handled + [f]), true))
    case Ping => (a.(pongs := a.pongs + 1), true)
    case Other => (a, true)
  }

  /** `_handle_events`: the events up to the first that breaks the loop, and the
      events left with the library. */
  function HandleAll(a: Assembly, events: seq<Event>, limit: nat): (Assembly, seq<Event>)
    decreases |events|
  {
    if events == [] then (a, [])
    else
      var (a', on) := Handle(a, events[0], limit);
      if on then HandleAll(a', events[1..], limit) else (a', events[1..])
  }

  class WebsocketBuffer {
    const maxLength: nat
    var value: Option<Received>
    var length: nat

    ghost function View(): Partial
      reads this
    {
      Partial(value, length)
    }

    constructor (maxLength: nat)
      ensures View() == EMPTY && this.maxLength == maxLength
    {
      this.maxLength := maxLength;
      value, length := None, 0;
    }

    method ExtendWith(f: Fragment) returns (r: Extension)
      modifies this
      ensures r == Extend(old(View()), f, maxLength).1
      ensures r != WrongType ==> View() == Extend(old(View()), f, maxLength).0
      ensures r == WrongType ==> old(View()).value.Some? && View() == old(View())
    {
      if value == None {
        value := Some(Received(f.kind, []));
      }
      if value.value.kind != f.kind {
        return WrongType;
      }
      value := Some(value.value.(data := value.value.data + f.data));
      length := length + |f.data|;
      return if length > maxLength then TooLarge else Extended;
    }

    method Clear()
      modifies this
      ensures View() == EMPTY
    {
      value, length := None, 0;
    }
  }

  class WSStream {
    const buffer: WebsocketBuffer
    var delivered: seq<Received>
    var pongs: nat
    var closes: nat
    var crashed: bool
    ghost var handled: seq<Fragment>

    ghost function View(): Assembly
      reads this, buffer
    {
      Assembly(buffer.View(), delivered, pongs, closes, crashed, handled)
    }

    constructor (maxLength: nat)
      ensures View() == NEW_ASSEMBLY && buffer.maxLength == maxLength && fresh(buffer)
    {
      buffer := new WebsocketBuffer(maxLength);
      delivered, pongs, closes, crashed, handled := [], 0, 0, false, [];
    }

    method HandleMessage(f: Fragment) returns (goOn: bool)
      modifies this, buffer
      ensures (View(), goOn) == Handle(old(View()), Message(f), buffer.maxLength)
    {
      var r := buffer.ExtendWith(f);
      if r == WrongType {
        crashed := true;
        return false;
      }
      handled := handled + [f];
      if r == TooLarge {
        closes := closes + 1;
        return false;
      }
      if f.finished {
        delivered := delivered + [buffer.value.value];
        buffer.Clear();
      }
      return true;
    }

    /** `_handle_events`; what it leaves stays with the library. */
    method HandleEvents(events: seq<Event>) returns (left: seq<Event>)
      modifies this, buffer
      ensures (View(), left) == HandleAll(old(View()), events, buffer.maxLength)
    {
      left := events;
      while left != []
        invariant HandleAll(View(), left, buffer.maxLength) == HandleAll(old(View()), events, buffer.maxLength)
        decreases |left|
      {
        var e := left[0];
        var goOn := true;
        if e.Message? {
          goOn := HandleMessage(e.fragment);
        } else if e.Ping? {
          pongs := pongs + 1;
        }
        left := left[1..];
        if !goOn {
          return;
        }
      }
    }
  }

  /** The fragments of each finished message, and those of an unfinished one. */
  function Groups(fragments: seq<Fragment>): seq<seq<Fragment>>
  {
    if fragments == [] then []
    else if Last(fragments).finished then
      Groups(Front(fragments)) + [Unfinished(Front(fragments)) + [Last(fragments)]]
    else Groups(Front(fragments))
  }

  function Unfinished(fragments: seq<Fragment>): seq<Fragment>
  {
    if fragments == [] || Last(fragments).finished then []
    else Unfinished(Front(fragments)) + [Last(fragments)]
  }

  function DataOf(group: seq<Fragment>): seq<int>
  {
    if group == [] then [] else DataOf(Front(group)) + Last(group).data
  }

  predicate Proper(groups: seq<seq<Fragment>>)
  {
    forall i :: 0 <= i < |groups| ==> groups[i] != []
  }

  /** What the application should get: the messages up to the first that is
      longer than the limit. */
  function Deliverable(groups: seq<seq<Fragment>>, limit: nat): seq<Received>
    requires Proper(groups)
  {
    if groups == [] || |DataOf(groups[0])| > limit then []
    else [Received(groups[0][0].kind, DataOf(groups[0]))] + Deliverable(groups[1..], limit)
  }

  lemma {:induction false} GroupsAreProper(fragments: seq<Fragment>)
    ensures Proper(Groups(fragments))
    decreases |fragments|
  {
    if fragments == [] {
    } else {
      GroupsAreProper(Front(fragments));
    }
  }

  predicate AllFit(groups: seq<seq<Fragment>>, limit: nat)
  {
    forall i :: 0 <= i < |groups| ==> groups[i] != [] && |DataOf(groups[i])| <= limit
  }

  /** One more message at the end: it is delivered when it and all before it
      keep to the limit, and changes nothing otherwise. */
  lemma {:induction false} DeliverableSnoc(groups: seq<seq<Fragment>>, g: seq<Fragment>, limit: nat)
    requires Proper(groups) && g != []
    ensures Deliverable(groups + [g], limit)
            == if AllFit(groups + [g], limit)
               then Deliverable(groups, limit) + [Received(g[0].kind, DataOf(g))]
               else Deliverable(groups, limit)
    decreases |groups|
  {
    var all := groups + [g];
    if groups == [] {
      assert all == [g] && all[1..] == [];
    } else {
      assert all[0] == groups[0] && all[1..] == groups[1..] + [g];
      DeliverableSnoc(groups[1..], g, limit);
      if |DataOf(groups[0])| <= limit {
        assert AllFit(all, limit) <==> AllFit(all[1..], limit);
      }
    }
  }

  /** The k-th message is delivered, whole, if and only if no message up to it
      is longer than the limit. */
  lemma {:induction false} DeliveredIffAllFitSoFar(groups: seq<seq<Fragment>>, limit: nat, k: nat)
    requires Proper(groups)
    ensures k < |Deliverable(groups, limit)| <==> k < |groups| && AllFit(groups[..k + 1], limit)
    ensures k < |Deliverable(groups, limit)| ==>
              Deliverable(groups, limit)[k] == Received(groups[k][0].kind, DataOf(groups[k]))
              && |Deliverable(groups, limit)[k].data| <= limit
    decreases |groups|
  {
    if groups == [] || |DataOf(groups[0])| > limit || k == 0 {
    } else {
      DeliveredIffAllFitSoFar(groups[1..], limit, k - 1);
      if k < |groups| {
        assert groups[1..][..k] == groups[1..k + 1];
        assert groups[..k + 1] == [groups[0]] + groups[1..k + 1];
      }
    }
  }

  /** No message so far is over the limit, finished or not. */
  predicate WithinLimit(fragments: seq<Fragment>, limit: nat)
  {
    AllFit(Groups(fragments), limit) && |DataOf(Unfinished(fragments))| <= limit
  }

  predicate Fits(a: Assembly, limit: nat) { WithinLimit(a.handled, limit) }

  /** The buffer holds the unfinished message, or is over the limit for good. */
  predicate Well(a: Assembly, limit: nat)
  {
    GroupsAreProper(a.handled);
    var rest := Unfinished(a.handled);
    && a.delivered == Deliverable(Groups(a.handled), limit)
    && if Fits(a, limit) then
         a.partial == if rest == [] then EMPTY
                      else Partial(Some(Received(rest[0].kind, DataOf(rest))), |DataOf(rest)|)
       else a.partial.value.Some? && a.partial.length > limit
  }

  lemma Regroup(fragments: seq<Fragment>, f: Fragment)
    ensures var rest := Unfinished(fragments) + [f];
            && Groups(fragments + [f]) == (if f.finished then Groups(fragments) + [rest] else Groups(fragments))
            && Unfinished(fragments + [f]) == (if f.finished then [] else rest)
            && DataOf(rest) == DataOf(Unfinished(fragments)) + f.data
            && rest[0].kind == (if Unfinished(fragments) == [] then f else Unfinished(fragments)[0]).kind
  {
    var rest := Unfinished(fragments) + [f];
    assert Front(fragments + [f]) == fragments && Front(rest) == Unfinished(fragments);
  }

  lemma TooMuchStays(fragments: seq<Fragment>, f: Fragment, g: seq<seq<Fragment>>, limit: nat)
    requires Proper(Groups(fragments)) && g == Groups(fragments) + [Unfinished(fragments) + [f]]
    requires !WithinLimit(fragments, limit) || |DataOf(Unfinished(fragments) + [f])| > limit
    requires |DataOf(Unfinished(fragments) + [f])| >= |DataOf(Unfinished(fragments))|
    ensures !AllFit(g, limit)
  {
    if |DataOf(Unfinished(fragments) + [f])| > limit {
      assert |DataOf(Last(g))| > limit;
    } else {
      var i :| 0 <= i < |Groups(fragments)| && |DataOf(Groups(fragments)[i])| > limit;
      assert g[i] == Groups(fragments)[i];
    }
  }

  /** A fragment that takes its message over the limit, or follows one that did. */
  lemma OverTheLimit(a: Assembly, f: Fragment, a': Assembly, limit: nat)
    requires Well(a, limit) && a' == Handle(a, Message(f), limit).0
    requires Extend(a.partial, f, limit).1 == TooLarge
    ensures Well(a', limit)
  {
    var rest := Unfinished(a.handled) + [f];
    Regroup(a.handled, f);
    GroupsAreProper(a.handled);
    DeliverableSnoc(Groups(a.handled), rest, limit);
    TooMuchStays(a.handled, f, Groups(a.handled) + [rest], limit);
  }

  /** The buffer after a fragment that fits. */
  lemma ExtendedPartial(a: Assembly, f: Fragment, limit: nat)
    requires Well(a, limit) && Extend(a.partial, f, limit).1 == Extended
    ensures Fits(a, limit)
    ensures var rest := Unfinished(a.handled) + [f];
            && |DataOf(rest)| <= limit
            && Extend(a.partial, f, limit).0
               == Partial(Some(Received(rest[0].kind, DataOf(rest))), |DataOf(rest)|)
  {
    Regroup(a.handled, f);
  }

  lemma AllFitSnoc(groups: seq<seq<Fragment>>, g: seq<Fragment>, limit: nat)
    requires AllFit(groups, limit) && g != [] && |DataOf(g)| <= limit
    ensures Proper(groups) && AllFit(groups + [g], limit)
    ensures Deliverable(groups + [g], limit) == Deliverable(groups, limit) + [Received(g[0].kind, DataOf(g))]
  {
    DeliverableSnoc(groups, g, limit);
  }

  lemma MessageEnds(a: Assembly, f: Fragment, a': Assembly, rest: seq<Fragment>, limit: nat)
    requires Well(a, limit) && Fits(a, limit) && f.finished && rest == Unfinished(a.handled) + [f]
    requires |DataOf(rest)| <= limit && a'.handled == a.handled + [f] && a'.partial == EMPTY
    requires a'.delivered == a.delivered + [Received(rest[0].kind, DataOf(rest))]
    ensures Well(a', limit)
  {
    Regroup(a.handled, f);
    AllFitSnoc(Groups(a.handled), rest, limit);
  }

  lemma MessageGoesOn(a: Assembly, f: Fragment, a': Assembly, rest: seq<Fragment>, limit: nat)
    requires Well(a, limit) && Fits(a, limit) && !f.finished && rest == Unfinished(a.handled) + [f]
    requires |DataOf(rest)| <= limit && a'.handled == a.handled + [f] && a'.delivered == a.delivered
    requires a'.partial == Partial(Some(Received(rest[0].kind, DataOf(rest))), |DataOf(rest)|)
    ensures Well(a', limit)
  {
    Regroup(a.handled, f);
  }

  lemma WithinTheLimit(a: Assembly, f: Fragment, a': Assembly, limit: nat)
    requires Well(a, limit) && a' == Handle(a, Message(f), limit).0
    requires Extend(a.partial, f, limit).1 == Extended
    ensures Well(a', limit)
  {
    ExtendedPartial(a, f, limit);
    if f.finished {
      MessageEnds(a, f, a', Unfinished(a.handled) + [f], limit);
    } else {
      MessageGoesOn(a, f, a', Unfinished(a.handled) + [f], limit);
    }
  }

  lemma Keep(a: Assembly, e: Event, limit: nat)
    requires Well(a, limit)
    ensures Well(Handle(a, e, limit).0, limit)
  {
    if e.Message? {
      match Extend(a.partial, e.fragment, limit).1
      case TooLarge => OverTheLimit(a, e.fragment, Handle(a, e, limit).0, limit);
      case Extended => WithinTheLimit(a, e.fragment, Handle(a, e, limit).0, limit);
      case WrongType =>
    }
  }

  function FragmentsOf(events: seq<Event>): seq<Fragment>
  {
    if events == [] then []
    else (if events[0].Message? then [events[0].fragment] else []) + FragmentsOf(events[1..])
  }

  lemma {:induction false} FragmentsAppend(a: seq<Event>, b: seq<Event>)
    ensures FragmentsOf(a + b) == FragmentsOf(a) + FragmentsOf(b)
    decreases |a|
  {
    if a == [] {
      assert a + b == b;
    } else {
      assert (a + b)[0] == a[0] && (a + b)[1..] == a[1..] + b;
      FragmentsAppend(a[1..], b);
    }
  }

  lemma {:induction false} KeepAll(a: Assembly, events: seq<Event>, limit: nat)
    requires Well(a, limit)
    ensures Well(HandleAll(a, events, limit).0, limit)
    decreases |events|
  {
    if events == [] {
    } else {
      Keep(a, events[0], limit);
      var (a', on) := Handle(a, events[0], limit);
      if on {
        KeepAll(a', events[1..], limit);
      }
    }
  }

  lemma TakenOnce(a: Assembly, e: Event, limit: nat)
    ensures var (a', on) := Handle(a, e, limit);
            && (on && !a.crashed ==> !a'.crashed)
            && (on || !a'.crashed ==> a'.handled == a.handled + FragmentsOf([e]))
            && a'.handled <= a.handled + FragmentsOf([e])
  {
    assert [e][1..] == [];
    assert a.handled + [] == a.handled;
  }

  lemma {:induction false} AllTakenOnce(a: Assembly, events: seq<Event>, limit: nat)
    requires !a.crashed
    ensures var (a', left) := HandleAll(a, events, limit);
            !a'.crashed ==> a.handled + FragmentsOf(events) == a'.handled + FragmentsOf(left)
    decreases |events|
  {
    if events == [] {
    } else {
      TakenOnce(a, events[0], limit);
      FragmentsAppend([events[0]], events[1..]);
      assert [events[0]] + events[1..] == events;
      AppendAssoc(a.handled, FragmentsOf([events[0]]), FragmentsOf(events[1..]));
      var (a', on) := Handle(a, events[0], limit);
      if on {
        AllTakenOnce(a', events[1..], limit);
      }
    }
  }

  /** The stream over any number of receive calls, each bringing more events. */
  function Calls(arrivals: seq<seq<Event>>, limit: nat): (Assembly, seq<Event>)
    decreases |arrivals|
  {
    if arrivals == [] then (NEW_ASSEMBLY, [])
    else
      var (a, left) := Calls(Front(arrivals), limit);
      if a.crashed then (a, left + Last(arrivals)) else HandleAll(a, left + Last(arrivals), limit)
  }

  lemma {:induction false} CallsAreWell(arrivals: seq<seq<Event>>, limit: nat)
    ensures Well(Calls(arrivals, limit).0, limit)
    decreases |arrivals|
  {
    if arrivals == [] {
    } else {
      CallsAreWell(Front(arrivals), limit);
      var (a, left) := Calls(Front(arrivals), limit);
      KeepAll(a, left + Last(arrivals), limit);
    }
  }

  /** Unless writing one raised, every fragment that arrived was taken once, in
      order, or is left with the library after a message too big. */
  lemma {:induction false} NoFragmentIsLost(arrivals: seq<seq<Event>>, limit: nat)
    ensures var (a, left) := Calls(arrivals, limit);
            !a.crashed ==> FragmentsOf(Concat(arrivals)) == a.handled + FragmentsOf(left)
    decreases |arrivals|
  {
    if arrivals == [] {
    } else {
      NoFragmentIsLost(Front(arrivals), limit);
      var (a, left) := Calls(Front(arrivals), limit);
      if !a.crashed {
        AllTakenOnce(a, left + Last(arrivals), limit);
        FragmentsAppend(left, Last(arrivals));
        AppendAssoc(a.handled, FragmentsOf(left), FragmentsOf(Last(arrivals)));
        assert arrivals == Front(arrivals) + [Last(arrivals)];
        ConcatSnoc(Front(arrivals), Last(arrivals));
        FragmentsAppend(Concat(Front(arrivals)), Last(arrivals));
      }
    }
  }
}
