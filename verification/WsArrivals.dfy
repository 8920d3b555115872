/** From the fragments that arrive to the messages the application gets, however
    they are cut into calls, and whatever happens after a message too big. */
module WsArrivals {
  import opened Common
  import opened WsMessages

  function Arrived(arrivals: seq<seq<Event>>): seq<Fragment> { FragmentsOf(Concat(arrivals)) }

  lemma ArrivedSnoc(arrivals: seq<seq<Event>>)
    requires arrivals != []
    ensures Arrived(arrivals) == Arrived(Front(arrivals)) + FragmentsOf(Last(arrivals))
  {
    assert arrivals == Front(arrivals) + [Last(arrivals)];
    ConcatSnoc(Front(arrivals), Last(arrivals));
    FragmentsAppend(Concat(Front(arrivals)), Last(arrivals));
  }

  lemma {:induction false} TakesAPrefix(a: Assembly, events: seq<Event>, limit: nat)
    ensures HandleAll(a, events, limit).0.handled <= a.handled + FragmentsOf(events)
    decreases |events|
  {
    if events == [] {
    } else {
      var (a', on) := Handle(a, events[0], limit);
      TakenOnce(a, events[0], limit);
      FragmentsAppend([events[0]], events[1..]);
      assert [events[0]] + events[1..] == events;
      AppendAssoc(a.handled, FragmentsOf([events[0]]), FragmentsOf(events[1..]));
      if on {
        TakesAPrefix(a', events[1..], limit);
      }
    }
  }

  /** Whether or not writing a fragment has raised: the fragments taken are the
      first of those that arrived. */
  lemma {:induction false} TakenAreThePrefix(arrivals: seq<seq<Event>>, limit: nat)
    ensures Calls(arrivals, limit).0.handled <= Arrived(arrivals)
    decreases |arrivals|
  {
    if arrivals == [] {
    } else {
      var (a, left) := Calls(Front(arrivals), limit);
      ArrivedSnoc(arrivals);
      if a.crashed {
        TakenAreThePrefix(Front(arrivals), limit);
      } else {
        NoFragmentIsLost(Front(arrivals), limit);
        TakesAPrefix(a, left + Last(arrivals), limit);
        FragmentsAppend(left, Last(arrivals));
        AppendAssoc(a.handled, FragmentsOf(left), FragmentsOf(Last(arrivals)));
      }
    }
  }

  lemma GroupsGrowByOne(fragments: seq<Fragment>, f: Fragment)
    ensures Groups(fragments) <= Groups(fragments + [f])
  {
    Regroup(fragments, f);
  }

  lemma {:induction false} GroupsGrow(some: seq<Fragment>, more: seq<Fragment>)
    ensures Groups(some) <= Groups(some + more)
    decreases |more|
  {
    if more == [] {
      assert some + more == some;
    } else {
      GroupsGrow(some, Front(more));
      GroupsGrowByOne(some + Front(more), Last(more));
      assert some + more == (some + Front(more)) + [Last(more)];
    }
  }

  lemma {:induction false} DeliverableGrows(some: seq<seq<Fragment>>, all: seq<seq<Fragment>>, limit: nat)
    requires some <= all && Proper(all)
    ensures Proper(some) && Deliverable(some, limit) <= Deliverable(all, limit)
    decreases |some|
  {
    if some == [] {
    } else {
      DeliverableGrows(some[1..], all[1..], limit);
    }
  }

  /** Whatever arrives, in whatever pieces, and whether or not writing has
      raised: the application gets a prefix of the messages put together from
      the arrived fragments, up to the first over the limit. */
  lemma DeliveredAreThePrefix(arrivals: seq<seq<Event>>, limit: nat)
    ensures Proper(Groups(Arrived(arrivals)))
    ensures Calls(arrivals, limit).0.delivered <= Deliverable(Groups(Arrived(arrivals)), limit)
  {
    var a, all := Calls(arrivals, limit).0, Arrived(arrivals);
    GroupsAreProper(all);
    CallsAreWell(arrivals, limit);
    TakenAreThePrefix(arrivals, limit);
    assert all == a.handled + all[|a.handled|..];
    GroupsGrow(a.handled, all[|a.handled|..]);
    DeliverableGrows(Groups(a.handled), Groups(all), limit);
  }

  /** All fragments of a message are of one kind, which is what the library
      guarantees (section 5.4 of RFC 6455). */
  predicate OneKind(fragments: seq<Fragment>)
  {
    fragments != [] ==>
      && OneKind(Front(fragments))
      && var rest := Unfinished(Front(fragments));
         rest != [] ==> Last(fragments).kind == rest[0].kind
  }

  lemma {:induction false} OneKindBefore(some: seq<Fragment>, more: seq<Fragment>)
    requires OneKind(some + more)
    ensures OneKind(some)
    decreases |more|
  {
    if more == [] {
      assert some + more == some;
    } else {
      assert Front(some + more) == some + Front(more);
      OneKindBefore(some, Front(more));
    }
  }

  lemma GrowsWithData(fragments: seq<Fragment>, f: Fragment)
    ensures |DataOf(Unfinished(fragments) + [f])| >= |DataOf(Unfinished(fragments))|
  {
    Regroup(fragments, f);
  }

  /** Over the limit is for good: one fragment more changes nothing. */
  lemma OneMoreAfterTooMuch(fragments: seq<Fragment>, f: Fragment, limit: nat)
    requires !WithinLimit(fragments, limit) && Proper(Groups(fragments))
    ensures Proper(Groups(fragments + [f])) && !WithinLimit(fragments + [f], limit)
    ensures Deliverable(Groups(fragments + [f]), limit) == Deliverable(Groups(fragments), limit)
  {
    var rest := Unfinished(fragments) + [f];
    Regroup(fragments, f);
    GrowsWithData(fragments, f);
    TooMuchStays(fragments, f, Groups(fragments) + [rest], limit);
    DeliverableSnoc(Groups(fragments), rest, limit);
  }

  lemma {:induction false} NothingAfterTooMuch(fragments: seq<Fragment>, more: seq<Fragment>, limit: nat)
    requires !WithinLimit(fragments, limit) && Proper(Groups(fragments))
    ensures Proper(Groups(fragments + more)) && !WithinLimit(fragments + more, limit)
    ensures Deliverable(Groups(fragments + more), limit) == Deliverable(Groups(fragments), limit)
    decreases |more|
  {
    if more == [] {
      assert fragments + more == fragments;
    } else {
      NothingAfterTooMuch(fragments, Front(more), limit);
      OneMoreAfterTooMuch(fragments + Front(more), Last(more), limit);
      assert (fragments + Front(more)) + [Last(more)] == fragments + more;
    }
  }

  lemma WrongTypeMeansTooMuch(a: Assembly, f: Fragment, limit: nat)
    requires Well(a, limit) && OneKind(a.handled + [f]) && Extend(a.partial, f, limit).1 == WrongType
    ensures !Fits(a, limit)
  {
    assert Front(a.handled + [f]) == a.handled;
  }

  lemma TooLargeMeansTooMuch(a: Assembly, f: Fragment, limit: nat)
    requires Well(a, limit) && Extend(a.partial, f, limit).1 == TooLarge
    ensures !WithinLimit(a.handled + [f], limit)
  {
    GroupsAreProper(a.handled);
    if Fits(a, limit) {
      Regroup(a.handled, f);
      TooMuchStays(a.handled, f, Groups(a.handled) + [Unfinished(a.handled) + [f]], limit);
    } else {
      OneMoreAfterTooMuch(a.handled, f, limit);
    }
  }

  /** The loop breaks only over a message too big. */
  lemma BreaksAfterTooMuch(a: Assembly, e: Event, limit: nat)
    requires Well(a, limit) && OneKind(a.handled + FragmentsOf([e])) && !Handle(a, e, limit).1
    ensures !Fits(Handle(a, e, limit).0, limit)
  {
    assert [e][1..] == [];
    assert FragmentsOf([e]) == [e.fragment];
    if Extend(a.partial, e.fragment, limit).1 == WrongType {
      WrongTypeMeansTooMuch(a, e.fragment, limit);
    } else {
      TooLargeMeansTooMuch(a, e.fragment, limit);
    }
  }

  lemma {:induction false} AllTakenUnlessTooMuch(a: Assembly, events: seq<Event>, limit: nat)
    requires Well(a, limit) && !a.crashed && OneKind(a.handled + FragmentsOf(events))
    ensures var (a', left) := HandleAll(a, events, limit);
            Fits(a', limit) ==> left == [] && !a'.crashed
    decreases |events|
  {
    if events == [] {
    } else {
      var e, rest := events[0], events[1..];
      TakenOnce(a, e, limit);
      FragmentsAppend([e], rest);
      assert [e] + rest == events;
      AppendAssoc(a.handled, FragmentsOf([e]), FragmentsOf(rest));
      OneKindBefore(a.handled + FragmentsOf([e]), FragmentsOf(rest));
      if Handle(a, e, limit).1 {
        Keep(a, e, limit);
        AllTakenUnlessTooMuch(Handle(a, e, limit).0, rest, limit);
      } else {
        BreaksAfterTooMuch(a, e, limit);
      }
    }
  }

  /** With fragments of one kind per message, events are left with the library,
      and writing a fragment raises, only after a message over the limit. */
  lemma {:induction false} CrashesOnlyAfterTooMuch(arrivals: seq<seq<Event>>, limit: nat)
    requires OneKind(Arrived(arrivals))
    ensures var (a, left) := Calls(arrivals, limit);
            left != [] || a.crashed ==> !WithinLimit(a.handled, limit)
    decreases |arrivals|
  {
    if arrivals == [] {
    } else {
      var (a, left) := Calls(Front(arrivals), limit);
      ArrivedSnoc(arrivals);
      OneKindBefore(Arrived(Front(arrivals)), FragmentsOf(Last(arrivals)));
      CrashesOnlyAfterTooMuch(Front(arrivals), limit);
      if !a.crashed {
        NoFragmentIsLost(Front(arrivals), limit);
        CallsAreWell(Front(arrivals), limit);
        FragmentsAppend(left, Last(arrivals));
        AppendAssoc(a.handled, FragmentsOf(left), FragmentsOf(Last(arrivals)));
        AllTakenUnlessTooMuch(a, left + Last(arrivals), limit);
      }
    }
  }

  lemma AllTakenWithinLimit(arrivals: seq<seq<Event>>, limit: nat)
    requires OneKind(Arrived(arrivals)) && WithinLimit(Calls(arrivals, limit).0.handled, limit)
    ensures Calls(arrivals, limit).0.handled == Arrived(arrivals)
  {
    var (a, left) := Calls(arrivals, limit);
    CrashesOnlyAfterTooMuch(arrivals, limit);
    NoFragmentIsLost(arrivals, limit);
    assert a.handled + [] == a.handled;
  }

  lemma RestIsNotDelivered(some: seq<Fragment>, all: seq<Fragment>, limit: nat)
    requires some <= all && !WithinLimit(some, limit)
    ensures Proper(Groups(some)) && Proper(Groups(all))
    ensures Deliverable(Groups(all), limit) == Deliverable(Groups(some), limit)
  {
    GroupsAreProper(some);
    assert all == some + all[|some|..];
    NothingAfterTooMuch(some, all[|some|..], limit);
  }

  /** However the events are cut into calls and mixed with pings, and whatever
      becomes of the stream after a message too big: with fragments of one kind
      per message the application gets exactly the messages put together from
      the fragments that arrived, up to the first over the limit. */
  lemma MessagesAreWhole(arrivals: seq<seq<Event>>, limit: nat)
    requires OneKind(Arrived(arrivals))
    ensures Proper(Groups(Arrived(arrivals)))
    ensures Calls(arrivals, limit).0.delivered == Deliverable(Groups(Arrived(arrivals)), limit)
  {
    GroupsAreProper(Arrived(arrivals));
    CallsAreWell(arrivals, limit);
    if WithinLimit(Calls(arrivals, limit).0.handled, limit) {
      AllTakenWithinLimit(arrivals, limit);
    } else {
      TakenAreThePrefix(arrivals, limit);
      RestIsNotDelivered(Calls(arrivals, limit).0.handled, Arrived(arrivals), limit);
    }
  }

  /** The fragment that takes the first message over the limit. */
  predicate OverAt(fragments: seq<Fragment>, i: nat, limit: nat)
  {
    i < |fragments| && WithinLimit(fragments[..i], limit) && !WithinLimit(fragments[..i + 1], limit)
  }

  predicate Follows(fragments: seq<Fragment>, i: nat, j: nat, limit: nat)
  {
    OverAt(fragments, i, limit) && i < j < |fragments| && fragments[j].kind != fragments[i].kind
  }

  /** Some fragment after the one that takes a message over the limit is of the
      other kind. */
  predicate OtherKindFollows(fragments: seq<Fragment>, limit: nat)
  {
    exists i: nat, j: nat :: i < j < |fragments| && Follows(fragments, i, j, limit)
  }

  /** Some way of cutting these fragments into calls, and of mixing them with
      other events, makes writing one raise. */
  ghost predicate MayCrash(fragments: seq<Fragment>, limit: nat)
  {
    exists arrivals :: Arrived(arrivals) == fragments && Calls(arrivals, limit).0.crashed
  }

  lemma {:induction false} OverSomewhere(fragments: seq<Fragment>, limit: nat) returns (i: nat)
    requires !WithinLimit(fragments, limit)
    ensures OverAt(fragments, i, limit)
    decreases |fragments|
  {
    var before := Front(fragments);
    assert fragments[..|fragments|] == fragments && fragments[..|fragments| - 1] == before;
    if WithinLimit(before, limit) {
      i := |fragments| - 1;
    } else {
      i := OverSomewhere(before, limit);
      OverBefore(before, Last(fragments), i, limit);
      assert before + [Last(fragments)] == fragments;
    }
  }

  lemma OverBefore(fragments: seq<Fragment>, f: Fragment, i: nat, limit: nat)
    requires i < |fragments|
    ensures OverAt(fragments + [f], i, limit) <==> OverAt(fragments, i, limit)
  {
    assert (fragments + [f])[..i] == fragments[..i] && (fragments + [f])[..i + 1] == fragments[..i + 1];
  }

  lemma NotWithinOnceOver(fragments: seq<Fragment>, i: nat, limit: nat)
    requires OverAt(fragments, i, limit)
    ensures !WithinLimit(fragments, limit)
  {
    GroupsAreProper(fragments[..i + 1]);
    assert fragments == fragments[..i + 1] + fragments[i + 1..];
    NothingAfterTooMuch(fragments[..i + 1], fragments[i + 1..], limit);
  }

  /** Once a message is over the limit the buffer keeps the kind of the fragment
      that took it there. */
  ghost predicate HoldsKind(a: Assembly, limit: nat)
  {
    forall i: nat :: OverAt(a.handled, i, limit) ==>
      a.partial.value.Some? && a.partial.value.value.kind == a.handled[i].kind
  }

  lemma TakenHoldsKind(a: Assembly, f: Fragment, limit: nat, a': Assembly)
    requires Well(a, limit) && HoldsKind(a, limit) && a' == Handle(a, Message(f), limit).0
    requires Extend(a.partial, f, limit).1 != WrongType
    ensures HoldsKind(a', limit)
  {
    forall i: nat | OverAt(a'.handled, i, limit)
      ensures a'.partial.value.Some? && a'.partial.value.value.kind == a'.handled[i].kind
    {
      NotWithinOnceOver(a'.handled, i, limit);
      Keep(a, Message(f), limit);
      if i < |a.handled| {
        OverBefore(a.handled, f, i, limit);
        NotWithinOnceOver(a.handled, i, limit);
      }
    }
  }

  lemma KeepsKind(a: Assembly, e: Event, limit: nat)
    requires Well(a, limit) && HoldsKind(a, limit)
    ensures HoldsKind(Handle(a, e, limit).0, limit)
  {
    if e.Message? && Extend(a.partial, e.fragment, limit).1 != WrongType {
      TakenHoldsKind(a, e.fragment, limit, Handle(a, e, limit).0);
    }
  }

  /** A crash over one event: its fragment is of the other kind than the
      fragment that took a message over the limit. */
  lemma CrashMeansOtherKind(a: Assembly, f: Fragment, limit: nat)
    requires Well(a, limit) && HoldsKind(a, limit) && OneKind(a.handled + [f])
    requires Extend(a.partial, f, limit).1 == WrongType
    ensures OtherKindFollows(a.handled + [f], limit)
  {
    WrongTypeMeansTooMuch(a, f, limit);
    var i := OverSomewhere(a.handled, limit);
    OverBefore(a.handled, f, i, limit);
    assert Follows(a.handled + [f], i, |a.handled|, limit);
  }

  lemma OtherKindStays(some: seq<Fragment>, all: seq<Fragment>, limit: nat)
    requires some <= all && OtherKindFollows(some, limit)
    ensures OtherKindFollows(all, limit)
  {
    var i: nat, j: nat :| i < j < |some| && Follows(some, i, j, limit);
    assert all[..i] == some[..i] && all[..i + 1] == some[..i + 1];
    assert Follows(all, i, j, limit);
  }

  lemma {:induction false} CrashInACall(a: Assembly, events: seq<Event>, limit: nat)
    requires Well(a, limit) && HoldsKind(a, limit) && !a.crashed && OneKind(a.handled + FragmentsOf(events))
    ensures var a' := HandleAll(a, events, limit).0;
            if a'.crashed then OtherKindFollows(a.handled + FragmentsOf(events), limit) else HoldsKind(a', limit)
    decreases |events|
  {
    if events == [] {
    } else {
      var e, rest := events[0], events[1..];
      FragmentsAppend([e], rest);
      assert [e] + rest == events;
      AppendAssoc(a.handled, FragmentsOf([e]), FragmentsOf(rest));
      OneKindBefore(a.handled + FragmentsOf([e]), FragmentsOf(rest));
      KeepsKind(a, e, limit);
      Keep(a, e, limit);
      TakenOnce(a, e, limit);
      if Handle(a, e, limit).1 {
        CrashInACall(Handle(a, e, limit).0, rest, limit);
      } else if Handle(a, e, limit).0.crashed {
        OneEventCrashes(a, e, limit);
        OtherKindStays(a.handled + FragmentsOf([e]), a.handled + FragmentsOf(events), limit);
      }
    }
  }

  lemma OneEventCrashes(a: Assembly, e: Event, limit: nat)
    requires Well(a, limit) && HoldsKind(a, limit) && !a.crashed && OneKind(a.handled + FragmentsOf([e]))
    requires Handle(a, e, limit).0.crashed
    ensures OtherKindFollows(a.handled + FragmentsOf([e]), limit)
  {
    assert [e][1..] == [] && FragmentsOf([e]) == [e.fragment];
    CrashMeansOtherKind(a, e.fragment, limit);
  }

  lemma {:induction false} CrashNeedsOtherKind(arrivals: seq<seq<Event>>, limit: nat)
    requires OneKind(Arrived(arrivals))
    ensures var a := Calls(arrivals, limit).0;
            if a.crashed then OtherKindFollows(Arrived(arrivals), limit) else HoldsKind(a, limit)
    decreases |arrivals|
  {
    if arrivals == [] {
    } else {
      var (a, left) := Calls(Front(arrivals), limit);
      ArrivedSnoc(arrivals);
      OneKindBefore(Arrived(Front(arrivals)), FragmentsOf(Last(arrivals)));
      CrashNeedsOtherKind(Front(arrivals), limit);
      if a.crashed {
        OtherKindStays(Arrived(Front(arrivals)), Arrived(arrivals), limit);
      } else {
        NoFragmentIsLost(Front(arrivals), limit);
        CallsAreWell(Front(arrivals), limit);
        FragmentsAppend(left, Last(arrivals));
        AppendAssoc(a.handled, FragmentsOf(left), FragmentsOf(Last(arrivals)));
        CrashInACall(a, left + Last(arrivals), limit);
      }
    }
  }

  /** One call for each fragment. */
  function OneByOne(fragments: seq<Fragment>): seq<seq<Event>>
  {
    if fragments == [] then [] else OneByOne(Front(fragments)) + [[Message(Last(fragments))]]
  }

  lemma {:induction false} OneByOneArrives(fragments: seq<Fragment>)
    ensures Arrived(OneByOne(fragments)) == fragments
    decreases |fragments|
  {
    if fragments == [] {
    } else {
      OneByOneArrives(Front(fragments));
      ArrivedSnoc(OneByOne(fragments));
      assert [Message(Last(fragments))][1..] == [];
      assert Front(OneByOne(fragments)) == OneByOne(Front(fragments));
    }
  }

  /** A call with one event leaves none behind. */
  lemma OneEvent(a: Assembly, e: Event, limit: nat)
    ensures HandleAll(a, [e], limit) == (Handle(a, e, limit).0, [])
  {
    assert [e][1..] == [];
  }

  lemma OneCall(fragments: seq<Fragment>, limit: nat)
    requires fragments != []
    ensures var before := Calls(OneByOne(Front(fragments)), limit);
            before.1 == [] && !before.0.crashed ==>
              Calls(OneByOne(fragments), limit) == (Handle(before.0, Message(Last(fragments)), limit).0, [])
    ensures Calls(OneByOne(Front(fragments)), limit).0.crashed ==> Calls(OneByOne(fragments), limit).0.crashed
  {
    var before, e := OneByOne(Front(fragments)), Message(Last(fragments));
    var (a, left) := Calls(before, limit);
    assert Front(before + [[e]]) == before && Last(before + [[e]]) == [e];
    OneEvent(a, e, limit);
    assert left == [] ==> left + [e] == [e];
  }

  lemma {:induction false} OneByOneTakesAll(fragments: seq<Fragment>, limit: nat)
    requires OneKind(fragments)
    ensures var (a, left) := Calls(OneByOne(fragments), limit);
            !a.crashed ==> left == [] && a.handled == fragments
    decreases |fragments|
  {
    if fragments == [] {
    } else {
      OneByOneTakesAll(Front(fragments), limit);
      OneCall(fragments, limit);
      assert Front(fragments) + [Last(fragments)] == fragments;
    }
  }

  lemma OtherKindCrashes(a: Assembly, f: Fragment, i: nat, limit: nat)
    requires HoldsKind(a, limit) && OverAt(a.handled, i, limit) && a.handled[i].kind != f.kind
    ensures Handle(a, Message(f), limit).0.crashed
  {
  }

  lemma LastOneCrashes(fragments: seq<Fragment>, i: nat, limit: nat)
    requires OneKind(fragments) && fragments != [] && OverAt(Front(fragments), i, limit)
    requires Last(fragments).kind != fragments[i].kind
    ensures Calls(OneByOne(fragments), limit).0.crashed
  {
    var before := Front(fragments);
    var a := Calls(OneByOne(before), limit).0;
    OneCall(fragments, limit);
    if !a.crashed {
      OneByOneTakesAll(before, limit);
      OneByOneArrives(before);
      CrashNeedsOtherKind(OneByOne(before), limit);
      assert before[i] == fragments[i];
      OtherKindCrashes(a, Last(fragments), i, limit);
    }
  }

  lemma {:induction false} OneByOneCrashes(fragments: seq<Fragment>, i: nat, j: nat, limit: nat)
    requires OneKind(fragments) && Follows(fragments, i, j, limit)
    ensures Calls(OneByOne(fragments), limit).0.crashed
    decreases |fragments|
  {
    var before := Front(fragments);
    assert before + [Last(fragments)] == fragments;
    OverBefore(before, Last(fragments), i, limit);
    if j == |before| {
      LastOneCrashes(fragments, i, limit);
    } else {
      OneByOneCrashes(before, i, j, limit);
      OneCall(fragments, limit);
    }
  }

  /** With fragments of one kind per message, writing one raises under some
      cutting into calls if and only if a fragment of the other kind follows
      the one that takes a message over the limit. */
  lemma CrashesIffOtherKindFollows(fragments: seq<Fragment>, limit: nat)
    requires OneKind(fragments)
    ensures MayCrash(fragments, limit) <==> OtherKindFollows(fragments, limit)
  {
    if OtherKindFollows(fragments, limit) {
      OneByOneArrives(fragments);
      var i: nat, j: nat :| i < j < |fragments| && Follows(fragments, i, j, limit);
      OneByOneCrashes(fragments, i, j, limit);
    }
    if MayCrash(fragments, limit) {
      var arrivals :| Arrived(arrivals) == fragments && Calls(arrivals, limit).0.crashed;
      CrashNeedsOtherKind(arrivals, limit);
    }
  }

  /** Writing does raise: a binary message after a text message too big finds the
      text still in the buffer. */
  lemma SecondKindCrashes(limit: nat, long: seq<int>)
    requires |long| > limit
    ensures var text := Message(Fragment(Text, long, true));
            var bytes := Message(Fragment(Binary, [], true));
            && OneKind(Arrived([[text], [bytes]]))
            && Calls([[text], [bytes]], limit).0.crashed
  {
    var text, bytes := Fragment(Text, long, true), Fragment(Binary, [], true);
    TextTooLong(limit, long);
    var arrivals := [[Message(text)], [Message(bytes)]];
    assert Front(arrivals) == [[Message(text)]];
    assert [] + [Message(bytes)] == [Message(bytes)];
    ArrivedSnoc(arrivals);
    ArrivedSnoc([[Message(text)]]);
    assert Arrived(arrivals) == [text, bytes] && Front([text, bytes]) == [text];
  }

  lemma TextTooLong(limit: nat, long: seq<int>)
    requires |long| > limit
    ensures var f := Fragment(Text, long, true);
            && Calls([[Message(f)]], limit).1 == [] && !Calls([[Message(f)]], limit).0.crashed
            && Calls([[Message(f)]], limit).0.partial == Partial(Some(Received(Text, long)), |long|)
  {
    var e := Message(Fragment(Text, long, true));
    assert Front([[e]]) == [] && [] + [e] == [e] && [e][1..] == [] && [] + long == long;
  }

  function Pings(events: seq<Event>): nat
  {
    if events == [] then 0 else Pings(Front(events)) + if Last(events).Ping? then 1 else 0
  }

  /** How many of these fragments came with a message over the limit, or after
      one. */
  function TooMany(fragments: seq<Fragment>, limit: nat): nat
  {
    if fragments == [] then 0
    else TooMany(Front(fragments), limit) + if WithinLimit(fragments, limit) then 0 else 1
  }

  lemma TakenFits(a: Assembly, f: Fragment, limit: nat)
    requires Well(a, limit) && Extend(a.partial, f, limit).1 == Extended
    ensures WithinLimit(a.handled + [f], limit)
  {
    ExtendedPartial(a, f, limit);
    Regroup(a.handled, f);
    if f.finished {
      AllFitSnoc(Groups(a.handled), Unfinished(a.handled) + [f], limit);
    }
  }

  lemma OneEventCounts(a: Assembly, e: Event, limit: nat)
    requires Well(a, limit) && a.closes == TooMany(a.handled, limit)
    ensures var a' := Handle(a, e, limit).0;
            && a'.closes == TooMany(a'.handled, limit)
            && a'.pongs == a.pongs + if e.Ping? then 1 else 0
  {
    if e.Message? {
      var f := e.fragment;
      assert Front(a.handled + [f]) == a.handled;
      match Extend(a.partial, f, limit).1
      case TooLarge => TooLargeMeansTooMuch(a, f, limit);
      case Extended => TakenFits(a, f, limit);
      case WrongType =>
    }
  }

  lemma {:induction false} PingsAppend(a: seq<Event>, b: seq<Event>)
    ensures Pings(a + b) == Pings(a) + Pings(b)
    decreases |b|
  {
    if b == [] {
      assert a + b == a;
    } else {
      PingsAppend(a, Front(b));
      assert Front(a + b) == a + Front(b) && Last(a + b) == Last(b);
    }
  }

  /** What some events did to the counters, `left` of them not taken. */
  predicate Counted(a: Assembly, events: seq<Event>, limit: nat, taken: seq<Event>, a': Assembly, left: seq<Event>)
  {
    && events == taken + left && a'.pongs == a.pongs + Pings(taken)
    && a'.closes == TooMany(a'.handled, limit)
  }

  lemma OneMoreCounts(a: Assembly, e: Event, limit: nat, rest: seq<Event>, more: seq<Event>, a': Assembly,
                      left: seq<Event>)
    requires Well(a, limit) && a.closes == TooMany(a.handled, limit)
    requires Counted(Handle(a, e, limit).0, rest, limit, more, a', left)
    ensures Counted(a, [e] + rest, limit, [e] + more, a', left)
  {
    OneEventCounts(a, e, limit);
    PingsAppend([e], more);
    OnePing(e);
    AppendAssoc([e], more, left);
  }

  lemma OnePing(e: Event)
    ensures Pings([e]) == if e.Ping? then 1 else 0
  {
    assert Front([e]) == [];
  }

  lemma StopCounts(a: Assembly, e: Event, limit: nat, rest: seq<Event>)
    requires Well(a, limit) && a.closes == TooMany(a.handled, limit)
    ensures Counted(a, [e] + rest, limit, [e], Handle(a, e, limit).0, rest)
  {
    OneEventCounts(a, e, limit);
    OnePing(e);
  }

  lemma {:induction false} EventsCount(a: Assembly, events: seq<Event>, limit: nat) returns (taken: seq<Event>)
    requires Well(a, limit) && a.closes == TooMany(a.handled, limit)
    ensures var (a', left) := HandleAll(a, events, limit); Counted(a, events, limit, taken, a', left)
    decreases |events|
  {
    if events == [] {
      taken := [];
    } else {
      var e, rest := events[0], events[1..];
      assert events == [e] + rest;
      var (a', on) := Handle(a, e, limit);
      if on {
        Keep(a, e, limit);
        OneEventCounts(a, e, limit);
        var more := EventsCount(a', rest, limit);
        OneMoreCounts(a, e, limit, rest, more, HandleAll(a', rest, limit).0, HandleAll(a', rest, limit).1);
        taken := [e] + more;
      } else {
        StopCounts(a, e, limit, rest);
        taken := [e];
      }
    }
  }

  /** Whatever arrives, in whatever pieces: one pong for each ping among the
      events taken, and one close for each fragment taken with or after a message
      over the limit; the events not taken are the last that arrived. */
  lemma {:induction false} PongsAndCloses(arrivals: seq<seq<Event>>, limit: nat) returns (taken: seq<Event>)
    ensures var (a, left) := Calls(arrivals, limit);
            && Concat(arrivals) == taken + left && a.pongs == Pings(taken)
            && a.closes == TooMany(a.handled, limit)
    decreases |arrivals|
  {
    if arrivals == [] {
      taken := [];
    } else {
      var (a, left) := Calls(Front(arrivals), limit);
      taken := PongsAndCloses(Front(arrivals), limit);
      assert arrivals == Front(arrivals) + [Last(arrivals)];
      ConcatSnoc(Front(arrivals), Last(arrivals));
      AppendAssoc(taken, left, Last(arrivals));
      if !a.crashed {
        CallsAreWell(Front(arrivals), limit);
        var more := EventsCount(a, left + Last(arrivals), limit);
        PingsAppend(taken, more);
        AppendAssoc(taken, more, Calls(arrivals, limit).1);
        taken := taken + more;
      }
    }
  }
}
