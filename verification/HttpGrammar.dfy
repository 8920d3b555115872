/** What an HTTP stream emits over its whole life, for any app. */
module HttpGrammar {
  import opened Common
  import opened HttpStreams

  /** How far a response has come.  Push requests do not count. */
  datatype Phase = Waiting | Answering | Trailed | Ended | Cut | Broken

  /** Informational* Response Body* Trailers? EndBody StreamClosed*, where
      StreamClosed may also come earlier and then ends everything. */
  function Advance(p: Phase, e: Event): Phase
  {
    match (p, e)
    case (_, PushRequest(_)) => p
    case (Broken, _) => Broken
    case (_, StreamClosed) => Cut
    case (Waiting, Informational(_, _)) => Waiting
    case (Waiting, Response(_, _)) => Answering
    case (Answering, Body(_)) => Answering
    case (Answering, Trailers(_)) => Trailed
    case (Answering, EndBody) => Ended
    case (Trailed, EndBody) => Ended
    case (_, _) => Broken
  }

  function PhaseFrom(p: Phase, events: seq<Event>): Phase
    decreases |events|
  {
    if events == [] then p else PhaseFrom(Advance(p, events[0]), events[1..])
  }

  predicate Grammatical(events: seq<Event>) { PhaseFrom(Waiting, events) != Broken }

  lemma {:induction false} PhaseAppend(p: Phase, a: seq<Event>, b: seq<Event>)
    ensures PhaseFrom(p, a + b) == PhaseFrom(PhaseFrom(p, a), b)
    decreases |a|
  {
    if a == [] {
      assert a + b == b;
    } else {
      assert (a + b)[1..] == a[1..] + b;
      PhaseAppend(Advance(p, a[0]), a[1..], b);
    }
  }

  lemma {:induction false} BrokenStays(events: seq<Event>)
    ensures PhaseFrom(Broken, events) == Broken
    decreases |events|
  {
    if events == [] {
    } else {
      BrokenStays(events[1..]);
    }
  }

  /** The bytes of the Body events. */
  function BodiesOf(events: seq<Event>): Bytes
  {
    if events == [] then []
    else (if events[0].Body? then events[0].data else []) + BodiesOf(events[1..])
  }

  lemma {:induction false} BodiesAppend(a: seq<Event>, b: seq<Event>)
    ensures BodiesOf(a + b) == BodiesOf(a) + BodiesOf(b)
    decreases |a|
  {
    if a == [] {
      assert a + b == b;
    } else {
      assert (a + b)[1..] == a[1..] + b;
      BodiesAppend(a[1..], b);
    }
  }

  datatype Move = Incoming(event: Inbound) | Outgoing(message: Message)

  /** A stream's life so far: its state, what it emitted, what it put to the
      app, whether the app is over, the body bytes it took from the app, and
      whether the app ended an answer it never began (see `IsBare`). */
  datatype Life = Life(
    http: Http, events: seq<Event>, put: seq<ToApp>, finished: bool, taken: Bytes, bare: bool)

  const NEW_LIFE := Life(FRESH, [], [], false, [], false)

  /** One request comes first; messages come from a started app that is not over. */
  predicate MayMove(l: Life, m: Move)
  {
    match m
    case Incoming(Request(_, _)) => l.http.scope == None
    case Incoming(_) => true
    case Outgoing(_) => l.http.app && l.http.scope.Some? && !l.finished
  }

  /** The guard of the branch that ends a response nobody began: last trailers
      as the first answer, to a client that does not take trailers. */
  predicate IsBare(h: Http, m: Message)
  {
    && h.scope.Some? && h.state == REQUEST && m.TrailersMessage? && !m.more
    && IsModern(h.scope.value.version) && !TakesTrailers(h.scope.value.headers)
  }

  predicate TakesBody(h: Http, m: Message) { m.BodyMessage? && h.state == RESPONSE }

  function MoveOn(l: Life, m: Move): Life
    requires MayMove(l, m)
  {
    match m
    case Incoming(e) =>
      var (next, events, put) := Handle(l.http, e);
      l.(http := next, events := l.events + events, put := l.put + put)
    case Outgoing(msg) =>
      AfterReply(l, msg, AppSend(l.http, msg))
  }

  function AfterReply(l: Life, m: Message, r: Reply): Life
  {
    Life(r.next, l.events + r.events, l.put, l.finished || m == Finished,
         if TakesBody(l.http, m) then l.taken + m.body else l.taken,
         l.bare || IsBare(l.http, m))
  }

  /** A life reached by some sequence of moves. */
  ghost predicate Lived(moves: seq<Move>, l: Life)
    decreases |moves|
  {
    if moves == [] then l == NEW_LIFE
    else exists mid :: Lived(Front(moves), mid) && MayMove(mid, Last(moves))
                       && l == MoveOn(mid, Last(moves))
  }

  /** The phase that goes with a state while the app is not over. */
  predicate Matches(p: Phase, state: State)
  {
    match state
    case REQUEST => p == Waiting
    case RESPONSE => p == Answering
    case TRAILERS => p == Answering
    case CLOSED => p == Ended || p == Cut
  }

  predicate PhaseFits(l: Life)
  {
    var p := PhaseFrom(Waiting, l.events);
    if l.bare then p == Broken
    else
      && p != Broken
      && (!l.finished ==> Matches(p, l.http.state))
  }

  predicate Consistent(l: Life)
  {
    && (l.http.state == RESPONSE || l.http.state == TRAILERS ==> l.http.response.Some?)
    && (l.http.scope == None ==> l.http == FRESH.(closed := l.http.closed) && l.events == [])
    && (l.http.app ==> l.http.scope.Some?)
    && (!l.http.app ==> !l.finished && l.put == [])
    && (l.http.state == REQUEST ==> l.taken == [] && BodiesOf(l.events) == [])
  }

  lemma IncomingFits(l: Life, e: Inbound)
    requires MayMove(l, Incoming(e)) && PhaseFits(l) && Consistent(l)
    ensures PhaseFits(MoveOn(l, Incoming(e))) && Consistent(MoveOn(l, Incoming(e)))
  {
    var l' := MoveOn(l, Incoming(e));
    if l'.events != l.events {
      assert l'.events == ErrorResponse(404);
      assert PhaseFrom(Answering, [EndBody]) == Ended;
    } else {
      assert l.events + [] == l.events;
    }
  }

  lemma PhaseOne(p: Phase, e: Event)
    ensures PhaseFrom(p, [e]) == Advance(p, e)
  {
    assert PhaseFrom(Advance(p, e), [e][1..]) == Advance(p, e);
  }

  lemma PhaseTwo(p: Phase, e: Event, f: Event)
    ensures PhaseFrom(p, [e, f]) == Advance(Advance(p, e), f)
  {
    assert [e, f][1..] == [f];
    PhaseOne(Advance(p, e), f);
  }

  lemma ClosingPhase(p: Phase, before: seq<Event>, h: Http)
    ensures PhaseFrom(p, SendClosed(h, before).events)
            == var q := Advance(PhaseFrom(p, before), EndBody);
               if h.response == None then q else Advance(q, StreamClosed)
  {
    PhaseAppend(p, before, [EndBody]);
    PhaseAppend(p, before, [EndBody, StreamClosed]);
    PhaseOne(PhaseFrom(p, before), EndBody);
    PhaseTwo(PhaseFrom(p, before), EndBody, StreamClosed);
  }

  lemma BodyPhase(h: Http, body: Bytes, more: bool)
    requires h.scope.Some? && h.state == RESPONSE && h.response.Some?
    ensures var r := AppSend(h, BodyMessage(body, more));
            Matches(PhaseFrom(Answering, r.events), r.next.state)
  {
    PhaseOne(Answering, Body(body));
    var events := if Suppressed(h.scope.value.isHead, h.response.value.status) || body == []
                  then [] else [Body(body)];
    ClosingPhase(Answering, events, h);
  }

  lemma BodyFits(l: Life, body: Bytes, more: bool)
    requires MayMove(l, Outgoing(BodyMessage(body, more))) && PhaseFits(l) && Consistent(l) && !l.bare
    ensures PhaseFits(MoveOn(l, Outgoing(BodyMessage(body, more))))
  {
    PhaseAppend(Waiting, l.events, AppSend(l.http, BodyMessage(body, more)).events);
    if l.http.state == RESPONSE {
      BodyPhase(l.http, body, more);
    }
  }

  lemma EarlyTrailersFit(l: Life, headers: Headers, more: bool)
    requires MayMove(l, Outgoing(TrailersMessage(headers, more))) && l.http.state == REQUEST
    requires PhaseFits(l) && Consistent(l) && !l.bare
    ensures PhaseFits(MoveOn(l, Outgoing(TrailersMessage(headers, more))))
  {
    var p := PhaseFrom(Waiting, l.events);
    PhaseAppend(Waiting, l.events, AppSend(l.http, TrailersMessage(headers, more)).events);
    if IsModern(l.http.scope.value.version) {
      if TakesTrailers(l.http.scope.value.headers) {
        PhaseOne(p, Response(200, Built(headers)));
        ClosingPhase(p, [Response(200, Built(headers))],
                     l.http.(response := Some(Start(200, false)), state := TRAILERS));
      } else {
        ClosingPhase(p, [], l.http);
      }
    }
  }

  lemma LastPhase(h: Http, all: Headers)
    ensures var r := SendClosed(h, if all == [] then [] else [Trailers(all)]);
            PhaseFrom(Answering, r.events) == Ended || PhaseFrom(Answering, r.events) == Cut
  {
    PhaseOne(Answering, Trailers(all));
    ClosingPhase(Answering, if all == [] then [] else [Trailers(all)], h);
  }

  lemma LatePhase(h: Http, headers: Headers, more: bool)
    requires h.scope.Some? && h.state == TRAILERS
    ensures var r := LateTrailers(h, headers, more);
            Matches(PhaseFrom(Answering, r.events), r.next.state)
  {
    var all := if TakesTrailers(h.scope.value.headers) then h.trailerHeaders + Built(headers) else h.trailerHeaders;
    LastPhase(h.(trailerHeaders := all), all);
  }

  lemma LateTrailersFit(l: Life, headers: Headers, more: bool)
    requires MayMove(l, Outgoing(TrailersMessage(headers, more))) && l.http.state != REQUEST
    requires PhaseFits(l) && Consistent(l) && !l.bare
    ensures PhaseFits(MoveOn(l, Outgoing(TrailersMessage(headers, more))))
  {
    PhaseAppend(Waiting, l.events, AppSend(l.http, TrailersMessage(headers, more)).events);
    if IsModern(l.http.scope.value.version) && l.http.state == TRAILERS {
      LatePhase(l.http, headers, more);
    }
  }

  lemma FinishedFits(l: Life)
    requires MayMove(l, Outgoing(Finished)) && PhaseFits(l) && Consistent(l) && !l.bare
    ensures PhaseFits(MoveOn(l, Outgoing(Finished)))
  {
    var p := PhaseFrom(Waiting, l.events);
    PhaseAppend(Waiting, l.events, AppSend(l.http, Finished).events);
    PhaseOne(p, StreamClosed);
    PhaseTwo(p, Response(500, ERROR_HEADERS), EndBody);
    PhaseAppend(p, ErrorResponse(500), [StreamClosed]);
    PhaseOne(PhaseFrom(p, ErrorResponse(500)), StreamClosed);
  }

  lemma SingleFits(l: Life, m: Message)
    requires MayMove(l, Outgoing(m)) && PhaseFits(l) && Consistent(l) && !l.bare
    requires !m.BodyMessage? && !m.TrailersMessage? && !m.Finished?
    ensures PhaseFits(MoveOn(l, Outgoing(m)))
  {
    var p := PhaseFrom(Waiting, l.events);
    var events := AppSend(l.http, m).events;
    PhaseAppend(Waiting, l.events, events);
    if events != [] {
      PhaseOne(p, events[0]);
      assert events == [events[0]];
    }
  }

  /** The events of one reply move the phase as the state moves. */
  lemma ReplyFits(l: Life, m: Message)
    requires MayMove(l, Outgoing(m)) && PhaseFits(l) && Consistent(l)
    ensures PhaseFits(MoveOn(l, Outgoing(m)))
  {
    if l.bare {
      PhaseAppend(Waiting, l.events, AppSend(l.http, m).events);
      BrokenStays(AppSend(l.http, m).events);
    } else if m.BodyMessage? {
      BodyFits(l, m.body, m.more);
    } else if m.TrailersMessage? {
      if l.http.state == REQUEST {
        EarlyTrailersFit(l, m.headers, m.more);
      } else {
        LateTrailersFit(l, m.headers, m.more);
      }
    } else if m.Finished? {
      FinishedFits(l);
    } else {
      SingleFits(l, m);
    }
  }

  lemma {:induction false} NoBodies(events: seq<Event>)
    requires forall i :: 0 <= i < |events| ==> !events[i].Body?
    ensures BodiesOf(events) == []
    decreases |events|
  {
    if events == [] {
    } else {
      NoBodies(events[1..]);
    }
  }

  lemma ClosingBodies(h: Http, before: seq<Event>)
    ensures BodiesOf(SendClosed(h, before).events) == BodiesOf(before)
  {
    BodiesAppend(before, [EndBody]);
    BodiesAppend(before, [EndBody, StreamClosed]);
    NoBodies([EndBody]);
    NoBodies([EndBody, StreamClosed]);
  }

  lemma BodyReply(h: Http, body: Bytes, more: bool)
    requires h.scope.Some? && h.state == RESPONSE && h.response.Some?
    ensures BodiesOf(AppSend(h, BodyMessage(body, more)).events)
            == if Suppressed(h.scope.value.isHead, h.response.value.status) then [] else body
  {
    var before := if Suppressed(h.scope.value.isHead, h.response.value.status) || body == []
                  then [] else [Body(body)];
    assert before != [] ==> before[1..] == [];
    ClosingBodies(h, before);
  }

  lemma TrailersReply(h: Http, headers: Headers, more: bool)
    requires h.scope.Some?
    ensures BodiesOf(AppSend(h, TrailersMessage(headers, more)).events) == []
  {
    var r := if h.state == REQUEST then EarlyTrailers(h, headers, more) else LateTrailers(h, headers, more);
    NoBodies(r.events);
  }

  /** The Body events of one reply are the body it took, unless the response
      may have no content. */
  lemma ReplyBodies(h: Http, m: Message)
    requires h.scope.Some? && (h.state == RESPONSE ==> h.response.Some?)
    ensures BodiesOf(AppSend(h, m).events)
            == if TakesBody(h, m) && !Suppressed(h.scope.value.isHead, h.response.value.status)
               then m.body else []
  {
    if TakesBody(h, m) {
      BodyReply(h, m.body, m.more);
    } else if m.TrailersMessage? {
      TrailersReply(h, m.headers, m.more);
    } else if !m.BodyMessage? {
      NoBodies(AppSend(h, m).events);
    }
  }

  /** The body bytes emitted are those taken from the app, or none when the
      response may have no content. */
  predicate BodiesFit(l: Life)
  {
    BodiesOf(l.events)
    == if l.http.response.Some? && l.http.scope.Some?
          && Suppressed(l.http.scope.value.isHead, l.http.response.value.status)
       then [] else l.taken
  }

  /** What a reply leaves alone, and which of its events go with which states. */
  ghost predicate Plausible(h: Http, m: Message, r: Reply)
    requires h.scope.Some?
  {
    && StateFits(h, m, r.next)
    && (BodiesOf(r.events)
        == if TakesBody(h, m) && !Suppressed(h.scope.value.isHead, h.response.value.status)
           then m.body else [])
    && EventsFit(h, m, r.next, r.events)
  }

  predicate StateFits(h: Http, m: Message, next: Http)
  {
    && next.scope == h.scope && next.app == h.app && next.closed == h.closed
    && (h.state != REQUEST ==> next.state != REQUEST && next.response == h.response)
    && (h.state != REQUEST && next.state == RESPONSE ==> h.state == RESPONSE)
    && (next.state == RESPONSE || next.state == TRAILERS ==> next.response.Some?)
    && (TakesBody(h, m) ==> h.response.Some?)
  }

  ghost predicate EventsFit(h: Http, m: Message, next: Http, events: seq<Event>)
    requires h.scope.Some? && StateFits(h, m, next)
  {
    forall i :: 0 <= i < |events| ==> EventFits(h, m, next, events[i])
  }

  predicate EventFits(h: Http, m: Message, next: Http, e: Event)
    requires h.scope.Some? && StateFits(h, m, next)
  {
    && (e.Body? ==> TakesBody(h, m) && !Suppressed(h.scope.value.isHead, h.response.value.status))
    && (e.Response? ==>
          && h.state == REQUEST && next.state != REQUEST
          && (next.state == RESPONSE ==> next.response.value.status == e.status))
  }

  lemma EarlyEventsFit(h: Http, headers: Headers, more: bool)
    requires h.scope.Some? && h.state == REQUEST
    ensures var m, r := TrailersMessage(headers, more), EarlyTrailers(h, headers, more);
            StateFits(h, m, r.next) && EventsFit(h, m, r.next, r.events)
  {
    var m, r := TrailersMessage(headers, more), EarlyTrailers(h, headers, more);
    forall i | 0 <= i < |r.events| ensures EventFits(h, m, r.next, r.events[i]) {
    }
  }

  lemma LateEventsFit(h: Http, headers: Headers, more: bool)
    requires h.scope.Some? && h.state == TRAILERS && h.response.Some?
    ensures var m, r := TrailersMessage(headers, more), LateTrailers(h, headers, more);
            StateFits(h, m, r.next) && EventsFit(h, m, r.next, r.events)
  {
    var m, r := TrailersMessage(headers, more), LateTrailers(h, headers, more);
    forall i | 0 <= i < |r.events| ensures EventFits(h, m, r.next, r.events[i]) {
    }
  }

  lemma BodyEventsFit(h: Http, body: Bytes, more: bool)
    requires h.scope.Some? && h.state == RESPONSE && h.response.Some?
    ensures var m := BodyMessage(body, more);
            var r := AppSend(h, m);
            StateFits(h, m, r.next) && EventsFit(h, m, r.next, r.events)
  {
    var m := BodyMessage(body, more);
    var r := AppSend(h, m);
    forall i | 0 <= i < |r.events| ensures EventFits(h, m, r.next, r.events[i]) {
    }
  }

  lemma FinishedEventsFit(h: Http)
    requires h.scope.Some? && (h.state == RESPONSE || h.state == TRAILERS ==> h.response.Some?)
    ensures var r := AppSend(h, Finished);
            StateFits(h, Finished, r.next) && EventsFit(h, Finished, r.next, r.events)
  {
    var r := AppSend(h, Finished);
    forall i | 0 <= i < |r.events| ensures EventFits(h, Finished, r.next, r.events[i]) {
    }
  }

  /** A message answered with at most one event. */
  lemma SingleEventFits(h: Http, m: Message)
    requires h.scope.Some? && (h.state == RESPONSE || h.state == TRAILERS ==> h.response.Some?)
    requires !m.BodyMessage? && !m.TrailersMessage? && !m.Finished?
    ensures var r := AppSend(h, m); StateFits(h, m, r.next) && EventsFit(h, m, r.next, r.events)
  {
    var r := AppSend(h, m);
    forall i | 0 <= i < |r.events| ensures EventFits(h, m, r.next, r.events[i]) {
    }
  }

  lemma TrailerEventsFit(h: Http, headers: Headers, more: bool)
    requires h.scope.Some? && (h.state == RESPONSE || h.state == TRAILERS ==> h.response.Some?)
    ensures var m := TrailersMessage(headers, more);
            var r := AppSend(h, m);
            StateFits(h, m, r.next) && EventsFit(h, m, r.next, r.events)
  {
    if IsModern(h.scope.value.version) && h.state == REQUEST {
      EarlyEventsFit(h, headers, more);
    } else if IsModern(h.scope.value.version) && h.state == TRAILERS {
      LateEventsFit(h, headers, more);
    }
  }

  lemma RepliesArePlausible(h: Http, m: Message)
    requires h.scope.Some? && (h.state == RESPONSE || h.state == TRAILERS ==> h.response.Some?)
    ensures Plausible(h, m, AppSend(h, m))
  {
    ReplyBodies(h, m);
    match m
    case TrailersMessage(headers, more) => TrailerEventsFit(h, headers, more);
    case BodyMessage(body, more) =>
      if h.state == RESPONSE {
        BodyEventsFit(h, body, more);
      }
    case Finished => FinishedEventsFit(h);
    case _ => SingleEventFits(h, m);
  }

  lemma ReplyKeepsBodies(l: Life, m: Message, r: Reply)
    requires MayMove(l, Outgoing(m)) && Consistent(l) && BodiesFit(l) && Plausible(l.http, m, r)
    ensures Consistent(AfterReply(l, m, r)) && BodiesFit(AfterReply(l, m, r))
  {
    BodiesAppend(l.events, r.events);
  }

  lemma NotFoundKeepsBodies(l: Life)
    requires l.events == ErrorResponse(404) && l.taken == [] && l.http.state == CLOSED
    requires !l.http.app && !l.finished && l.put == [] && l.http.scope.Some?
    ensures Consistent(l) && BodiesFit(l)
  {
    NoBodies(l.events);
  }

  lemma IncomingKeepsBodies(l: Life, e: Inbound)
    requires MayMove(l, Incoming(e)) && Consistent(l) && BodiesFit(l)
    ensures Consistent(MoveOn(l, Incoming(e))) && BodiesFit(MoveOn(l, Incoming(e)))
  {
    var l' := MoveOn(l, Incoming(e));
    if Handle(l.http, e).1 == [] {
      assert l'.events == l.events;
    } else {
      assert l'.events == [] + ErrorResponse(404) == ErrorResponse(404);
      NotFoundKeepsBodies(l');
    }
  }

  /** No Body event follows a Response event whose status, or whose request's
      method, forbids content. */
  ghost predicate ContentAllowed(isHead: bool, events: seq<Event>)
  {
    forall i, j :: 0 <= i < j < |events| && events[i].Response? && events[j].Body? ==>
      !Suppressed(isHead, events[i].status)
  }

  ghost predicate StatusFits(l: Life)
  {
    && (forall i :: 0 <= i < |l.events| && l.events[i].Response? ==>
          && l.http.state != REQUEST
          && (l.http.state == RESPONSE ==>
                l.http.response.Some? && l.http.response.value.status == l.events[i].status))
    && (l.http.scope.Some? ==> ContentAllowed(l.http.scope.value.isHead, l.events))
  }

  lemma ReplyKeepsStatus(l: Life, m: Message, r: Reply)
    requires MayMove(l, Outgoing(m)) && StatusFits(l) && Plausible(l.http, m, r)
    ensures StatusFits(AfterReply(l, m, r))
  {
    var l' := AfterReply(l, m, r);
    assert forall i :: 0 <= i < |l'.events| ==>
             l'.events[i] == if i < |l.events| then l.events[i] else r.events[i - |l.events|];
  }

  lemma NotFoundKeepsStatus(l: Life)
    requires l.events == ErrorResponse(404) && l.http.state == CLOSED
    ensures StatusFits(l)
  {
    assert !l.events[0].Body? && !l.events[1].Body?;
  }

  lemma IncomingKeepsStatus(l: Life, e: Inbound)
    requires MayMove(l, Incoming(e)) && Consistent(l) && StatusFits(l)
    ensures StatusFits(MoveOn(l, Incoming(e)))
  {
    var l' := MoveOn(l, Incoming(e));
    if l'.events != l.events {
      NotFoundKeepsStatus(l');
    }
  }

  /** The app is told of the disconnect exactly when its stream is closed, and
      nothing comes after that. */
  ghost predicate DisconnectsOnce(l: Life)
  {
    && (forall i :: 0 <= i < |l.put| - 1 ==> l.put[i] != Disconnect)
    && (Disconnect in l.put <==> l.http.app && l.http.closed)
  }

  lemma IncomingKeepsDisconnect(l: Life, e: Inbound)
    requires MayMove(l, Incoming(e)) && Consistent(l) && DisconnectsOnce(l)
    ensures DisconnectsOnce(MoveOn(l, Incoming(e)))
  {
    var put := Handle(l.http, e).2;
    if put != [] {
      assert put == [put[0]] && !l.http.closed;
    } else {
      assert l.put + [] == l.put;
    }
  }

  ghost predicate Sound(l: Life)
  {
    && PhaseFits(l) && Consistent(l) && BodiesFit(l) && StatusFits(l) && DisconnectsOnce(l)
  }

  lemma MoveIsSound(l: Life, move: Move)
    requires MayMove(l, move) && Sound(l)
    ensures Sound(MoveOn(l, move))
  {
    match move
    case Incoming(e) => {
      IncomingFits(l, e);
      IncomingKeepsBodies(l, e);
      IncomingKeepsStatus(l, e);
      IncomingKeepsDisconnect(l, e);
    }
    case Outgoing(m) => {
      ReplyFits(l, m);
      RepliesArePlausible(l.http, m);
      ReplyKeepsBodies(l, m, AppSend(l.http, m));
      ReplyKeepsStatus(l, m, AppSend(l.http, m));
    }
  }

  lemma {:induction false} LivesAreSound(moves: seq<Move>, l: Life)
    requires Lived(moves, l)
    ensures Sound(l)
    decreases |moves|
  {
    if moves == [] {
    } else {
      var mid :| Lived(Front(moves), mid) && MayMove(mid, Last(moves)) && l == MoveOn(mid, Last(moves));
      LivesAreSound(Front(moves), mid);
      MoveIsSound(mid, Last(moves));
    }
  }

  /** For every app and every client, the emitted events follow the grammar if
      and only if the app never ended a response it had not begun. */
  lemma GrammarHoldsUnlessBare(moves: seq<Move>, l: Life)
    requires Lived(moves, l)
    ensures Grammatical(l.events) <==> !l.bare
  {
    LivesAreSound(moves, l);
  }

  lemma BodiesAreTheApps(moves: seq<Move>, l: Life)
    requires Lived(moves, l)
    ensures BodiesFit(l)
    ensures l.http.scope.Some? ==> ContentAllowed(l.http.scope.value.isHead, l.events)
  {
    LivesAreSound(moves, l);
  }

  lemma AppHearsOneDisconnect(moves: seq<Move>, l: Life)
    requires Lived(moves, l)
    ensures Disconnect in l.put <==> l.http.app && l.http.closed
    ensures forall i :: 0 <= i < |l.put| && l.put[i] == Disconnect ==> i == |l.put| - 1
  {
    LivesAreSound(moves, l);
  }

  ghost predicate IsBegun(events: seq<Event>, hints: seq<Event>, response: Event, bodies: seq<Event>)
  {
    && events == hints + [response] + bodies && response.Response?
    && (forall e :: e in hints ==> e.Informational?)
    && (forall e :: e in bodies ==> e.Body?)
  }

  lemma PhaseSnoc(events: seq<Event>)
    requires events != []
    ensures PhaseFrom(Waiting, events) == Advance(PhaseFrom(Waiting, Front(events)), Last(events))
  {
    assert events == Front(events) + [Last(events)];
    PhaseAppend(Waiting, Front(events), [Last(events)]);
    PhaseOne(PhaseFrom(Waiting, Front(events)), Last(events));
  }

  lemma {:induction false} WaitingShape(events: seq<Event>)
    requires PhaseFrom(Waiting, events) == Waiting && forall e :: e in events ==> !e.PushRequest?
    ensures forall e :: e in events ==> e.Informational?
    decreases |events|
  {
    if events == [] {
    } else {
      PhaseSnoc(events);
      WaitingShape(Front(events));
    }
  }

  lemma {:induction false} AnsweringShape(events: seq<Event>)
      returns (hints: seq<Event>, response: Event, bodies: seq<Event>)
    requires PhaseFrom(Waiting, events) == Answering && forall e :: e in events ==> !e.PushRequest?
    ensures IsBegun(events, hints, response, bodies)
    decreases |events|
  {
    PhaseSnoc(events);
    if PhaseFrom(Waiting, Front(events)) == Waiting {
      WaitingShape(Front(events));
      hints, response, bodies := Front(events), Last(events), [];
      assert hints + [response] + bodies == events;
    } else {
      hints, response, bodies := AnsweringShape(Front(events));
      bodies := bodies + [Last(events)];
      assert hints + [response] + bodies == events;
    }
  }

  /** The grammar's automaton accepts exactly the intended shape: informational
      responses, one response, bodies, at most one trailers, one end. */
  lemma EndedShape(events: seq<Event>)
      returns (hints: seq<Event>, response: Event, bodies: seq<Event>, trailers: seq<Event>)
    requires PhaseFrom(Waiting, events) == Ended && forall e :: e in events ==> !e.PushRequest?
    ensures events == (hints + [response] + bodies) + trailers + [EndBody]
    ensures IsBegun(hints + [response] + bodies, hints, response, bodies)
    ensures trailers == [] || (|trailers| == 1 && trailers[0].Trailers?)
  {
    PhaseSnoc(events);
    var before := Front(events);
    if PhaseFrom(Waiting, before) == Answering {
      hints, response, bodies := AnsweringShape(before);
      trailers := [];
    } else {
      PhaseSnoc(before);
      hints, response, bodies := AnsweringShape(Front(before));
      trailers := [Last(before)];
    }
  }

  /** A client without `te: trailers` and an app that answers with last
      trailers alone: one end of body, with no response before it. */
  lemma BareEndExists(scope: Scope)
    requires IsModern(scope.version) && !TakesTrailers(scope.headers)
    ensures exists moves, l :: Lived(moves, l) && l.events == [EndBody] && !Grammatical(l.events)
  {
    var m1 := Incoming(Request(scope, true));
    var m2 := Outgoing(TrailersMessage([], false));
    var l1 := MoveOn(NEW_LIFE, m1);
    var l2 := MoveOn(l1, m2);
    assert Front([m1]) == [] && Front([m1, m2]) == [m1];
    assert Lived([], NEW_LIFE) && Lived([m1], l1) && Lived([m1, m2], l2);
    GrammarHoldsUnlessBare([m1, m2], l2);
  }
}
