/** What a response consists of, told from the moves alone: from what the app and
    the client did, without following the stream. */
module HttpAnswers {
  import opened Common
  import opened HttpStreams
  import opened HttpGrammar

  /** Stripping takes exactly the spaces at both ends. */
  lemma {:induction false} StripsFront(b: Bytes) returns (spaces: Bytes)
    ensures b == spaces + StripFront(b) && forall i :: 0 <= i < |spaces| ==> IsSpace(spaces[i])
    ensures StripFront(b) == [] || !IsSpace(StripFront(b)[0])
    decreases |b|
  {
    if b == [] || !IsSpace(b[0]) {
      spaces := [];
    } else {
      spaces := StripsFront(b[1..]);
      spaces := [b[0]] + spaces;
    }
  }

  lemma {:induction false} StripsBack(b: Bytes) returns (spaces: Bytes)
    ensures b == StripBack(b) + spaces && forall i :: 0 <= i < |spaces| ==> IsSpace(spaces[i])
    ensures StripBack(b) == [] || !IsSpace(Last(StripBack(b)))
    ensures StripBack(b) <= b
    decreases |b|
  {
    if b == [] || !IsSpace(Last(b)) {
      spaces := [];
    } else {
      spaces := StripsBack(Front(b));
      spaces := spaces + [Last(b)];
    }
  }

  /** What is left starts and ends with no space, and only spaces are lost. */
  lemma StripTakesTheSpaces(b: Bytes) returns (front: Bytes, back: Bytes)
    ensures b == front + Strip(b) + back
    ensures forall i :: 0 <= i < |front| ==> IsSpace(front[i])
    ensures forall i :: 0 <= i < |back| ==> IsSpace(back[i])
    ensures Strip(b) != [] ==> !IsSpace(Strip(b)[0]) && !IsSpace(Last(Strip(b)))
  {
    front := StripsFront(b);
    back := StripsBack(StripFront(b));
    AppendAssoc(front, Strip(b), back);
  }

  lemma {:induction false} BuiltAt(headers: Headers, i: nat)
    requires i < |headers|
    ensures |Built(headers)| == |headers|
    ensures Built(headers)[i] == (Strip(headers[i].0), Strip(headers[i].1))
    decreases |headers|
  {
    if |headers| == 1 {
    } else {
      BuiltAt(Front(headers), if i < |headers| - 1 then i else 0);
    }
  }

  lemma {:induction false} LinkAt(links: seq<Bytes>, i: nat)
    requires i < |links|
    ensures |LinkHeaders(links)| == |links| && LinkHeaders(links)[i] == (LINK, Strip(links[i]))
    decreases |links|
  {
    if |links| == 1 {
    } else {
      LinkAt(Front(links), if i < |links| - 1 then i else 0);
    }
  }

  /** The client is gone, or was refused. */
  predicate Shut(moves: seq<Move>)
  {
    exists i :: 0 <= i < |moves| && (moves[i] == Incoming(Closing)
                                     || (moves[i].Incoming? && moves[i].event.Request? && !moves[i].event.knownServer))
  }

  /** The request, if one came before the client was gone. */
  function Asked(moves: seq<Move>): Option<Inbound>
  {
    if moves == [] then None
    else if Last(moves).Incoming? && Last(moves).event.Request? && !Shut(Front(moves)) then Some(Last(moves).event)
    else Asked(Front(moves))
  }

  predicate AppRuns(moves: seq<Move>)
  {
    Asked(moves).Some? && Asked(moves).value.Request? && Asked(moves).value.knownServer
  }

  /** How far the app has got with its response. */
  datatype Stage = Before | Sending(status: nat, trailers: bool) | Trailing(status: nat) | AllSent

  /** A message takes the response on. */
  function StageAfter(scope: Scope, st: Stage, shut: bool, m: Message): Stage
  {
    var takes := TakesTrailers(scope.headers);
    match (st, m)
    case (Before, StartMessage(status, trailers, headers)) =>
      if ValidHeaders(headers) then Sending(status, trailers) else Before
    case (Before, TrailersMessage(headers, more)) =>
      if scope.version == Http1 || (takes && !ValidHeaders(headers)) || (!takes && more) then Before
      else if takes && more then Trailing(200)
      else AllSent
    case (Before, Finished) => if shut then Before else AllSent
    case (Sending(status, trailers), BodyMessage(_, false)) => if trailers then Trailing(status) else AllSent
    case (Trailing(status), TrailersMessage(headers, false)) =>
      if scope.version == Http1 || (takes && !ValidHeaders(headers)) then st else AllSent
    case _ => st
  }

  function StageOf(moves: seq<Move>): Stage
  {
    if moves == [] then Before
    else
      var st := StageOf(Front(moves));
      match Last(moves)
      case Incoming(Request(_, false)) => if Shut(Front(moves)) then st else AllSent
      case Incoming(_) => st
      case Outgoing(m) =>
        match Asked(Front(moves))
        case Some(Request(scope, _)) => StageAfter(scope, st, Shut(Front(moves)), m)
        case _ => st
  }

  /** The headers of the trailers messages sent while trailers were due, for a
      client that takes them. */
  function Given(moves: seq<Move>): Headers
  {
    if moves == [] then []
    else
      match (Last(moves), Asked(Front(moves)))
      case (Outgoing(TrailersMessage(headers, _)), Some(Request(scope, _))) =>
        if StageOf(Front(moves)).Trailing? && scope.version != Http1 && TakesTrailers(scope.headers)
           && ValidHeaders(headers)
        then Given(Front(moves)) + Built(headers) else Given(Front(moves))
      case _ => Given(Front(moves))
  }

  /** A start message came too soon to be refused for anything but its headers. */
  predicate Tried(moves: seq<Move>)
  {
    moves != []
    && (Tried(Front(moves))
        || (Last(moves).Outgoing? && Last(moves).message.StartMessage? && StageOf(Front(moves)) == Before))
  }

  /** What the moves so far tell about a request that was asked. */
  datatype Told = Told(scope: Scope, stage: Stage, shut: bool, given: Headers, tried: bool)

  function ToldBy(moves: seq<Move>): Option<Told>
  {
    match Asked(moves)
    case Some(Request(scope, _)) => Some(Told(scope, StageOf(moves), Shut(moves), Given(moves), Tried(moves)))
    case _ => None
  }

  /** Only answers to HEAD, and 1xx, 204 and 304 answers, have no content. */
  predicate HasContent(isHead: bool, status: nat)
  {
    !isHead && status !in {204, 304} && (status < 100 || status >= 200)
  }

  /* What one message adds, kind by kind. */

  function AnswerTo(t: Told, m: Message): seq<Event>
  {
    match (t.stage, m)
    case (Before, StartMessage(status, _, headers)) =>
      if ValidHeaders(headers) then [Response(status, Built(headers))] else []
    case (Before, TrailersMessage(headers, _)) =>
      if t.scope.version != Http1 && TakesTrailers(t.scope.headers) && ValidHeaders(headers)
      then [Response(200, Built(headers))] else []
    case (Before, Finished) => if t.shut then [] else [Response(500, ERROR_HEADERS)]
    case _ => []
  }

  function HintTo(t: Told, m: Message): seq<Event>
  {
    if m.HintMessage? && t.stage == Before && t.scope.version != Http1 then [Informational(103, LinkHeaders(m.links))]
    else []
  }

  function PushTo(t: Told, m: Message): seq<Event>
  {
    if m.PushMessage? && t.scope.version != Http1 && m.pathIsText && ValidHeaders(m.headers)
    then [PushRequest(Built(m.headers))] else []
  }

  function BodyTo(t: Told, m: Message): seq<Event>
  {
    if m.BodyMessage? && t.stage.Sending? && m.body != [] && HasContent(t.scope.isHead, t.stage.status)
    then [Body(m.body)] else []
  }

  predicate Ends(t: Told, m: Message)
  {
    t.stage != AllSent && StageAfter(t.scope, t.stage, t.shut, m) == AllSent
  }

  function TrailersTo(t: Told, m: Message): seq<Event>
  {
    if t.stage.Trailing? && m.TrailersMessage? && Ends(t, m) then
      var all := t.given + if TakesTrailers(t.scope.headers) then Built(m.headers) else [];
      if all == [] then [] else [Trailers(all)]
    else []
  }

  function EndTo(t: Told, m: Message): seq<Event> { if Ends(t, m) then [EndBody] else [] }

  /** The close follows the end, unless that ended a response nobody ever tried
      to begin; and an app that is over closes its stream. */
  function ClosedTo(t: Told, m: Message): seq<Event>
  {
    if m == Finished then (if t.shut then [] else [StreamClosed])
    else if Ends(t, m) && (t.stage != Before || TakesTrailers(t.scope.headers) || t.tried) then [StreamClosed]
    else []
  }

  function FirstTo(t: Told, m: Message): seq<Event>
  {
    match m
    case HintMessage(_) => HintTo(t, m)
    case PushMessage(_, _) => PushTo(t, m)
    case BodyMessage(_, _) => BodyTo(t, m)
    case TrailersMessage(_, _) => if t.stage == Before then AnswerTo(t, m) else TrailersTo(t, m)
    case _ => AnswerTo(t, m)
  }

  function AddedBy(t: Told, m: Message): seq<Event> { FirstTo(t, m) + EndTo(t, m) + ClosedTo(t, m) }

  /** All that a stream emits, told from the moves. */
  function Script(moves: seq<Move>): seq<Event>
  {
    if moves == [] then []
    else
      match Last(moves)
      case Incoming(Request(_, false)) =>
        if Shut(Front(moves)) then Script(Front(moves))
        else Script(Front(moves)) + [Response(404, ERROR_HEADERS), EndBody]
      case Incoming(_) => Script(Front(moves))
      case Outgoing(m) =>
        match ToldBy(Front(moves))
        case Some(t) => Script(Front(moves)) + AddedBy(t, m)
        case None => Script(Front(moves))
  }

  /** The stream's state is what the moves tell. */
  predicate Agrees(h: Http, t: Told)
  {
    && h.scope == Some(t.scope) && h.closed == t.shut && h.trailerHeaders == t.given
    && match t.stage
       case Before => h.state == REQUEST && (h.response.Some? <==> t.tried)
       case Sending(status, trailers) => h.state == RESPONSE && h.response == Some(Start(status, trailers))
       case Trailing(status) => h.state == TRAILERS && h.response.Some? && h.response.value.status == status
       case AllSent => h.state == CLOSED
  }

  lemma FinishedAdds(h: Http, t: Told)
    requires Agrees(h, t)
    ensures AppSend(h, Finished).events == AddedBy(t, Finished)
  {
    if !t.shut && t.stage == Before {
      assert AppSend(h, Finished).events == [Response(500, ERROR_HEADERS)] + [EndBody] + [StreamClosed];
    } else {
      assert !Ends(t, Finished);
    }
  }

  lemma StartAdds(h: Http, t: Told, m: Message)
    requires Agrees(h, t) && m.StartMessage?
    ensures AppSend(h, m).events == AddedBy(t, m)
  {
  }

  lemma BodyAdds(h: Http, t: Told, m: Message)
    requires Agrees(h, t) && m.BodyMessage?
    ensures AppSend(h, m).events == AddedBy(t, m)
  {
  }

  lemma EarlyTrailersAdd(h: Http, t: Told, m: Message)
    requires Agrees(h, t) && m.TrailersMessage? && t.stage == Before
    ensures AppSend(h, m).events == AddedBy(t, m)
  {
  }

  lemma LateTrailersAdd(h: Http, t: Told, m: Message)
    requires Agrees(h, t) && m.TrailersMessage? && t.stage != Before
    ensures AppSend(h, m).events == AddedBy(t, m)
  {
    assert t.given + [] == t.given;
  }

  lemma OtherAdds(h: Http, t: Told, m: Message)
    requires Agrees(h, t) && (m.HintMessage? || m.PushMessage? || m.OtherMessage?)
    ensures AppSend(h, m).events == AddedBy(t, m)
  {
  }

  lemma MessageAdds(h: Http, t: Told, m: Message)
    requires Agrees(h, t)
    ensures AppSend(h, m).events == AddedBy(t, m)
  {
    match m
    case Finished => FinishedAdds(h, t);
    case StartMessage(_, _, _) => StartAdds(h, t, m);
    case BodyMessage(_, _) => BodyAdds(h, t, m);
    case TrailersMessage(_, _) =>
      if t.stage == Before {
        EarlyTrailersAdd(h, t, m);
      } else {
        LateTrailersAdd(h, t, m);
      }
    case _ => OtherAdds(h, t, m);
  }

  /** What the moves tell once the app has sent one message more. */
  function ToldAfter(t: Told, m: Message): Told
  {
    t.(stage := StageAfter(t.scope, t.stage, t.shut, m),
       given := if m.TrailersMessage? && t.stage.Trailing? && t.scope.version != Http1
                   && TakesTrailers(t.scope.headers) && ValidHeaders(m.headers)
                then t.given + Built(m.headers) else t.given,
       tried := t.tried || (m.StartMessage? && t.stage == Before))
  }

  lemma TrailersAgree(h: Http, t: Told, m: Message)
    requires Agrees(h, t) && m.TrailersMessage?
    ensures Agrees(AppSend(h, m).next, ToldAfter(t, m))
  {
  }

  lemma BodyAgrees(h: Http, t: Told, m: Message)
    requires Agrees(h, t) && m.BodyMessage?
    ensures Agrees(AppSend(h, m).next, ToldAfter(t, m))
  {
  }

  lemma OtherAgrees(h: Http, t: Told, m: Message)
    requires Agrees(h, t) && !m.TrailersMessage? && !m.BodyMessage?
    ensures Agrees(AppSend(h, m).next, ToldAfter(t, m))
  {
  }

  lemma MessageAgrees(h: Http, t: Told, m: Message)
    requires Agrees(h, t)
    ensures Agrees(AppSend(h, m).next, ToldAfter(t, m))
  {
    if m.TrailersMessage? {
      TrailersAgree(h, t, m);
    } else if m.BodyMessage? {
      BodyAgrees(h, t, m);
    } else {
      OtherAgrees(h, t, m);
    }
  }

  lemma ShutSnoc(moves: seq<Move>)
    requires moves != []
    ensures Shut(moves) <==>
              || Shut(Front(moves)) || Last(moves) == Incoming(Closing)
              || (Last(moves).Incoming? && Last(moves).event.Request? && !Last(moves).event.knownServer)
  {
    assert forall i :: 0 <= i < |moves| - 1 ==> moves[i] == Front(moves)[i];
  }

  /** A life is what its moves tell. */
  predicate LifeAgrees(moves: seq<Move>, l: Life)
  {
    && l.events == Script(moves)
    && match ToldBy(moves)
       case Some(t) => Agrees(l.http, t) && (l.http.app <==> AppRuns(moves))
       case None =>
         && l.http == FRESH.(closed := Shut(moves)) && Asked(moves) == None
         && StageOf(moves) == Before && Given(moves) == [] && !Tried(moves)
  }

  lemma MessageTells(moves: seq<Move>, t: Told, m: Message)
    requires moves != [] && Last(moves) == Outgoing(m) && ToldBy(Front(moves)) == Some(t)
    ensures ToldBy(moves) == Some(ToldAfter(t, m)) && Script(moves) == Script(Front(moves)) + AddedBy(t, m)
    ensures AppRuns(moves) == AppRuns(Front(moves))
  {
    ShutSnoc(moves);
  }

  lemma OutgoingAgrees(moves: seq<Move>, mid: Life, m: Message)
    requires moves != [] && Last(moves) == Outgoing(m) && MayMove(mid, Outgoing(m)) && LifeAgrees(Front(moves), mid)
    ensures LifeAgrees(moves, MoveOn(mid, Outgoing(m)))
  {
    var t := ToldBy(Front(moves)).value;
    MessageTells(moves, t, m);
    MessageAdds(mid.http, t, m);
    MessageAgrees(mid.http, t, m);
    ReplyKeepsApp(mid.http, m);
  }

  lemma ReplyKeepsApp(h: Http, m: Message)
    requires h.scope.Some?
    ensures AppSend(h, m).next.app == h.app
  {
  }

  lemma RequestAgrees(moves: seq<Move>, mid: Life, scope: Scope, known: bool)
    requires moves != [] && Last(moves) == Incoming(Request(scope, known))
    requires MayMove(mid, Last(moves)) && LifeAgrees(Front(moves), mid)
    ensures LifeAgrees(moves, MoveOn(mid, Last(moves)))
  {
    ShutSnoc(moves);
    assert mid.events + [] == mid.events;
    assert Tried(moves) == Tried(Front(moves)) && Given(moves) == Given(Front(moves));
  }

  lemma OtherIncomingAgrees(moves: seq<Move>, mid: Life, e: Inbound)
    requires moves != [] && Last(moves) == Incoming(e) && !e.Request?
    requires MayMove(mid, Last(moves)) && LifeAgrees(Front(moves), mid)
    ensures LifeAgrees(moves, MoveOn(mid, Last(moves)))
  {
    ShutSnoc(moves);
    assert mid.events + [] == mid.events;
    assert Tried(moves) == Tried(Front(moves)) && Given(moves) == Given(Front(moves));
  }

  lemma {:induction false} LivesAgree(moves: seq<Move>, l: Life)
    requires Lived(moves, l)
    ensures LifeAgrees(moves, l)
    decreases |moves|
  {
    if moves == [] {
    } else {
      var mid :| Lived(Front(moves), mid) && MayMove(mid, Last(moves)) && l == MoveOn(mid, Last(moves));
      LivesAgree(Front(moves), mid);
      match Last(moves)
      case Incoming(Request(scope, known)) => RequestAgrees(moves, mid, scope, known);
      case Incoming(e) => OtherIncomingAgrees(moves, mid, e);
      case Outgoing(m) => OutgoingAgrees(moves, mid, m);
    }
  }

  /** For every app and every client: what the stream emits is told by the moves. */
  lemma EventsAreTold(moves: seq<Move>, l: Life)
    requires Lived(moves, l)
    ensures l.events == Script(moves)
  {
    LivesAgree(moves, l);
  }

  datatype Kind = AResponse | AHint | ATrailers | AnyOther

  function KindOf(e: Event): Kind
  {
    match e
    case Response(_, _) => AResponse
    case Informational(_, _) => AHint
    case Trailers(_) => ATrailers
    case _ => AnyOther
  }

  /** The events of one kind. */
  function Select(events: seq<Event>, k: Kind): seq<Event>
  {
    if events == [] then []
    else Select(Front(events), k) + if KindOf(Last(events)) == k then [Last(events)] else []
  }

  lemma {:induction false} SelectAppend(a: seq<Event>, b: seq<Event>, k: Kind)
    ensures Select(a + b, k) == Select(a, k) + Select(b, k)
    decreases |b|
  {
    if b == [] {
      assert a + b == a;
    } else {
      SelectAppend(a, Front(b), k);
      assert Front(a + b) == a + Front(b) && Last(a + b) == Last(b);
    }
  }

  lemma SelectOne(e: Event, k: Kind)
    ensures Select([e], k) == if KindOf(e) == k then [e] else []
  {
    assert Front([e]) == [];
  }

  /** A part with at most one event, of this kind. */
  lemma SelectPart(part: seq<Event>, kind: Kind, k: Kind)
    requires |part| <= 1 && (part != [] ==> KindOf(part[0]) == kind)
    ensures Select(part, k) == if kind == k then part else []
  {
    if part != [] {
      SelectOne(part[0], k);
      assert part == [part[0]];
    }
  }

  /** This part, if it is of this kind. */
  function IfOfKind(part: seq<Event>, k: Kind): seq<Event>
  {
    if part != [] && KindOf(part[0]) == k then part else []
  }

  lemma FirstIsOfOneKind(t: Told, m: Message)
    ensures |FirstTo(t, m)| <= 1
    ensures IfOfKind(FirstTo(t, m), AResponse) == AnswerTo(t, m)
    ensures IfOfKind(FirstTo(t, m), AHint) == HintTo(t, m)
    ensures IfOfKind(FirstTo(t, m), ATrailers) == TrailersTo(t, m)
  {
  }

  lemma SelectShort(part: seq<Event>, k: Kind)
    requires |part| <= 1
    ensures Select(part, k) == IfOfKind(part, k)
  {
    if part != [] {
      SelectPart(part, KindOf(part[0]), k);
    }
  }

  lemma FirstOfKind(t: Told, m: Message, k: Kind)
    requires k != AnyOther
    ensures k == AResponse ==> Select(FirstTo(t, m), k) == AnswerTo(t, m)
    ensures k == AHint ==> Select(FirstTo(t, m), k) == HintTo(t, m)
    ensures k == ATrailers ==> Select(FirstTo(t, m), k) == TrailersTo(t, m)
  {
    FirstIsOfOneKind(t, m);
    SelectShort(FirstTo(t, m), k);
  }

  lemma EndIsNoKind(t: Told, m: Message, k: Kind)
    requires k != AnyOther
    ensures Select(EndTo(t, m), k) == []
  {
    SelectPart(EndTo(t, m), AnyOther, k);
  }

  lemma CloseIsNoKind(t: Told, m: Message, k: Kind)
    requires k != AnyOther
    ensures Select(ClosedTo(t, m), k) == []
  {
    SelectPart(ClosedTo(t, m), AnyOther, k);
  }

  lemma SelectFirst(first: seq<Event>, end: seq<Event>, close: seq<Event>, k: Kind)
    requires Select(end, k) == [] && Select(close, k) == []
    ensures Select(first + end + close, k) == Select(first, k)
  {
    SelectAppend(first + end, close, k);
    SelectAppend(first, end, k);
  }

  lemma AddedOfKind(t: Told, m: Message, k: Kind)
    requires k != AnyOther
    ensures Select(AddedBy(t, m), k) == Select(FirstTo(t, m), k)
  {
    EndIsNoKind(t, m, k);
    CloseIsNoKind(t, m, k);
    SelectFirst(FirstTo(t, m), EndTo(t, m), ClosedTo(t, m), k);
  }

  /** The answer a request gets: to an unknown server name 404, else the first of:
      the app's first start message that is not refused, its first trailers when
      they come first and the client takes them, or 500 for an app that is over
      before it began; none when the client was gone by then, or when the app
      ended its response without beginning it. */
  function Answer(moves: seq<Move>): Option<Event>
  {
    if moves == [] then None
    else if Answer(Front(moves)).Some? then Answer(Front(moves))
    else
      match (Last(moves), ToldBy(Front(moves)))
      case (Incoming(Request(_, false)), _) =>
        if Shut(Front(moves)) then None else Some(Response(404, ERROR_HEADERS))
      case (Outgoing(m), Some(t)) => if AnswerTo(t, m) == [] then None else Some(AnswerTo(t, m)[0])
      case _ => None
  }

  /** A message is sent only once a request was asked. */
  lemma MessageIsTold(moves: seq<Move>, l: Life, m: Message)
    requires Lived(moves, l) && moves != [] && Last(moves) == Outgoing(m)
    ensures ToldBy(Front(moves)).Some?
    ensures ToldBy(moves) == Some(ToldAfter(ToldBy(Front(moves)).value, m))
    ensures Script(moves) == Script(Front(moves)) + AddedBy(ToldBy(Front(moves)).value, m)
  {
    var mid :| Lived(Front(moves), mid) && MayMove(mid, Last(moves)) && l == MoveOn(mid, Last(moves));
    LivesAgree(Front(moves), mid);
    MessageTells(moves, ToldBy(Front(moves)).value, m);
  }

  lemma AnswerIsPast(t: Told, m: Message)
    ensures AnswerTo(t, m) != [] || t.stage != Before ==> ToldAfter(t, m).stage != Before
    ensures AnswerTo(t, m) != [] ==> t.stage == Before && |AnswerTo(t, m)| == 1
  {
  }

  lemma BeforeIn(moves: seq<Move>, l: Life) returns (mid: Life)
    requires Lived(moves, l) && moves != []
    ensures Lived(Front(moves), mid)
  {
    mid :| Lived(Front(moves), mid) && MayMove(mid, Last(moves)) && l == MoveOn(mid, Last(moves));
  }

  lemma {:induction false} AnsweredIsPast(moves: seq<Move>, l: Life)
    requires Lived(moves, l) && Answer(moves).Some?
    ensures StageOf(moves) != Before
    decreases |moves|
  {
    var mid := BeforeIn(moves, l);
    if Answer(Front(moves)) == None {
    } else {
      AnsweredIsPast(Front(moves), mid);
    }
    if Last(moves).Outgoing? {
      MessageIsTold(moves, l, Last(moves).message);
      AnswerIsPast(ToldBy(Front(moves)).value, Last(moves).message);
    }
  }

  lemma SelectTwo(before: seq<Event>, e: Event, f: Event, k: Kind)
    ensures Select(before + [e, f], k)
            == Select(before, k) + (if KindOf(e) == k then [e] else []) + (if KindOf(f) == k then [f] else [])
  {
    assert Front(before + [e, f]) == before + [e] && Front(before + [e]) == before;
  }

  lemma RefusalSelects(before: seq<Event>, k: Kind)
    requires k != AnyOther
    ensures Select(before + [Response(404, ERROR_HEADERS), EndBody], k)
            == Select(before, k) + if k == AResponse then [Response(404, ERROR_HEADERS)] else []
  {
    SelectTwo(before, Response(404, ERROR_HEADERS), EndBody, k);
  }

  lemma MessageSelects(before: seq<Event>, t: Told, m: Message, k: Kind)
    requires k != AnyOther
    ensures k == AResponse ==> Select(before + AddedBy(t, m), k) == Select(before, k) + AnswerTo(t, m)
    ensures k == AHint ==> Select(before + AddedBy(t, m), k) == Select(before, k) + HintTo(t, m)
    ensures k == ATrailers ==> Select(before + AddedBy(t, m), k) == Select(before, k) + TrailersTo(t, m)
  {
    FirstOfKind(t, m, k);
    AddedOfKind(t, m, k);
    SelectAppend(before, AddedBy(t, m), k);
  }

  function OneOrNone(e: Option<Event>): seq<Event> { if e == None then [] else [e.value] }

  lemma RequestIsFirst(moves: seq<Move>, l: Life)
    requires Lived(moves, l) && moves != [] && Last(moves).Incoming? && Last(moves).event.Request?
    ensures StageOf(Front(moves)) == Before
  {
    var mid :| Lived(Front(moves), mid) && MayMove(mid, Last(moves)) && l == MoveOn(mid, Last(moves));
    LivesAgree(Front(moves), mid);
  }

  /** One message more, when the responses so far are the answer so far. */
  lemma MessageAnswers(moves: seq<Move>, l: Life, m: Message)
    requires Lived(moves, l) && moves != [] && Last(moves) == Outgoing(m)
    requires Select(Script(Front(moves)), AResponse) == OneOrNone(Answer(Front(moves)))
    requires Answer(Front(moves)).Some? ==> StageOf(Front(moves)) != Before
    ensures Select(Script(moves), AResponse) == OneOrNone(Answer(moves))
  {
    MessageIsTold(moves, l, m);
    AnswerIsPast(ToldBy(Front(moves)).value, m);
    MessageSelects(Script(Front(moves)), ToldBy(Front(moves)).value, m, AResponse);
  }

  lemma RefusalAnswers(moves: seq<Move>, scope: Scope)
    requires moves != [] && Last(moves) == Incoming(Request(scope, false)) && Answer(Front(moves)) == None
    requires Select(Script(Front(moves)), AResponse) == OneOrNone(Answer(Front(moves)))
    ensures Select(Script(moves), AResponse) == OneOrNone(Answer(moves))
  {
    RefusalSelects(Script(Front(moves)), AResponse);
  }

  lemma {:induction false} ResponsesInScript(moves: seq<Move>, l: Life)
    requires Lived(moves, l)
    ensures Select(Script(moves), AResponse) == OneOrNone(Answer(moves))
    decreases |moves|
  {
    if moves == [] {
    } else {
      var mid := BeforeIn(moves, l);
      ResponsesInScript(Front(moves), mid);
      if Answer(Front(moves)).Some? {
        AnsweredIsPast(Front(moves), mid);
      }
      match Last(moves)
      case Incoming(Request(scope, false)) =>
        RequestIsFirst(moves, l);
        RefusalAnswers(moves, scope);
      case Incoming(_) =>
      case Outgoing(m) => MessageAnswers(moves, l, m);
    }
  }

  /** For every app and every client: the response a stream emits is the answer
      the moves call for, with its status and headers, and there is no other. */
  lemma ResponseIsTheAnswer(moves: seq<Move>, l: Life)
    requires Lived(moves, l)
    ensures Select(l.events, AResponse) == OneOrNone(Answer(moves))
  {
    EventsAreTold(moves, l);
    ResponsesInScript(moves, l);
  }

  /** The app's early hints, each as one informational response. */
  function Hints(moves: seq<Move>): seq<Event>
  {
    if moves == [] then []
    else
      match (Last(moves), ToldBy(Front(moves)))
      case (Outgoing(HintMessage(links)), Some(t)) =>
        if t.stage == Before && t.scope.version != Http1
        then Hints(Front(moves)) + [Informational(103, LinkHeaders(links))] else Hints(Front(moves))
      case _ => Hints(Front(moves))
  }

  lemma {:induction false} HintsInScript(moves: seq<Move>, l: Life)
    requires Lived(moves, l)
    ensures Select(Script(moves), AHint) == Hints(moves)
    decreases |moves|
  {
    if moves == [] {
    } else {
      var mid := BeforeIn(moves, l);
      HintsInScript(Front(moves), mid);
      match Last(moves)
      case Incoming(Request(_, false)) => RefusalSelects(Script(Front(moves)), AHint);
      case Incoming(_) =>
      case Outgoing(m) =>
        MessageIsTold(moves, l, m);
        MessageSelects(Script(Front(moves)), ToldBy(Front(moves)).value, m, AHint);
    }
  }

  /** The one Trailers event: when the last of the trailers messages came while
      trailers were due, with the headers of all of them that the client takes. */
  function TrailersSent(moves: seq<Move>): Option<Event>
  {
    if moves == [] then None
    else if TrailersSent(Front(moves)).Some? then TrailersSent(Front(moves))
    else
      match (Last(moves), ToldBy(Front(moves)))
      case (Outgoing(TrailersMessage(_, false)), Some(t)) =>
        if t.stage.Trailing? && StageOf(moves) == AllSent && Given(moves) != [] then Some(Trailers(Given(moves)))
        else None
      case _ => None
  }

  lemma TrailersAreGiven(t: Told, m: Message)
    ensures TrailersTo(t, m)
            == if m.TrailersMessage? && !m.more && t.stage.Trailing? && ToldAfter(t, m).stage == AllSent
                  && ToldAfter(t, m).given != []
               then [Trailers(ToldAfter(t, m).given)] else []
  {
    assert t.given + [] == t.given;
  }

  lemma OverStays(t: Told, m: Message)
    requires t.stage == AllSent
    ensures ToldAfter(t, m).stage == AllSent
  {
  }

  lemma {:induction false} AfterTrailers(moves: seq<Move>, l: Life)
    requires Lived(moves, l) && TrailersSent(moves).Some?
    ensures StageOf(moves) == AllSent
    decreases |moves|
  {
    var mid := BeforeIn(moves, l);
    if TrailersSent(Front(moves)) == None {
    } else {
      AfterTrailers(Front(moves), mid);
      if Last(moves).Outgoing? {
        MessageIsTold(moves, l, Last(moves).message);
        OverStays(ToldBy(Front(moves)).value, Last(moves).message);
      }
    }
  }

  lemma MessageTrails(moves: seq<Move>, l: Life, m: Message)
    requires Lived(moves, l) && moves != [] && Last(moves) == Outgoing(m)
    requires Select(Script(Front(moves)), ATrailers) == OneOrNone(TrailersSent(Front(moves)))
    requires TrailersSent(Front(moves)).Some? ==> StageOf(Front(moves)) == AllSent
    ensures Select(Script(moves), ATrailers) == OneOrNone(TrailersSent(moves))
  {
    MessageIsTold(moves, l, m);
    TrailersAreGiven(ToldBy(Front(moves)).value, m);
    MessageSelects(Script(Front(moves)), ToldBy(Front(moves)).value, m, ATrailers);
  }

  lemma {:induction false} TrailersInScript(moves: seq<Move>, l: Life)
    requires Lived(moves, l)
    ensures Select(Script(moves), ATrailers) == OneOrNone(TrailersSent(moves))
    decreases |moves|
  {
    if moves == [] {
    } else {
      var mid := BeforeIn(moves, l);
      TrailersInScript(Front(moves), mid);
      if TrailersSent(Front(moves)).Some? {
        AfterTrailers(Front(moves), mid);
      }
      match Last(moves)
      case Incoming(Request(_, false)) => RefusalSelects(Script(Front(moves)), ATrailers);
      case Incoming(_) =>
      case Outgoing(m) => MessageTrails(moves, l, m);
    }
  }

  /** For every app and every client: the informational responses are the app's
      early hints, and at most one Trailers event carries, in order, the headers
      of the app's trailers messages that the client takes. */
  lemma HintsAndTrailersAreTheApps(moves: seq<Move>, l: Life)
    requires Lived(moves, l)
    ensures Select(l.events, AHint) == Hints(moves)
    ensures Select(l.events, ATrailers) == OneOrNone(TrailersSent(moves))
  {
    EventsAreTold(moves, l);
    HintsInScript(moves, l);
    TrailersInScript(moves, l);
  }

  /** The bodies of the app's body messages while its response was under way, or
      nothing of them when it may have no content. */
  function BodiesTold(moves: seq<Move>): Bytes
  {
    if moves == [] then []
    else
      match (Last(moves), ToldBy(Front(moves)))
      case (Outgoing(BodyMessage(body, _)), Some(t)) =>
        if t.stage.Sending? && HasContent(t.scope.isHead, t.stage.status)
        then BodiesTold(Front(moves)) + body else BodiesTold(Front(moves))
      case _ => BodiesTold(Front(moves))
  }

  lemma ShortBodies(part: seq<Event>)
    requires |part| <= 1
    ensures BodiesOf(part) == if part != [] && part[0].Body? then part[0].data else []
  {
    if part != [] {
      assert part[1..] == [];
    }
  }

  lemma FirstBodies(t: Told, m: Message)
    ensures |FirstTo(t, m)| <= 1
    ensures FirstTo(t, m) != [] && FirstTo(t, m)[0].Body? <==> BodyTo(t, m) != []
    ensures BodyTo(t, m) != [] ==> FirstTo(t, m)[0] == Body(m.body)
  {
  }

  lemma AddedBodies(t: Told, m: Message)
    ensures BodiesOf(AddedBy(t, m))
            == if m.BodyMessage? && t.stage.Sending? && HasContent(t.scope.isHead, t.stage.status) then m.body else []
  {
    var first, last := FirstTo(t, m), EndTo(t, m) + ClosedTo(t, m);
    assert AddedBy(t, m) == first + last;
    BodiesAppend(first, last);
    NoBodies(last);
    ShortBodies(first);
    FirstBodies(t, m);
  }

  lemma {:induction false} BodiesInScript(moves: seq<Move>, l: Life)
    requires Lived(moves, l)
    ensures BodiesOf(Script(moves)) == BodiesTold(moves)
    decreases |moves|
  {
    if moves == [] {
    } else {
      var mid := BeforeIn(moves, l);
      BodiesInScript(Front(moves), mid);
      match Last(moves)
      case Incoming(Request(_, false)) => RefusalHasNoBody(Script(Front(moves)));
      case Incoming(_) =>
      case Outgoing(m) =>
        MessageIsTold(moves, l, m);
        BodiesAppend(Script(Front(moves)), AddedBy(ToldBy(Front(moves)).value, m));
        AddedBodies(ToldBy(Front(moves)).value, m);
    }
  }

  lemma RefusalHasNoBody(before: seq<Event>)
    ensures BodiesOf(before + [Response(404, ERROR_HEADERS), EndBody]) == BodiesOf(before)
  {
    BodiesAppend(before, [Response(404, ERROR_HEADERS), EndBody]);
    NoBodies([Response(404, ERROR_HEADERS), EndBody]);
  }

  /** The status by which bodies are let through is that of the answer. */
  lemma {:induction false} StatusIsTheAnswers(moves: seq<Move>, l: Life)
    requires Lived(moves, l) && StageOf(moves) != Before && StageOf(moves) != AllSent
    ensures Answer(moves).Some? && Answer(moves).value.Response?
    ensures Answer(moves).value.status == StageOf(moves).status
    decreases |moves|
  {
    var mid := BeforeIn(moves, l);
    if StageOf(Front(moves)) == Before {
      if Answer(Front(moves)).Some? {
        AnsweredIsPast(Front(moves), mid);
      }
      if Last(moves).Outgoing? {
        MessageIsTold(moves, l, Last(moves).message);
      }
    } else {
      if Last(moves).Outgoing? {
        MessageIsTold(moves, l, Last(moves).message);
      }
      StatusIsTheAnswers(Front(moves), mid);
    }
  }

  lemma BodiesAreTold(moves: seq<Move>, l: Life)
    requires Lived(moves, l)
    ensures BodiesOf(l.events) == BodiesTold(moves)
  {
    EventsAreTold(moves, l);
    BodiesInScript(moves, l);
  }

  lemma EndIsAdded(t: Told, m: Message)
    ensures EndBody in AddedBy(t, m) <==> t.stage != AllSent && ToldAfter(t, m).stage == AllSent
  {
    if Ends(t, m) {
      assert EndTo(t, m)[0] == EndBody;
    }
  }

  /** The response is ended exactly when the app, or its refusal, has ended it:
      with the last body when no trailers were announced, with the last of the
      trailers otherwise. */
  lemma {:induction false} EndedIffOver(moves: seq<Move>, l: Life)
    requires Lived(moves, l)
    ensures EndBody in l.events <==> StageOf(moves) == AllSent
    decreases |moves|
  {
    EventsAreTold(moves, l);
    if moves == [] {
    } else {
      var mid := BeforeIn(moves, l);
      EndedIffOver(Front(moves), mid);
      EventsAreTold(Front(moves), mid);
      match Last(moves)
      case Incoming(Request(_, false)) =>
        assert [Response(404, ERROR_HEADERS), EndBody][1] == EndBody;
      case Incoming(_) =>
      case Outgoing(m) =>
        MessageIsTold(moves, l, m);
        EndIsAdded(ToldBy(Front(moves)).value, m);
        if StageOf(Front(moves)) == AllSent {
          OverStays(ToldBy(Front(moves)).value, m);
        }
    }
  }

  /** What the source raises an exception for. */
  predicate Refused(t: Told, m: Message)
  {
    var takes := TakesTrailers(t.scope.headers);
    match m
    case Finished => false
    case StartMessage(_, _, headers) => t.stage != Before || !ValidHeaders(headers)
    case PushMessage(pathIsText, headers) => t.scope.version == Http1 || !pathIsText || !ValidHeaders(headers)
    case HintMessage(_) => t.scope.version == Http1 || t.stage != Before
    case BodyMessage(_, _) => !t.stage.Sending?
    case TrailersMessage(headers, more) =>
      || t.scope.version == Http1 || (t.stage != Before && !t.stage.Trailing?)
      || (takes && !ValidHeaders(headers))
      || (t.stage == Before && !takes && !more && !t.tried)
    case OtherMessage => true
  }

  lemma RaisesIffRefused(h: Http, t: Told, m: Message)
    requires Agrees(h, t)
    ensures AppSend(h, m).raised <==> Refused(t, m)
  {
  }

  /** A message raises if and only if it does not go with the moves so far. */
  lemma MessagesRaiseIff(moves: seq<Move>, l: Life, m: Message)
    requires Lived(moves, l) && MayMove(l, Outgoing(m))
    ensures ToldBy(moves).Some? && (AppSend(l.http, m).raised <==> Refused(ToldBy(moves).value, m))
  {
    LivesAgree(moves, l);
    RaisesIffRefused(l.http, ToldBy(moves).value, m);
  }

  /** What the app hears: the parts of the request's body, its end and the
      disconnect, in order, from the request on until the client is gone. */
  function Heard(moves: seq<Move>): seq<ToApp>
  {
    if moves == [] then []
    else if !AppRuns(Front(moves)) || Shut(Front(moves)) then Heard(Front(moves))
    else
      match Last(moves)
      case Incoming(RequestBody(data)) => Heard(Front(moves)) + [AppBody(data)]
      case Incoming(RequestEnd) => Heard(Front(moves)) + [AppBodyEnd]
      case Incoming(Closing) => Heard(Front(moves)) + [Disconnect]
      case _ => Heard(Front(moves))
  }

  /** For every app and every client: the app is put exactly what it should hear,
      so that the bodies it gets are those of the request, in order. */
  lemma {:induction false} AppHearsTheRequest(moves: seq<Move>, l: Life)
    requires Lived(moves, l)
    ensures l.put == Heard(moves)
    decreases |moves|
  {
    if moves == [] {
    } else {
      var mid :| Lived(Front(moves), mid) && MayMove(mid, Last(moves)) && l == MoveOn(mid, Last(moves));
      AppHearsTheRequest(Front(moves), mid);
      LivesAgree(Front(moves), mid);
      if Last(moves).Incoming? {
        IncomingIsHeard(Front(moves), mid, Last(moves).event);
      }
    }
  }

  lemma IncomingIsHeard(before: seq<Move>, mid: Life, e: Inbound)
    requires LifeAgrees(before, mid) && MayMove(mid, Incoming(e))
    ensures Handle(mid.http, e).2
            == if !AppRuns(before) || Shut(before) then []
               else match e
                 case RequestBody(data) => [AppBody(data)]
                 case RequestEnd => [AppBodyEnd]
                 case Closing => [Disconnect]
                 case _ => []
  {
  }

  /** How the first event that ends a response ends it: bare or by trailers. */
  function FirstEnd(events: seq<Event>): Option<Option<Headers>>
  {
    if events == [] then None
    else
      match events[0]
      case Trailers(headers) => Some(Some(headers))
      case EndBody => Some(None)
      case _ => FirstEnd(events[1..])
  }

  lemma {:induction false} FirstEndAppend(a: seq<Event>, b: seq<Event>)
    ensures FirstEnd(a + b) == if FirstEnd(a).Some? then FirstEnd(a) else FirstEnd(b)
    decreases |a|
  {
    if a == [] {
      assert a + b == b;
    } else {
      assert (a + b)[0] == a[0] && (a + b)[1..] == a[1..] + b;
      FirstEndAppend(a[1..], b);
    }
  }

  lemma FirstEndOne(e: Event)
    ensures FirstEnd([e]) == match e { case Trailers(headers) => Some(Some(headers)) case EndBody => Some(None)
                                       case _ => None }
  {
    assert [e][1..] == [];
  }

  lemma {:induction false} TrailersSentIsTrailers(moves: seq<Move>)
    ensures TrailersSent(moves).Some? ==> TrailersSent(moves).value.Trailers?
    decreases |moves|
  {
    if moves == [] {
    } else {
      TrailersSentIsTrailers(Front(moves));
    }
  }

  /** How the moves so far end the response. */
  function EndTold(moves: seq<Move>): Option<Option<Headers>>
  {
    if StageOf(moves) != AllSent then None
    else
      match TrailersSent(moves)
      case Some(Trailers(headers)) => Some(Some(headers))
      case _ => Some(None)
  }

  lemma FirstEndAdded(t: Told, m: Message)
    ensures FirstEnd(AddedBy(t, m))
            == if !Ends(t, m) then None
               else if TrailersTo(t, m) == [] then Some(None)
               else Some(Some(TrailersTo(t, m)[0].headers))
  {
    FirstEndAppend(FirstTo(t, m) + EndTo(t, m), ClosedTo(t, m));
    FirstEndAppend(FirstTo(t, m), EndTo(t, m));
    FirstEndShort(FirstTo(t, m));
    FirstEndShort(EndTo(t, m));
    FirstEndShort(ClosedTo(t, m));
    FirstIsOfOneKind(t, m);
    FirstEndsNothing(t, m);
  }

  lemma FirstEndShort(part: seq<Event>)
    requires |part| <= 1
    ensures FirstEnd(part) == if part == [] then None
                              else match part[0] {
                                     case Trailers(headers) => Some(Some(headers))
                                     case EndBody => Some(None)
                                     case _ => None
                                   }
  {
    if part != [] {
      FirstEndOne(part[0]);
      assert part == [part[0]];
    }
  }

  lemma FirstEndsNothing(t: Told, m: Message)
    ensures FirstTo(t, m) != [] ==> FirstTo(t, m)[0] != EndBody
  {
  }

  lemma MessageEndTold(moves: seq<Move>, l: Life, m: Message)
    requires Lived(moves, l) && moves != [] && Last(moves) == Outgoing(m)
    requires FirstEnd(Script(Front(moves))) == EndTold(Front(moves))
    requires TrailersSent(Front(moves)).Some? ==> StageOf(Front(moves)) == AllSent
    ensures FirstEnd(Script(moves)) == EndTold(moves)
  {
    MessageIsTold(moves, l, m);
    var t := ToldBy(Front(moves)).value;
    FirstEndAppend(Script(Front(moves)), AddedBy(t, m));
    FirstEndAdded(t, m);
    TrailersAreGiven(t, m);
    TrailersSentIsTrailers(Front(moves));
    if t.stage == AllSent {
      OverStays(t, m);
    }
  }

  lemma RefusalEndTold(moves: seq<Move>, scope: Scope)
    requires moves != [] && Last(moves) == Incoming(Request(scope, false)) && StageOf(Front(moves)) == Before
    requires FirstEnd(Script(Front(moves))) == EndTold(Front(moves)) && TrailersSent(Front(moves)) == None
    ensures FirstEnd(Script(moves)) == EndTold(moves)
  {
    var refusal := [Response(404, ERROR_HEADERS), EndBody];
    FirstEndAppend(Script(Front(moves)), refusal);
    FirstEndOne(EndBody);
    assert refusal[1..] == [EndBody];
  }

  /** The first end among the events is told by the moves. */
  lemma {:induction false} FirstEndInScript(moves: seq<Move>, l: Life)
    requires Lived(moves, l)
    ensures FirstEnd(Script(moves)) == EndTold(moves)
    decreases |moves|
  {
    if moves == [] {
    } else {
      var mid := BeforeIn(moves, l);
      FirstEndInScript(Front(moves), mid);
      if TrailersSent(Front(moves)).Some? {
        AfterTrailers(Front(moves), mid);
      }
      match Last(moves)
      case Incoming(Request(scope, false)) =>
        RequestIsFirst(moves, l);
        RefusalEndTold(moves, scope);
      case Incoming(_) =>
      case Outgoing(m) => MessageEndTold(moves, l, m);
    }
  }

  lemma FirstEndIsTold(moves: seq<Move>, l: Life)
    requires Lived(moves, l)
    ensures FirstEnd(l.events) == EndTold(moves)
    ensures TrailersSent(moves).Some? ==> TrailersSent(moves).value.Trailers?
  {
    EventsAreTold(moves, l);
    FirstEndInScript(moves, l);
    TrailersSentIsTrailers(moves);
  }
}
