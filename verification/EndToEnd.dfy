/** From the app's messages to the frames on the wire: HTTP streams on top of
    the HTTP/2 send path, in any interleaving. */
module EndToEnd {
  import opened Common
  import opened StreamBuffers
  import opened H2Send
  import opened H2System
  import opened H2Fidelity
  import H = HttpStreams
  import G = HttpGrammar

  /** A stream's app: its life so far and the events of its current message
      that are still to be carried out, one at a time. */
  datatype App = App(life: G.Life, todo: seq<H.Event>)

  datatype Connection = Connection(sys: System, apps: map<int, App>)

  datatype Action =
    | Open(id: int, scope: H.Scope, knownServer: bool)
    | Transport(step: Step)
    | Arrive(id: int, event: H.Inbound)
    | Message(id: int, message: H.Message)
    | Perform(id: int)

  const NEW_CONNECTION := Connection(INITIAL, map[])

  /** Steps that only a stream's app or the opening of a stream takes. */
  predicate IsReserved(step: Step)
  {
    step.PushStep? || step.EndStep? || step.TrailersStep? || step.RegisterStep?
  }

  /** The app of a stream sends its next message, or the next event of one,
      only when the previous send has returned. */
  predicate May(c: Connection, a: Action)
  {
    match a
    case Open(id, _, _) => Enabled(c.sys, RegisterStep(id))
    case Transport(step) => Enabled(c.sys, step) && !IsReserved(step)
    case Arrive(id, event) => id in c.apps && !event.Request?
    case Message(id, m) =>
      && id in c.apps && c.apps[id].todo == [] && G.MayMove(c.apps[id].life, G.Outgoing(m))
      && id in c.sys.producers && c.sys.producers[id] == Idle
    case Perform(id) =>
      && id in c.apps && c.apps[id].todo != []
      && id in c.sys.producers && c.sys.producers[id] == Idle
  }

  /** A new stream's app; an unknown server name leaves an error response due. */
  function OpeningApp(scope: H.Scope, knownServer: bool): App
  {
    var life := G.MoveOn(G.NEW_LIFE, G.Incoming(H.Request(scope, knownServer)));
    App(life, life.events)
  }

  /** `stream_send` for one event; headers and pushes carry no DATA. */
  function Carry(s: System, id: int, e: H.Event): System
    requires Base(s) && id in s.producers && s.producers[id] == Idle
  {
    match e
    case Body(data) => Next(s, PushStep(id, data))
    case EndBody => Next(s, EndStep(id))
    case Trailers(headers) => Next(s, TrailersStep(id, headers))
    case StreamClosed => Next(s, CloseStep(id))
    case _ => s
  }

  function Act(c: Connection, a: Action): Connection
    requires Base(c.sys) && May(c, a)
  {
    match a
    case Open(id, scope, knownServer) =>
      Connection(Next(c.sys, RegisterStep(id)), c.apps[id := OpeningApp(scope, knownServer)])
    case Transport(step) => c.(sys := Next(c.sys, step))
    case Arrive(id, event) =>
      var app := c.apps[id];
      c.(apps := c.apps[id := app.(life := G.MoveOn(app.life, G.Incoming(event)))])
    case Message(id, m) =>
      var app := c.apps[id];
      c.(apps := c.apps[id := App(G.MoveOn(app.life, G.Outgoing(m)), H.AppSend(app.life.http, m).events)])
    case Perform(id) =>
      var app := c.apps[id];
      Connection(Carry(c.sys, id, app.todo[0]), c.apps[id := app.(todo := app.todo[1..])])
  }

  ghost predicate Acted(actions: seq<Action>, c: Connection)
    decreases |actions|
  {
    if actions == [] then c == NEW_CONNECTION
    else exists mid :: Acted(Front(actions), mid) && Base(mid.sys) && May(mid, Last(actions))
                       && c == Act(mid, Last(actions))
  }

  predicate IsEnding(e: H.Event) { e.EndBody? || e.Trailers? }

  /** No body follows an end, and an end is due only once the app's messages
      can bring no more bodies. */
  ghost predicate EndsLast(events: seq<H.Event>, state: H.State)
  {
    && (forall i, j :: 0 <= i < j < |events| && IsEnding(events[i]) ==> !events[j].Body?)
    && (forall i :: 0 <= i < |events| && IsEnding(events[i]) ==> state == H.CLOSED)
  }

  /** The events of the life so far that were carried out. */
  function Done(app: App): seq<H.Event>
    requires |app.todo| <= |app.life.events|
  {
    app.life.events[..|app.life.events| - |app.todo|]
  }

  ghost predicate Living(l: G.Life) { exists moves :: G.Lived(moves, l) }

  ghost predicate WellBegun(app: App)
  {
    && Living(app.life)
    && |app.todo| <= |app.life.events| && app.life.events == Done(app) + app.todo
    && EndsLast(app.todo, app.life.http.state)
  }

  predicate NoMoreBody(app: App) { app.life.http.state == H.CLOSED && G.BodiesOf(app.todo) == [] }

  /** How a stream's app, its buffer and its history hang together. */
  ghost predicate Joined(s: System, id: int, app: App)
  {
    && id in s.producers && WellBegun(app)
    && (Live(s, id) ==> AcceptedOn(s.history, id) == G.BodiesOf(Done(app)))
    && AcceptedOn(s.history, id) <= G.BodiesOf(Done(app))
    && (Live(s, id) && s.sched.buffers[id].complete ==> NoMoreBody(app))
    && (EndedIn(s.history, id) ==> NoMoreBody(app) && AcceptedOn(s.history, id) == G.BodiesOf(Done(app)))
  }

  ghost predicate AllJoined(c: Connection)
  {
    && Reachable(c.sys) && Base(c.sys)
    && c.apps.Keys == c.sys.producers.Keys
    && forall id :: id in c.apps ==> Joined(c.sys, id, c.apps[id])
  }

  lemma LivesOn(l: G.Life, move: G.Move)
    requires Living(l) && G.MayMove(l, move)
    ensures Living(G.MoveOn(l, move))
  {
    var moves :| G.Lived(moves, l);
    assert Front(moves + [move]) == moves;
    assert G.Lived(moves + [move], G.MoveOn(l, move));
  }

  /** What a transport step does to one stream's history and buffer. */
  ghost predicate Undisturbed(s: System, s': System, id: int)
  {
    && AcceptedOn(s'.history, id) == AcceptedOn(s.history, id)
    && (Live(s', id) ==> Live(s, id) && s'.sched.buffers[id].complete == s.sched.buffers[id].complete)
    && (EndedIn(s'.history, id) && !EndedIn(s.history, id) ==>
          Live(s, id) && s.sched.buffers[id].complete)
    && s'.producers.Keys == s.producers.Keys
  }

  lemma ExtendAccepted(h: History, id: int, data: Bytes, end: Option<Frame>, closed: bool, j: int)
    requires end.Some? ==> IsEnd(end.value) && end.value.id == id
    ensures var h' := Extended(h, id, data, end, closed);
            && AcceptedOn(h', j) == AcceptedOn(h, j)
            && (EndedIn(h', j) ==> EndedIn(h, j) || (j == id && end.Some?))
  {
    var h1 := if data == [] then h else Then(h, FrameSent(DataFrame(id, data)));
    assert AcceptedOn(h1, j) == AcceptedOn(h, j) && (EndedIn(h1, j) ==> EndedIn(h, j));
    var h2 := if end == None then h1 else Then(h1, FrameSent(end.value));
    assert AcceptedOn(h2, j) == AcceptedOn(h, j);
    assert EndedIn(h2, j) ==> EndedIn(h1, j) || (j == id && end.Some?);
  }

  lemma SendDisturbsNone(s: System, s': System, i: int, data: Bytes, end: Option<Frame>, closed: bool, id: int)
    requires Base(s) && SentStep(s, s', i, data, end, closed)
    ensures Undisturbed(s, s', id)
  {
    ExtendAccepted(s.history, i, data, end, closed, id);
  }

  lemma TransportDisturbsNone(s: System, step: Step, id: int)
    requires Base(s) && Enabled(s, step) && !IsReserved(step)
    ensures Undisturbed(s, Next(s, step), id)
  {
    if step.SendStep? {
      var sent := SendData(s.sched, s.windows, step.id, step.fault);
      SendOutcome(s.sched, s.windows, step.id, step.fault);
      var data, end := SendIsStep(s, step.id, sent);
      SendDisturbsNone(s, AfterSend(s, step.id, sent), step.id, data, end, sent.closed, id);
    } else {
      OtherDisturbsNone(s, step, id);
    }
  }

  lemma TaskDisturbsNone(s: System, step: Step, id: int)
    requires Base(s) && Enabled(s, step) && IsTask(step) && !step.SendStep?
    ensures Undisturbed(s, Next(s, step), id)
  {
  }

  lemma OtherDisturbsNone(s: System, step: Step, id: int)
    requires Base(s) && Enabled(s, step) && !IsReserved(step) && !step.SendStep?
    ensures Undisturbed(s, Next(s, step), id)
  {
    if IsTask(step) {
      TaskDisturbsNone(s, step, id);
    }
  }

  lemma TransportKeeps(c: Connection, step: Step)
    requires AllJoined(c) && May(c, Transport(step))
    ensures AllJoined(Act(c, Transport(step)))
  {
    ReachNext(c.sys, step);
    var c' := Act(c, Transport(step));
    forall id | id in c'.apps
      ensures Joined(c'.sys, id, c'.apps[id]) && c'.sys.producers.Keys == c.sys.producers.Keys
    {
      assert Joined(c.sys, id, c.apps[id]);
      TransportDisturbsNone(c.sys, step, id);
    }
    TransportDisturbsNone(c.sys, step, 0);
  }

  lemma OpeningIsWellBegun(scope: H.Scope, knownServer: bool)
    ensures WellBegun(OpeningApp(scope, knownServer)) && Done(OpeningApp(scope, knownServer)) == []
  {
    var life := OpeningApp(scope, knownServer).life;
    assert Living(life) by {
      assert G.Lived([], G.NEW_LIFE);
      LivesOn(G.NEW_LIFE, G.Incoming(H.Request(scope, knownServer)));
    }
    assert life.events == [] + life.events;
    if !knownServer {
      ErrorEndsLast(404);
      assert life.events == H.ErrorResponse(404);
    }
  }

  lemma ErrorEndsLast(status: nat)
    ensures EndsLast(H.ErrorResponse(status), H.CLOSED)
  {
    var events := H.ErrorResponse(status);
    assert |events| == 2 && !IsEnding(events[0]) && !events[1].Body?;
  }

  /** Putting one app's state back among the others. */
  lemma JoinAgain(c: Connection, s': System, id: int, app: App)
    requires AllJoined(c) && Reachable(s') && Base(s')
    requires s'.producers.Keys == c.apps.Keys + {id} && Joined(s', id, app)
    requires forall j :: j in c.apps && j != id ==> Joined(s', j, c.apps[j])
    ensures AllJoined(Connection(s', c.apps[id := app]))
  {
    var apps := c.apps[id := app];
    forall j | j in apps
      ensures Joined(s', j, apps[j])
    {
      assert j != id ==> apps[j] == c.apps[j];
    }
  }

  lemma OpenJoins(s: System, id: int, app: App)
    requires Base(s) && Enabled(s, RegisterStep(id)) && Faithful(s, id)
    requires WellBegun(app) && Done(app) == []
    ensures Joined(DoRegister(s, id), id, app)
  {
  }

  lemma OpenKeepsOthers(s: System, id: int, j: int, app: App)
    requires Base(s) && Enabled(s, RegisterStep(id)) && j != id && Joined(s, j, app)
    ensures Joined(DoRegister(s, id), j, app)
  {
  }

  lemma OpenKeepsAllOthers(c: Connection, id: int)
    requires AllJoined(c) && Enabled(c.sys, RegisterStep(id))
    ensures forall j :: j in c.apps && j != id ==> Joined(DoRegister(c.sys, id), j, c.apps[j])
  {
    forall j | j in c.apps && j != id
      ensures Joined(DoRegister(c.sys, id), j, c.apps[j])
    {
      OpenKeepsOthers(c.sys, id, j, c.apps[j]);
    }
  }

  lemma OpenKeeps(c: Connection, id: int, scope: H.Scope, knownServer: bool)
    requires AllJoined(c) && May(c, Open(id, scope, knownServer))
    requires Faithful(c.sys, id)
    ensures AllJoined(Act(c, Open(id, scope, knownServer)))
  {
    ReachNext(c.sys, RegisterStep(id));
    OpeningIsWellBegun(scope, knownServer);
    OpenJoins(c.sys, id, OpeningApp(scope, knownServer));
    OpenKeepsAllOthers(c, id);
    JoinAgain(c, DoRegister(c.sys, id), id, OpeningApp(scope, knownServer));
  }

  lemma AppReplaced(c: Connection, id: int, app: App, c': Connection)
    requires AllJoined(c) && id in c.apps && Joined(c.sys, id, app) && c' == Connection(c.sys, c.apps[id := app])
    ensures AllJoined(c')
  {
    JoinAgain(c, c.sys, id, app);
  }

  lemma ArriveJoins(s: System, id: int, app: App, event: H.Inbound)
    requires Joined(s, id, app) && !event.Request?
    ensures Joined(s, id, app.(life := G.MoveOn(app.life, G.Incoming(event))))
  {
    LivesOn(app.life, G.Incoming(event));
    var life := G.MoveOn(app.life, G.Incoming(event));
    assert life.events == app.life.events && life.http.state == app.life.http.state;
  }

  lemma ArriveKeeps(c: Connection, id: int, event: H.Inbound)
    requires AllJoined(c) && May(c, Arrive(id, event))
    ensures AllJoined(Act(c, Arrive(id, event)))
  {
    var c' := Act(c, Arrive(id, event));
    ArriveJoins(c.sys, id, c.apps[id], event);
    AppReplaced(c, id, c'.apps[id], c');
  }

  predicate NoEnding(events: seq<H.Event>) { forall i :: 0 <= i < |events| ==> !IsEnding(events[i]) }

  lemma NoEndingEndsLast(events: seq<H.Event>, state: H.State)
    requires NoEnding(events)
    ensures EndsLast(events, state)
  {
  }

  /** At most one event, then the end of the response. */
  lemma ClosingEndsLast(h: H.Http, before: seq<H.Event>)
    requires |before| <= 1
    ensures EndsLast(H.SendClosed(h, before).events, H.CLOSED)
  {
  }

  lemma BodyEndsLast(h: H.Http, body: Bytes, more: bool)
    requires h.scope.Some?
    ensures var r := H.AppSend(h, H.BodyMessage(body, more)); EndsLast(r.events, r.next.state)
  {
    if h.state == H.RESPONSE && h.response.Some? {
      var events := if H.Suppressed(h.scope.value.isHead, h.response.value.status) || body == []
                    then [] else [H.Body(body)];
      NoEndingEndsLast(events, h.state);
      NoEndingEndsLast(events, H.TRAILERS);
      ClosingEndsLast(h, events);
    }
  }

  lemma TrailersEndLast(h: H.Http, headers: Headers, more: bool)
    requires h.scope.Some?
    ensures var r := H.AppSend(h, H.TrailersMessage(headers, more)); EndsLast(r.events, r.next.state)
  {
    if h.state == H.REQUEST {
      ClosingEndsLast(h, []);
      var begun := h.(response := Some(H.Start(200, false)), state := H.TRAILERS);
      ClosingEndsLast(begun, [H.Response(200, H.Built(headers))]);
    } else {
      var all := if H.TakesTrailers(h.scope.value.headers) then h.trailerHeaders + H.Built(headers)
                 else h.trailerHeaders;
      ClosingEndsLast(h.(trailerHeaders := all), if all == [] then [] else [H.Trailers(all)]);
    }
  }

  lemma OtherEndsLast(h: H.Http, m: H.Message)
    requires h.scope.Some? && !m.BodyMessage? && !m.TrailersMessage?
    ensures var r := H.AppSend(h, m); EndsLast(r.events, r.next.state)
  {
  }

  lemma ReplyEndsLast(h: H.Http, m: H.Message)
    requires h.scope.Some?
    ensures var r := H.AppSend(h, m);
            && EndsLast(r.events, r.next.state)
            && (h.state == H.CLOSED ==> r.next.state == H.CLOSED)
  {
    if m.BodyMessage? {
      BodyEndsLast(h, m.body, m.more);
    } else if m.TrailersMessage? {
      TrailersEndLast(h, m.headers, m.more);
    } else {
      OtherEndsLast(h, m);
    }
  }

  lemma MessageJoins(s: System, id: int, app: App, m: H.Message)
    requires Joined(s, id, app) && app.todo == [] && G.MayMove(app.life, G.Outgoing(m))
    ensures Joined(s, id, App(G.MoveOn(app.life, G.Outgoing(m)), H.AppSend(app.life.http, m).events))
  {
    var app' := App(G.MoveOn(app.life, G.Outgoing(m)), H.AppSend(app.life.http, m).events);
    LivesOn(app.life, G.Outgoing(m));
    ReplyEndsLast(app.life.http, m);
    assert Done(app) == app.life.events == Done(app');
    var moves :| G.Lived(moves, app.life);
    G.LivesAreSound(moves, app.life);
    G.ReplyBodies(app.life.http, m);
  }

  lemma MessageKeeps(c: Connection, id: int, m: H.Message)
    requires AllJoined(c) && May(c, Message(id, m))
    ensures AllJoined(Act(c, Message(id, m)))
  {
    var c' := Act(c, Message(id, m));
    MessageJoins(c.sys, id, c.apps[id], m);
    AppReplaced(c, id, c'.apps[id], c');
  }

  /** What a step leaves alone of a stream. */
  ghost predicate Untouched(s: System, s': System, id: int)
  {
    && AcceptedOn(s'.history, id) == AcceptedOn(s.history, id)
    && EndedIn(s'.history, id) == EndedIn(s.history, id)
    && (Live(s', id) <==> Live(s, id)) && (id in s'.producers <==> id in s.producers)
    && (Live(s, id) ==> s'.sched.buffers[id].complete == s.sched.buffers[id].complete)
  }

  lemma CarryTouchesOne(s: System, id: int, e: H.Event, j: int)
    requires Base(s) && id in s.producers && s.producers[id] == Idle && j != id
    ensures Untouched(s, Carry(s, id, e), j)
  {
  }

  lemma UntouchedStaysJoined(s: System, s': System, id: int, app: App)
    requires Joined(s, id, app) && Untouched(s, s', id)
    ensures Joined(s', id, app)
  {
  }

  /** Carrying out one event keeps the other streams as they are. */
  lemma CarryKeepsOthers(s: System, id: int, e: H.Event, j: int, app: App)
    requires Base(s) && id in s.producers && s.producers[id] == Idle && j != id
    requires Joined(s, j, app)
    ensures Joined(Carry(s, id, e), j, app)
  {
    CarryTouchesOne(s, id, e, j);
    UntouchedStaysJoined(s, Carry(s, id, e), j, app);
  }

  /** One event carried out: it moves from what is due to what is done. */
  lemma DoneGrows(app: App)
    requires WellBegun(app) && app.todo != []
    ensures app.todo == [app.todo[0]] + app.todo[1..]
    ensures var app' := app.(todo := app.todo[1..]);
            && WellBegun(app') && Done(app') == Done(app) + [app.todo[0]]
            && G.BodiesOf(Done(app')) == G.BodiesOf(Done(app)) + G.BodiesOf([app.todo[0]])
            && G.BodiesOf(app.todo) == G.BodiesOf([app.todo[0]]) + G.BodiesOf(app'.todo)
  {
    var app' := app.(todo := app.todo[1..]);
    assert app.todo == [app.todo[0]] + app'.todo;
    G.BodiesAppend(Done(app), [app.todo[0]]);
    G.BodiesAppend([app.todo[0]], app'.todo);
  }

  /** What a step that carries out no end does to one stream; `took` says that
      its buffer accepted the bytes `more`. */
  ghost predicate Carried(s: System, s': System, id: int, took: bool, more: Bytes)
  {
    && id in s'.producers && (Live(s', id) ==> Live(s, id))
    && (Live(s', id) ==> s'.sched.buffers[id].complete == s.sched.buffers[id].complete)
    && (took ==> Live(s, id))
    && (Live(s', id) && !took && more != [] ==> s.sched.buffers[id].complete)
    && AcceptedOn(s'.history, id) == AcceptedOn(s.history, id) + (if took then more else [])
    && EndedIn(s'.history, id) == EndedIn(s.history, id)
  }

  lemma NoMoreAfterNoMore(app: App, more: Bytes, rest: Bytes)
    requires G.BodiesOf(app.todo) == more + rest && NoMoreBody(app)
    ensures more == [] && rest == []
  {
    assert |more + rest| == 0;
  }

  lemma CarriedJoins(s: System, id: int, app: App, s': System, app': App, took: bool, more: Bytes)
    requires Joined(s, id, app) && Carried(s, s', id, took, more)
    requires WellBegun(app') && app'.life == app.life
    requires G.BodiesOf(app.todo) == more + G.BodiesOf(app'.todo)
    requires G.BodiesOf(Done(app')) == G.BodiesOf(Done(app)) + more
    ensures Joined(s', id, app')
  {
    if NoMoreBody(app) {
      NoMoreAfterNoMore(app, more, G.BodiesOf(app'.todo));
    }
  }

  lemma BodyIsCarried(s: System, id: int, data: Bytes, s': System)
    requires Base(s) && id in s.producers && s.producers[id] == Idle && s' == Next(s, PushStep(id, data))
    ensures Carried(s, s', id, Live(s, id) && CanPush(s.sched.buffers[id]), data)
  {
  }

  lemma BodyCarried(s: System, id: int, app: App)
    requires Base(s) && Joined(s, id, app) && s.producers[id] == Idle
    requires app.todo != [] && app.todo[0].Body?
    ensures Joined(Carry(s, id, app.todo[0]), id, app.(todo := app.todo[1..]))
  {
    var data := app.todo[0].data;
    var s', app' := Carry(s, id, app.todo[0]), app.(todo := app.todo[1..]);
    DoneGrows(app);
    OneBody(data);
    BodyIsCarried(s, id, data, s');
    CarriedJoins(s, id, app, s', app', Live(s, id) && CanPush(s.sched.buffers[id]), data);
  }

  lemma OneBody(data: Bytes)
    ensures G.BodiesOf([H.Body(data)]) == data
  {
    assert [H.Body(data)][1..] == [];
  }

  /** After an end no body is due, and none will be. */
  lemma NoBodyAfterEnd(todo: seq<H.Event>, state: H.State, rest: seq<H.Event>)
    requires EndsLast(todo, state) && todo != [] && todo == [todo[0]] + rest && IsEnding(todo[0])
    ensures G.BodiesOf(rest) == [] && G.BodiesOf([todo[0]]) == [] && state == H.CLOSED
  {
    forall i | 0 <= i < |rest|
      ensures !rest[i].Body?
    {
      assert rest[i] == todo[i + 1];
    }
    G.NoBodies(rest);
    G.NoBodies([todo[0]]);
  }

  /** A step that sends and accepts nothing, for an app with no more bodies. */
  lemma EndFramed(s: System, id: int, app: App, s': System, app': App)
    requires Joined(s, id, app) && id in s'.producers
    requires AcceptedOn(s'.history, id) == AcceptedOn(s.history, id)
    requires EndedIn(s'.history, id) == EndedIn(s.history, id)
    requires Live(s', id) ==> Live(s, id)
    requires WellBegun(app') && NoMoreBody(app') && G.BodiesOf(Done(app')) == G.BodiesOf(Done(app)) + []
    ensures Joined(s', id, app')
  {
  }

  lemma EndSendsNothing(s: System, id: int, e: H.Event, s': System)
    requires Base(s) && id in s.producers && s.producers[id] == Idle && IsEnding(e) && s' == Carry(s, id, e)
    ensures AcceptedOn(s'.history, id) == AcceptedOn(s.history, id)
    ensures EndedIn(s'.history, id) == EndedIn(s.history, id) && s'.producers.Keys == s.producers.Keys
    ensures s'.sched.buffers.Keys == s.sched.buffers.Keys
  {
  }

  lemma EndCarried(s: System, id: int, app: App)
    requires Base(s) && Joined(s, id, app) && s.producers[id] == Idle
    requires app.todo != [] && IsEnding(app.todo[0])
    ensures Joined(Carry(s, id, app.todo[0]), id, app.(todo := app.todo[1..]))
  {
    var s' := Carry(s, id, app.todo[0]);
    DoneGrows(app);
    NoBodyAfterEnd(app.todo, app.life.http.state, app.todo[1..]);
    EndSendsNothing(s, id, app.todo[0], s');
    EndFramed(s, id, app, s', app.(todo := app.todo[1..]));
  }

  lemma OtherIsCarried(s: System, id: int, e: H.Event, s': System)
    requires Base(s) && id in s.producers && s.producers[id] == Idle && s' == Carry(s, id, e)
    requires !IsEnding(e) && !e.Body?
    ensures Carried(s, s', id, false, [])
  {
  }

  lemma OtherJoins(s: System, id: int, app: App, s': System)
    requires Joined(s, id, app) && Carried(s, s', id, false, [])
    requires app.todo != [] && !app.todo[0].Body?
    ensures Joined(s', id, app.(todo := app.todo[1..]))
  {
    DoneGrows(app);
    G.NoBodies([app.todo[0]]);
    CarriedJoins(s, id, app, s', app.(todo := app.todo[1..]), false, []);
  }

  lemma OtherCarried(s: System, id: int, app: App)
    requires Base(s) && Joined(s, id, app) && s.producers[id] == Idle
    requires app.todo != [] && !IsEnding(app.todo[0]) && !app.todo[0].Body?
    ensures Joined(Carry(s, id, app.todo[0]), id, app.(todo := app.todo[1..]))
  {
    var s' := Carry(s, id, app.todo[0]);
    OtherIsCarried(s, id, app.todo[0], s');
    OtherJoins(s, id, app, s');
  }

  lemma CarryReaches(s: System, id: int, e: H.Event)
    requires Reachable(s) && Base(s) && id in s.producers && s.producers[id] == Idle
    ensures Reachable(Carry(s, id, e)) && Base(Carry(s, id, e))
    ensures Carry(s, id, e).producers.Keys == s.producers.Keys
  {
    if e.Body? {
      ReachNext(s, PushStep(id, e.data));
    } else if e.EndBody? {
      ReachNext(s, EndStep(id));
    } else if e.Trailers? {
      ReachNext(s, TrailersStep(id, e.headers));
    } else if e.StreamClosed? {
      ReachNext(s, CloseStep(id));
    }
  }

  lemma PerformJoins(s: System, id: int, app: App)
    requires Base(s) && Joined(s, id, app) && s.producers[id] == Idle && app.todo != []
    ensures Joined(Carry(s, id, app.todo[0]), id, app.(todo := app.todo[1..]))
  {
    if app.todo[0].Body? {
      BodyCarried(s, id, app);
    } else if IsEnding(app.todo[0]) {
      EndCarried(s, id, app);
    } else {
      OtherCarried(s, id, app);
    }
  }

  lemma CarryKeepsAllOthers(c: Connection, id: int, e: H.Event, s': System)
    requires AllJoined(c) && id in c.apps && c.sys.producers[id] == Idle && s' == Carry(c.sys, id, e)
    ensures forall j :: j in c.apps && j != id ==> Joined(s', j, c.apps[j])
  {
    forall j | j in c.apps && j != id
      ensures Joined(s', j, c.apps[j])
    {
      CarryKeepsOthers(c.sys, id, e, j, c.apps[j]);
    }
  }

  lemma CarryFits(s: System, id: int, app: App, s': System)
    requires Reachable(s) && Base(s) && Joined(s, id, app) && app.todo != []
    requires s.producers[id] == Idle && s' == Carry(s, id, app.todo[0])
    ensures Reachable(s') && Base(s') && s'.producers.Keys == s.producers.Keys
    ensures Joined(s', id, app.(todo := app.todo[1..]))
  {
    CarryReaches(s, id, app.todo[0]);
    PerformJoins(s, id, app);
  }

  lemma PerformFits(c: Connection, id: int, app: App, s': System)
    requires AllJoined(c) && id in c.apps && app == c.apps[id] && app.todo != []
    requires c.sys.producers[id] == Idle && s' == Carry(c.sys, id, app.todo[0])
    ensures AllJoined(Connection(s', c.apps[id := app.(todo := app.todo[1..])]))
  {
    CarryFits(c.sys, id, app, s');
    CarryKeepsAllOthers(c, id, app.todo[0], s');
    JoinAgain(c, s', id, app.(todo := app.todo[1..]));
  }

  lemma PerformKeeps(c: Connection, id: int)
    requires AllJoined(c) && May(c, Perform(id))
    ensures AllJoined(Act(c, Perform(id)))
  {
    PerformFits(c, id, c.apps[id], Carry(c.sys, id, c.apps[id].todo[0]));
  }

  lemma {:induction false} RunsAreJoined(actions: seq<Action>, c: Connection)
    requires Acted(actions, c)
    ensures AllJoined(c)
    decreases |actions|
  {
    if actions == [] {
      assert Run(INITIAL, [], INITIAL);
    } else {
      var mid :| Acted(Front(actions), mid) && Base(mid.sys) && May(mid, Last(actions))
                 && c == Act(mid, Last(actions));
      RunsAreJoined(Front(actions), mid);
      match Last(actions)
      case Open(id, scope, knownServer) => {
        var steps :| Run(INITIAL, steps, mid.sys);
        RunIsFaithful(steps, mid.sys);
        assert Faithful(mid.sys, id);
        OpenKeeps(mid, id, scope, knownServer);
      }
      case Transport(step) => TransportKeeps(mid, step);
      case Arrive(id, event) => ArriveKeeps(mid, id, event);
      case Message(id, m) => MessageKeeps(mid, id, m);
      case Perform(id) => PerformKeeps(mid, id);
    }
  }

  /** The body bytes a stream took from its app, as far as its response may
      have content. */
  function AppBody(l: G.Life): Bytes
  {
    if l.http.response.Some? && l.http.scope.Some?
       && H.Suppressed(l.http.scope.value.isHead, l.http.response.value.status)
    then [] else l.taken
  }

  /** End to end, for any messages of any apps and any interleaving with the
      peer: the DATA sent on a stream is a prefix of the bodies its app sent,
      or nothing when the response may have no content, and it is all of them
      whenever the stream was ended on the wire. */
  lemma DataIsTheAppsBody(actions: seq<Action>, c: Connection, id: int)
    requires Acted(actions, c) && id in c.apps
    ensures SentOn(c.sys.history, id) <= AppBody(c.apps[id].life)
    ensures EndedIn(c.sys.history, id) ==> SentOn(c.sys.history, id) == AppBody(c.apps[id].life)
  {
    RunsAreJoined(actions, c);
    var app := c.apps[id];
    assert Joined(c.sys, id, app);
    StreamsAreFaithful(c.sys, id);
    var moves :| G.Lived(moves, app.life);
    G.BodiesAreTheApps(moves, app.life);
    G.BodiesAppend(Done(app), app.todo);
  }
}
