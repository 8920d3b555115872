/** From the app's messages to the frame that ends its response on the wire. */
module H2Trailers {
  import opened Common
  import opened StreamBuffers
  import opened H2Send
  import opened H2System
  import opened H2Fidelity
  import opened H2Frames
  import opened EndToEnd
  import opened HttpAnswers
  import H = HttpStreams
  import G = HttpGrammar

  /** What was asked of the transport is the first end that was carried out; an
      open stream whose buffer has no end has had none carried out. */
  ghost predicate AsksFit(s: System, id: int, app: App)
  {
    && WellBegun(app)
    && (AskedOn(s.history, id).Some? ==> AskedOn(s.history, id) == FirstEnd(Done(app)))
    && (Live(s, id) && !s.sched.buffers[id].complete ==> FirstEnd(Done(app)) == None)
    && (Live(s, id) && s.sched.buffers[id].complete ==>
          id in s.producers && s.producers[id] == AwaitFinished)
    && (H.StreamClosed in Done(app) ==> !Live(s, id))
  }

  ghost predicate AllAsksFit(c: Connection)
  {
    forall id :: id in c.apps ==> AsksFit(c.sys, id, c.apps[id])
  }

  /** What a step that hands over no end leaves of a stream. */
  ghost predicate Unasked(s: System, s': System, id: int)
  {
    && AskedOn(s'.history, id) == AskedOn(s.history, id)
    && (Live(s', id) ==> Live(s, id) && s'.sched.buffers[id].complete == s.sched.buffers[id].complete)
    && (Live(s', id) && s'.sched.buffers[id].complete && id in s.producers && s.producers[id] == AwaitFinished ==>
          id in s'.producers && s'.producers[id] == AwaitFinished)
  }

  lemma UnaskedFits(s: System, s': System, id: int, app: App)
    requires Unasked(s, s', id) && AsksFit(s, id, app)
    ensures AsksFit(s', id, app)
  {
  }

  lemma ExtendAsked(h: History, id: int, data: Bytes, end: Option<Frame>, closed: bool, j: int)
    ensures AskedOn(Extended(h, id, data, end, closed), j) == AskedOn(h, j)
  {
    var h1 := if data == [] then h else Then(h, FrameSent(DataFrame(id, data)));
    assert AskedOn(h1, j) == AskedOn(h, j);
    var h2 := if end == None then h1 else Then(h1, FrameSent(end.value));
    assert AskedOn(h2, j) == AskedOn(h, j);
  }

  lemma SendAsksNothing(s: System, s': System, i: int, data: Bytes, end: Option<Frame>, closed: bool, id: int)
    requires SentStep(s, s', i, data, end, closed)
    ensures Unasked(s, s', id)
  {
    ExtendAsked(s.history, i, data, end, closed, id);
  }

  /** A waiting caller of an end on an open stream cannot go on. */
  lemma ResumeAsksNothing(s: System, i: int, id: int)
    requires Base(s) && Enabled(s, ResumeStep(i)) && EndKnown(s, id)
    ensures Unasked(s, Next(s, ResumeStep(i)), id)
  {
  }

  lemma OtherAsksNothing(s: System, step: Step, id: int)
    requires Base(s) && Enabled(s, step) && !IsReserved(step) && !step.SendStep? && !step.ResumeStep?
    ensures Unasked(s, Next(s, step), id)
  {
    if IsTask(step) {
      TaskAsksNothing(s, step, id);
    }
  }

  lemma TaskAsksNothing(s: System, step: Step, id: int)
    requires Base(s) && Enabled(s, step) && IsTask(step) && !step.SendStep?
    ensures Unasked(s, Next(s, step), id)
  {
  }

  lemma TransportAsksNothing(s: System, step: Step, id: int)
    requires Base(s) && Enabled(s, step) && !IsReserved(step) && EndKnown(s, id)
    ensures Unasked(s, Next(s, step), id)
  {
    if step.SendStep? {
      var sent := SendData(s.sched, s.windows, step.id, step.fault);
      SendOutcome(s.sched, s.windows, step.id, step.fault);
      var data, end := SendIsStep(s, step.id, sent);
      SendAsksNothing(s, AfterSend(s, step.id, sent), step.id, data, end, sent.closed, id);
    } else if step.ResumeStep? {
      ResumeAsksNothing(s, step.id, id);
    } else {
      OtherAsksNothing(s, step, id);
    }
  }

  lemma TransportKeepsAsks(c: Connection, step: Step)
    requires Base(c.sys) && AllEndsKnown(c.sys) && AllAsksFit(c) && May(c, Transport(step))
    ensures AllAsksFit(Act(c, Transport(step)))
  {
    var c' := Act(c, Transport(step));
    forall id | id in c'.apps
      ensures AsksFit(c'.sys, id, c'.apps[id])
    {
      assert EndKnown(c.sys, id);
      TransportAsksNothing(c.sys, step, id);
      UnaskedFits(c.sys, c'.sys, id, c.apps[id]);
    }
  }

  /** Carrying out one event leaves the other streams alone. */
  lemma CarryAsksOne(s: System, id: int, e: H.Event, j: int)
    requires Base(s) && id in s.producers && s.producers[id] == Idle && j != id
    ensures Unasked(s, Carry(s, id, e), j)
  {
  }

  /** What carrying out one event asks of its own stream. */
  lemma CarryAsks(s: System, id: int, e: H.Event, s': System)
    requires Base(s) && id in s.producers && s.producers[id] == Idle && s' == Carry(s, id, e)
    ensures AskedOn(s'.history, id)
            == if Live(s, id) && IsEnding(e) then FirstEnd([e]) else AskedOn(s.history, id)
    ensures Live(s', id) ==> Live(s, id)
    ensures Live(s', id) ==> s'.sched.buffers[id].complete == (s.sched.buffers[id].complete || IsEnding(e))
    ensures Live(s', id) && IsEnding(e) ==> id in s'.producers && s'.producers[id] == AwaitFinished
    ensures e.StreamClosed? ==> !Live(s', id)
  {
    FirstEndOne(e);
  }

  lemma PerformAsks(s: System, id: int, app: App, s': System)
    requires Base(s) && id in s.producers && s.producers[id] == Idle && app.todo != []
    requires AsksFit(s, id, app) && s' == Carry(s, id, app.todo[0])
    ensures AsksFit(s', id, app.(todo := app.todo[1..]))
  {
    DoneGrows(app);
    FirstEndAppend(Done(app), [app.todo[0]]);
    FirstEndOne(app.todo[0]);
    CarryAsks(s, id, app.todo[0], s');
  }

  lemma PerformKeepsAsks(c: Connection, id: int)
    requires AllJoined(c) && AllAsksFit(c) && May(c, Perform(id))
    ensures AllAsksFit(Act(c, Perform(id)))
  {
    var c' := Act(c, Perform(id));
    forall j | j in c'.apps
      ensures AsksFit(c'.sys, j, c'.apps[j])
    {
      assert AsksFit(c.sys, j, c.apps[j]);
      if j == id {
        PerformAsks(c.sys, id, c.apps[id], c'.sys);
      } else {
        CarryAsksOne(c.sys, id, c.apps[id].todo[0], j);
        UnaskedFits(c.sys, c'.sys, j, c.apps[j]);
      }
    }
  }

  /** One app changes, and what it has carried out does not. */
  lemma AppReplacedAsks(c: Connection, id: int, app: App, c': Connection)
    requires AllAsksFit(c) && id in c.apps && c' == Connection(c.sys, c.apps[id := app])
    requires WellBegun(app) && Done(app) == Done(c.apps[id])
    ensures AllAsksFit(c')
  {
    forall j | j in c'.apps
      ensures AsksFit(c'.sys, j, c'.apps[j])
    {
      assert AsksFit(c.sys, j, c.apps[j]);
    }
  }

  lemma ArriveKeepsAsks(c: Connection, id: int, event: H.Inbound)
    requires AllJoined(c) && AllAsksFit(c) && May(c, Arrive(id, event))
    ensures AllAsksFit(Act(c, Arrive(id, event)))
  {
    var app := c.apps[id];
    var app' := app.(life := G.MoveOn(app.life, G.Incoming(event)));
    ArriveJoins(c.sys, id, app, event);
    assert app'.life.events == app.life.events + [] == app.life.events;
    AppReplacedAsks(c, id, app', Act(c, Arrive(id, event)));
  }

  lemma MessageKeepsAsks(c: Connection, id: int, m: H.Message)
    requires AllJoined(c) && AllAsksFit(c) && May(c, Message(id, m))
    ensures AllAsksFit(Act(c, Message(id, m)))
  {
    var app := c.apps[id];
    var app' := App(G.MoveOn(app.life, G.Outgoing(m)), H.AppSend(app.life.http, m).events);
    MessageJoins(c.sys, id, app, m);
    assert Done(app) == app.life.events == Done(app');
    AppReplacedAsks(c, id, app', Act(c, Message(id, m)));
  }

  lemma NewAsksFit(s: System, id: int, app: App, s': System)
    requires Base(s) && Enabled(s, RegisterStep(id)) && EndKnown(s, id) && s' == Next(s, RegisterStep(id))
    requires WellBegun(app) && Done(app) == []
    ensures AsksFit(s', id, app)
  {
  }

  lemma RegisterAsksNothing(s: System, i: int, s': System, id: int)
    requires Base(s) && Enabled(s, RegisterStep(i)) && s' == Next(s, RegisterStep(i)) && i != id
    ensures Unasked(s, s', id)
  {
  }

  lemma OpenKeepsAsks(c: Connection, id: int, scope: H.Scope, knownServer: bool)
    requires AllJoined(c) && AllAsksFit(c) && AllEndsKnown(c.sys) && May(c, Open(id, scope, knownServer))
    ensures AllAsksFit(Act(c, Open(id, scope, knownServer)))
  {
    var c' := Act(c, Open(id, scope, knownServer));
    OpeningIsWellBegun(scope, knownServer);
    assert EndKnown(c.sys, id);
    NewAsksFit(c.sys, id, OpeningApp(scope, knownServer), c'.sys);
    forall j | j in c'.apps && j != id
      ensures AsksFit(c'.sys, j, c'.apps[j])
    {
      RegisterAsksNothing(c.sys, id, c'.sys, j);
      UnaskedFits(c.sys, c'.sys, j, c.apps[j]);
    }
  }

  lemma ReachedEndsAreKnown(s: System)
    requires Reachable(s)
    ensures AllEndsKnown(s)
  {
    var steps :| Run(INITIAL, steps, s);
    RunKeepsFrames(steps, s);
  }

  lemma ActionKeepsAsks(c: Connection, a: Action)
    requires AllJoined(c) && AllAsksFit(c) && May(c, a)
    ensures AllAsksFit(Act(c, a))
  {
    ReachedEndsAreKnown(c.sys);
    match a
    case Open(id, scope, knownServer) => OpenKeepsAsks(c, id, scope, knownServer);
    case Transport(step) => TransportKeepsAsks(c, step);
    case Arrive(id, event) => ArriveKeepsAsks(c, id, event);
    case Message(id, m) => MessageKeepsAsks(c, id, m);
    case Perform(id) => PerformKeepsAsks(c, id);
  }

  lemma {:induction false} RunsKeepAsks(actions: seq<Action>, c: Connection)
    requires Acted(actions, c)
    ensures AllAsksFit(c)
    decreases |actions|
  {
    if actions == [] {
    } else {
      var mid :| Acted(Front(actions), mid) && Base(mid.sys) && May(mid, Last(actions))
                 && c == Act(mid, Last(actions));
      RunsKeepAsks(Front(actions), mid);
      RunsAreJoined(Front(actions), mid);
      ActionKeepsAsks(mid, Last(actions));
    }
  }

  lemma AskedWasEmitted(s: System, id: int, app: App)
    requires AsksFit(s, id, app) && AskedOn(s.history, id).Some?
    ensures FirstEnd(app.life.events) == AskedOn(s.history, id)
  {
    FirstEndAppend(Done(app), app.todo);
  }

  /** End to end: a stream that was ended was ended by trailers if and only if
      the first end among the events of its app's messages is a Trailers event,
      and then with the headers of that event. */
  lemma EndIsTheApps(actions: seq<Action>, c: Connection, id: int, headers: Headers)
    requires Acted(actions, c) && id in c.apps && EndedIn(c.sys.history, id)
    ensures SentAsAsked(EndSent(c.sys.history, id), FirstEnd(c.apps[id].life.events), id, headers)
  {
    RunsAreJoined(actions, c);
    RunsKeepAsks(actions, c);
    EndWasAsked(c.sys, id);
    EndsAreTheApps(c.sys, id, headers);
    AskedWasEmitted(c.sys, id, c.apps[id]);
  }

  lemma EndWasAsked(s: System, id: int)
    requires Reachable(s) && EndedIn(s.history, id)
    ensures AskedOn(s.history, id).Some?
  {
    var steps :| Run(INITIAL, steps, s);
    RunKeepsEndFits(steps, s, id);
    EndSentIffEnded(s.history, id);
  }

  /** And so: by trailers if and only if the app's trailers messages, told from
      its moves, come to a Trailers event, and then with their headers. */
  lemma TrailersAreTheApps(actions: seq<Action>, c: Connection, id: int, moves: seq<G.Move>, headers: Headers)
    requires Acted(actions, c) && id in c.apps && EndedIn(c.sys.history, id) && G.Lived(moves, c.apps[id].life)
    ensures EndSent(c.sys.history, id) == Some(TrailersFrame(id, headers)) <==>
              TrailersSent(moves) == Some(H.Trailers(headers))
    ensures EndSent(c.sys.history, id) == Some(EndFrame(id)) <==> TrailersSent(moves) == None
  {
    EndIsTheApps(actions, c, id, headers);
    FirstEndIsTold(moves, c.apps[id].life);
    EmittedEnd(actions, c, id);
  }

  /** A stream that was ended had an end among its app's events. */
  lemma EmittedEnd(actions: seq<Action>, c: Connection, id: int)
    requires Acted(actions, c) && id in c.apps && EndedIn(c.sys.history, id)
    ensures FirstEnd(c.apps[id].life.events).Some?
  {
    RunsAreJoined(actions, c);
    RunsKeepAsks(actions, c);
    EndWasAsked(c.sys, id);
    AskedWasEmitted(c.sys, id, c.apps[id]);
  }

  /** Once the close of its stream was carried out for an app, the transport has
      ended or closed that stream and keeps nothing of it. */
  lemma ClosedIsClosed(actions: seq<Action>, c: Connection, id: int)
    requires Acted(actions, c) && id in c.apps
    ensures |c.apps[id].todo| <= |c.apps[id].life.events|
    ensures H.StreamClosed in Done(c.apps[id]) ==> !Live(c.sys, id) && Over(c.sys.history, id)
  {
    RunsAreJoined(actions, c);
    RunsKeepAsks(actions, c);
    assert AsksFit(c.sys, id, c.apps[id]);
    DetachedIsOver(c.sys, id);
  }

  lemma DetachedIsOver(s: System, id: int)
    requires Reachable(s) && Base(s) && id in s.producers
    ensures !Live(s, id) ==> Over(s.history, id)
  {
    var steps :| Run(INITIAL, steps, s);
    RunIsFaithful(steps, s);
    assert Faithful(s, id);
  }
}
