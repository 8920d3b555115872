/** From the app's messages to the operations on the wire: HTTP streams on top of
    the HTTP/3 send scheduler, in any interleaving. */
module H3EndToEnd {
  import opened Common
  import opened H3Sends
  import opened H3Runs
  import E = EndToEnd
  import H = HttpStreams
  import G = HttpGrammar

  /** A stream's app: its life so far and the events of its current message that
      the scheduler has not taken yet.  Once a send of it has raised, nothing
      more of it is followed: the scheduler takes nothing more. */
  datatype App = App(life: G.Life, todo: seq<H.Event>, failed: bool)

  /** What one operation sends. */
  datatype Sending = Sending(id: int, event: H.Event)

  /** `ops` are the operations admitted; a suspended call has its stream's id. */
  datatype Connection = Connection(x: World, apps: map<int, App>, ops: seq<Sending>)

  datatype Action =
    | Open(id: int, scope: H.Scope, knownServer: bool)
    | Sender(step: Step)
    | Arrive(id: int, event: H.Inbound)
    | Message(id: int, message: H.Message)
    | Perform(id: int, size: nat)

  const NEW_CONNECTION := Connection(INITIAL, map[], [])

  /** The events that become an operation of the scheduler. */
  predicate IsQueued(e: H.Event) { !e.StreamClosed? && !e.PushRequest? }

  /** What an operation counts for; headers gain some of the server's own. */
  predicate HasSize(e: H.Event, size: nat)
  {
    (e.Body? ==> size == |e.data|) && (e.EndBody? ==> size == 0)
  }

  predicate May(c: Connection, a: Action)
  {
    match a
    case Open(id, _, _) => id !in c.apps && id !in c.x.calls
    case Sender(step) => H3Runs.May(c.x, step) && !step.EnterStep?
    case Arrive(id, event) => id in c.apps && !event.Request?
    case Message(id, m) =>
      && id in c.apps && c.apps[id].todo == [] && !c.apps[id].failed && id !in c.x.calls
      && G.MayMove(c.apps[id].life, G.Outgoing(m))
    case Perform(id, size) =>
      id in c.apps && c.apps[id].todo != [] && id !in c.x.calls && HasSize(c.apps[id].todo[0], size)
  }

  function OpeningApp(scope: H.Scope, knownServer: bool): App
  {
    var life := G.MoveOn(G.NEW_LIFE, G.Incoming(H.Request(scope, knownServer)));
    App(life, life.events, false)
  }

  /** A call of stream `id` has gone on: its event was admitted, or it raised, or
      neither. */
  function AfterCall(c: Connection, id: int, x': World): Connection
  {
    if id !in c.apps then c.(x := x')
    else
      var app := c.apps[id];
      if x'.history == Then(c.x.history, Obs.Admitted(AdmittedCount(c.x.history))) && app.todo != [] then
        Connection(x', c.apps[id := app.(todo := app.todo[1..])], c.ops + [Sending(id, app.todo[0])])
      else if x'.history == Then(c.x.history, Raised) then
        c.(x := x', apps := c.apps[id := app.(todo := [], failed := true)])
      else c.(x := x')
  }

  function DoPerform(c: Connection, id: int, size: nat): Connection
    requires May(c, Perform(id, size))
  {
    var app := c.apps[id];
    var e := app.todo[0];
    if IsQueued(e) then AfterCall(c, id, Next(c.x, EnterStep(id, size, e.EndBody?)))
    else c.(apps := c.apps[id := app.(todo := app.todo[1..])])
  }

  function Act(c: Connection, a: Action): Connection
    requires May(c, a)
  {
    match a
    case Open(id, scope, knownServer) => c.(apps := c.apps[id := OpeningApp(scope, knownServer)])
    case Sender(step) =>
      if step.AgainStep? || step.FinishStep? then AfterCall(c, step.call, Next(c.x, step))
      else c.(x := Next(c.x, step))
    case Arrive(id, event) =>
      var app := c.apps[id];
      c.(apps := c.apps[id := app.(life := G.MoveOn(app.life, G.Incoming(event)))])
    case Message(id, m) =>
      var app := c.apps[id];
      c.(apps := c.apps[id := App(G.MoveOn(app.life, G.Outgoing(m)), H.AppSend(app.life.http, m).events, false)])
    case Perform(id, size) => DoPerform(c, id, size)
  }

  ghost predicate Acted(actions: seq<Action>, c: Connection)
    decreases |actions|
  {
    if actions == [] then c == NEW_CONNECTION
    else exists mid :: Acted(Front(actions), mid) && May(mid, Last(actions)) && c == Act(mid, Last(actions))
  }

  /** The events of one stream among some operations. */
  function EventsOn(ops: seq<Sending>, id: int): seq<H.Event>
  {
    if ops == [] then []
    else EventsOn(Front(ops), id) + if Last(ops).id == id then [Last(ops).event] else []
  }

  function Queued(events: seq<H.Event>): seq<H.Event>
  {
    if events == [] then [] else Queued(Front(events)) + if IsQueued(Last(events)) then [Last(events)] else []
  }

  /** The operations that reached the library. */
  function Wire(c: Connection): seq<Sending>
    requires AppliedCount(c.x.history) <= |c.ops|
  {
    c.ops[..AppliedCount(c.x.history)]
  }

  /** The events that the scheduler has taken or that need none. */
  function Done(app: App): seq<H.Event>
    requires |app.todo| <= |app.life.events|
  {
    app.life.events[..|app.life.events| - |app.todo|]
  }

  ghost predicate AppFits(x: World, app: App, taken: seq<H.Event>)
  {
    && E.Living(app.life)
    && if app.failed then Unavailable(x.s) && app.todo == [] && taken <= Queued(app.life.events)
       else
         && |app.todo| <= |app.life.events| && app.life.events == Done(app) + app.todo
         && taken == Queued(Done(app))
  }

  predicate CallFits(c: Connection, n: int)
    requires n in c.x.calls
  {
    && n in c.apps && !c.apps[n].failed
    && match c.x.calls[n]
       case Admitting(_, ends, _) =>
         c.apps[n].todo != [] && IsQueued(c.apps[n].todo[0]) && ends == c.apps[n].todo[0].EndBody?
       case Finishing(k) => k < |c.ops| && c.ops[k] == Sending(n, H.EndBody)
  }

  /** Only calls that end a stream are said to have returned. */
  predicate EndsReturned(h: History, ops: seq<Sending>)
  {
    match h
    case Start => true
    case Then(past, Returned(k)) => k < |ops| && ops[k].event == H.EndBody && EndsReturned(past, ops)
    case Then(past, _) => EndsReturned(past, ops)
  }

  ghost predicate Joined(c: Connection)
  {
    && Good(c.x) && |c.ops| == AdmittedCount(c.x.history) && EndsReturned(c.x.history, c.ops)
    && (forall id :: id in c.apps ==> AppFits(c.x, c.apps[id], EventsOn(c.ops, id)))
    && (forall id :: id !in c.apps ==> EventsOn(c.ops, id) == [])
    && (forall n :: n in c.x.calls ==> CallFits(c, n))
  }

  lemma QueuedSnoc(events: seq<H.Event>, e: H.Event)
    ensures Queued(events + [e]) == Queued(events) + if IsQueued(e) then [e] else []
  {
    assert Front(events + [e]) == events;
  }

  lemma EventsOnSnoc(ops: seq<Sending>, s: Sending, id: int)
    ensures EventsOn(ops + [s], id) == EventsOn(ops, id) + if s.id == id then [s.event] else []
  {
    assert Front(ops + [s]) == ops;
  }

  lemma {:induction false} ReturnedStay(h: History, ops: seq<Sending>, s: Sending)
    requires EndsReturned(h, ops)
    ensures EndsReturned(h, ops + [s])
  {
    match h
    case Start =>
    case Then(past, _) => ReturnedStay(past, ops, s);
  }

  /** Taking over the next event. */
  lemma TakeNext(app: App)
    requires |app.todo| <= |app.life.events| && app.life.events == Done(app) + app.todo && app.todo != []
    ensures var app' := app.(todo := app.todo[1..]);
            && app.life.events == Done(app') + app'.todo && Done(app') == Done(app) + [app.todo[0]]
            && Queued(Done(app')) == Queued(Done(app)) + if IsQueued(app.todo[0]) then [app.todo[0]] else []
  {
    QueuedSnoc(Done(app), app.todo[0]);
    assert Done(app.(todo := app.todo[1..])) == Done(app) + [app.todo[0]];
  }

  lemma CallsStillFit(c: Connection, id: int, app: App, n: int)
    requires n in c.x.calls && CallFits(c, n)
    requires n == id ==> app.todo == c.apps[id].todo && app.failed == c.apps[id].failed
    ensures CallFits(c.(apps := c.apps[id := app]), n)
  {
  }

  /** One app changes while the scheduler does not. */
  lemma AppReplaced(c: Connection, id: int, app: App, c': Connection)
    requires Joined(c) && c' == c.(apps := c.apps[id := app]) && AppFits(c.x, app, EventsOn(c.ops, id))
    requires id in c.x.calls ==> id in c.apps && app.todo == c.apps[id].todo && app.failed == c.apps[id].failed
    ensures Joined(c')
  {
    forall j | j in c'.apps
      ensures AppFits(c'.x, c'.apps[j], EventsOn(c'.ops, j))
    {
      assert j != id ==> j in c.apps;
    }
    forall n | n in c'.x.calls
      ensures CallFits(c', n)
    {
      CallsStillFit(c, id, app, n);
    }
  }

  lemma OpenKeeps(c: Connection, id: int, scope: H.Scope, knownServer: bool)
    requires Joined(c) && May(c, Open(id, scope, knownServer))
    ensures Joined(Act(c, Open(id, scope, knownServer)))
  {
    var app := OpeningApp(scope, knownServer);
    assert E.Living(app.life) by {
      assert G.Lived([], G.NEW_LIFE);
      E.LivesOn(G.NEW_LIFE, G.Incoming(H.Request(scope, knownServer)));
    }
    assert Done(app) == [] && app.life.events == [] + app.todo;
    AppReplaced(c, id, app, Act(c, Open(id, scope, knownServer)));
  }

  lemma ArriveKeeps(c: Connection, id: int, event: H.Inbound)
    requires Joined(c) && May(c, Arrive(id, event))
    ensures Joined(Act(c, Arrive(id, event)))
  {
    var app := c.apps[id];
    var app' := app.(life := G.MoveOn(app.life, G.Incoming(event)));
    E.LivesOn(app.life, G.Incoming(event));
    assert app'.life.events == app.life.events + [] == app.life.events;
    assert !app.failed ==> Done(app') == Done(app);
    AppReplaced(c, id, app', Act(c, Arrive(id, event)));
  }

  lemma MessageKeeps(c: Connection, id: int, m: H.Message)
    requires Joined(c) && May(c, Message(id, m))
    ensures Joined(Act(c, Message(id, m)))
  {
    var app := c.apps[id];
    var app' := App(G.MoveOn(app.life, G.Outgoing(m)), H.AppSend(app.life.http, m).events, false);
    E.LivesOn(app.life, G.Outgoing(m));
    assert app'.life.events == app.life.events + app'.todo;
    assert Done(app) == app.life.events == Done(app');
    AppReplaced(c, id, app', Act(c, Message(id, m)));
  }

  /** A step that is not a call's. */
  predicate Quietly(x: World, x': World)
  {
    && x'.calls == x.calls && AdmittedCount(x'.history) == AdmittedCount(x.history)
    && (Unavailable(x.s) ==> Unavailable(x'.s))
  }

  lemma QuietlyKeeps(c: Connection, x': World)
    requires Joined(c) && Good(x') && Quietly(c.x, x') && EndsReturned(x'.history, c.ops)
    ensures Joined(c.(x := x'))
  {
    forall n | n in x'.calls
      ensures CallFits(c.(x := x'), n)
    {
      assert CallFits(c, n);
    }
  }

  lemma {:induction false} AppliedReturnsNone(h: History, batch: seq<Op>, ops: seq<Sending>)
    ensures EndsReturned(AppliedAll(h, batch), ops) == EndsReturned(h, ops)
    decreases |batch|
  {
    if batch == [] {
    } else {
      AppliedReturnsNone(h, Front(batch), ops);
    }
  }

  lemma BatchIsQuiet(x: World, faultAt: nat, e: int, ops: seq<Sending>)
    ensures DoBatch(x, faultAt, e).calls == x.calls
    ensures AdmittedCount(DoBatch(x, faultAt, e).history) == AdmittedCount(x.history)
    ensures EndsReturned(DoBatch(x, faultAt, e).history, ops) == EndsReturned(x.history, ops)
  {
    var n := BatchLength(x.s.queue, faultAt);
    var batch := x.s.queue[..n];
    AppliedCounts(x.history, batch);
    AppliedReturnsNone(x.history, batch, ops);
    if batch != [] {
      AppliedCounts(x.history, Front(batch));
      AppliedReturnsNone(x.history, Front(batch), ops);
    }
  }

  lemma QuietStep(x: World, step: Step, x': World, ops: seq<Sending>)
    requires H3Runs.May(x, step) && !step.EnterStep? && !step.AgainStep? && !step.FinishStep?
    requires x' == Next(x, step)
    ensures x'.calls == x.calls && AdmittedCount(x'.history) == AdmittedCount(x.history)
    ensures EndsReturned(x'.history, ops) == EndsReturned(x.history, ops)
  {
    match step
    case TurnStep(faultAt, e) => BatchIsQuiet(x, faultAt, e, ops);
    case UnparkStep(faultAt, e) => BatchIsQuiet(x.(s := x.s.(hasData := false)), faultAt, e, ops);
    case _ =>
  }

  lemma SenderKeeps(c: Connection, step: Step)
    requires Joined(c) && May(c, Sender(step)) && !step.AgainStep? && !step.FinishStep?
    ensures Joined(Act(c, Sender(step)))
  {
    var x' := Next(c.x, step);
    Keep(c.x, step);
    QuietStep(c.x, step, x', c.ops);
    if Unavailable(c.x.s) {
      StaysUnavailable(c.x, step, x');
    }
    QuietlyKeeps(c, x');
  }

  /** What one stretch of a call of stream `id` comes to: its event was admitted,
      it raised, it waits for the oldest operation, or it came back. */
  predicate CallComesTo(x: World, id: int, ends: bool, x': World)
  {
    var k := AdmittedCount(x.history);
    || (x'.history == Then(x.history, Obs.Admitted(k)) && (Unavailable(x'.s) <==> Unavailable(x.s))
        && x'.calls == if ends then x.calls[id := Finishing(k)] else x.calls - {id})
    || (x'.history == Then(x.history, Raised) && x'.calls == x.calls - {id} && Unavailable(x'.s))
    || (x'.history == x.history && x'.s == x.s && id in x'.calls && x'.calls[id].Admitting?
        && x'.calls[id].ends == ends && x'.calls - {id} == x.calls - {id})
    || (id in x.calls && x.calls[id].Finishing? && x'.history == Then(x.history, Returned(x.calls[id].id))
        && x'.calls == x.calls - {id} && x'.s == x.s)
  }

  lemma TryComesTo(x: World, id: int, size: nat, ends: bool)
    ensures CallComesTo(x, id, ends, Try(x, id, size, ends))
  {
    var x' := Try(x, id, size, ends);
    if MustWait(x.s, size) {
      assert x'.calls - {id} == x.calls - {id};
    }
  }

  lemma EnterComesTo(x: World, id: int, size: nat, ends: bool)
    requires id !in x.calls
    ensures CallComesTo(x, id, ends, Next(x, EnterStep(id, size, ends)))
  {
    assert x.calls - {id} == x.calls;
    if !Unavailable(x.s) {
      TryComesTo(x, id, size, ends);
    }
  }

  /** Without an error or a close no operation has failed. */
  lemma NoneFailed(x: World, k: nat)
    requires Good(x) && k in x.completed && x.completed[k].Some?
    ensures Unavailable(x.s)
  {
  }

  lemma AgainComesTo(x: World, id: int)
    requires Good(x) && H3Runs.May(x, AgainStep(id))
    ensures CallComesTo(x, id, x.calls[id].ends, DoAgain(x, id))
  {
    var call := x.calls[id];
    if x.completed[call.oldest].Some? {
      NoneFailed(x, call.oldest);
    } else if !Unavailable(x.s) {
      TryComesTo(x, id, call.size, call.ends);
    }
  }

  lemma FinishComesTo(x: World, id: int)
    requires Good(x) && H3Runs.May(x, FinishStep(id))
    ensures CallComesTo(x, id, true, DoFinish(x, id))
  {
    if x.completed[x.calls[id].id].Some? {
      NoneFailed(x, x.calls[id].id);
    }
  }

  /** A stream whose app has handed its next event to the scheduler. */
  predicate Offers(c: Connection, id: int, ends: bool)
  {
    && id in c.apps && !c.apps[id].failed && c.apps[id].todo != [] && IsQueued(c.apps[id].todo[0])
    && ends == c.apps[id].todo[0].EndBody?
  }

  lemma AdmittedAppFits(c: Connection, id: int, ends: bool, x': World, j: int)
    requires Joined(c) && Offers(c, id, ends) && (Unavailable(x'.s) <==> Unavailable(c.x.s))
    ensures var e := c.apps[id].todo[0];
            var taken := EventsOn(c.ops + [Sending(id, e)], j);
            && (j in c.apps && j != id ==> AppFits(x', c.apps[j], taken))
            && (j == id ==> AppFits(x', c.apps[id].(todo := c.apps[id].todo[1..]), taken))
            && (j !in c.apps ==> taken == [])
  {
    var e := c.apps[id].todo[0];
    EventsOnSnoc(c.ops, Sending(id, e), j);
    if j == id {
      assert AppFits(c.x, c.apps[id], EventsOn(c.ops, id));
      TakeNext(c.apps[id]);
    }
  }

  lemma AdmittedCallFits(c: Connection, id: int, ends: bool, x': World, c': Connection, n: int)
    requires (forall m :: m in c.x.calls ==> CallFits(c, m)) && Offers(c, id, ends) && n in x'.calls
    requires x'.calls == if ends then c.x.calls[id := Finishing(|c.ops|)] else c.x.calls - {id}
    requires c' == Connection(x', c.apps[id := c.apps[id].(todo := c.apps[id].todo[1..])],
                              c.ops + [Sending(id, c.apps[id].todo[0])])
    ensures CallFits(c', n)
  {
    if n != id {
      assert CallFits(c, n);
    }
  }

  lemma AdmittedJoins(c: Connection, id: int, ends: bool, x': World, c': Connection)
    requires Joined(c) && Offers(c, id, ends) && Good(x')
    requires x'.history == Then(c.x.history, Obs.Admitted(|c.ops|)) && (Unavailable(x'.s) <==> Unavailable(c.x.s))
    requires x'.calls == if ends then c.x.calls[id := Finishing(|c.ops|)] else c.x.calls - {id}
    requires c' == Connection(x', c.apps[id := c.apps[id].(todo := c.apps[id].todo[1..])],
                              c.ops + [Sending(id, c.apps[id].todo[0])])
    ensures Joined(c')
  {
    ReturnedStay(c.x.history, c.ops, Sending(id, c.apps[id].todo[0]));
    forall j
      ensures j in c'.apps ==> AppFits(x', c'.apps[j], EventsOn(c'.ops, j))
      ensures j !in c'.apps ==> EventsOn(c'.ops, j) == []
    {
      AdmittedAppFits(c, id, ends, x', j);
    }
    forall n | n in x'.calls
      ensures CallFits(c', n)
    {
      AdmittedCallFits(c, id, ends, x', c', n);
    }
  }

  lemma AdmittedKeeps(c: Connection, id: int, ends: bool, x': World)
    requires Joined(c) && Offers(c, id, ends) && Good(x')
    requires x'.history == Then(c.x.history, Obs.Admitted(|c.ops|)) && (Unavailable(x'.s) <==> Unavailable(c.x.s))
    requires x'.calls == if ends then c.x.calls[id := Finishing(|c.ops|)] else c.x.calls - {id}
    ensures Joined(AfterCall(c, id, x'))
  {
    AdmittedJoins(c, id, ends, x', AfterCall(c, id, x'));
  }

  lemma {:induction false} QueuedGrows(a: seq<H.Event>, b: seq<H.Event>)
    ensures Queued(a) <= Queued(a + b)
    decreases |b|
  {
    if b == [] {
      assert a + b == a;
    } else {
      QueuedGrows(a, Front(b));
      assert a + b == (a + Front(b)) + [Last(b)];
      QueuedSnoc(a + Front(b), Last(b));
    }
  }

  lemma RaisedKeeps(c: Connection, id: int, x': World)
    requires Joined(c) && id in c.apps && !c.apps[id].failed && Good(x')
    requires x'.history == Then(c.x.history, Raised) && x'.calls == c.x.calls - {id} && Unavailable(x'.s)
    ensures Joined(AfterCall(c, id, x'))
  {
    var app, c' := c.apps[id], AfterCall(c, id, x');
    assert AppFits(c.x, app, EventsOn(c.ops, id));
    QueuedGrows(Done(app), app.todo);
    forall n | n in x'.calls
      ensures CallFits(c', n)
    {
      assert CallFits(c, n);
    }
  }

  lemma WaitingCallFits(c: Connection, id: int, ends: bool, x': World, n: int)
    requires (forall m :: m in c.x.calls ==> CallFits(c, m)) && Offers(c, id, ends) && n in x'.calls
    requires id in x'.calls && x'.calls[id].Admitting? && x'.calls[id].ends == ends
    requires x'.calls - {id} == c.x.calls - {id}
    ensures CallFits(c.(x := x'), n)
  {
    if n != id {
      SameElsewhere(c.x.calls, x'.calls, id, n);
      assert CallFits(c, n);
    }
  }

  lemma WaitsJoins(c: Connection, id: int, ends: bool, x': World)
    requires Joined(c) && Offers(c, id, ends) && Good(x')
    requires x'.history == c.x.history && x'.s == c.x.s && x'.calls - {id} == c.x.calls - {id}
    requires id in x'.calls && x'.calls[id].Admitting? && x'.calls[id].ends == ends
    ensures Joined(c.(x := x'))
  {
    forall n | n in x'.calls
      ensures CallFits(c.(x := x'), n)
    {
      WaitingCallFits(c, id, ends, x', n);
    }
  }

  lemma WaitsKeeps(c: Connection, id: int, ends: bool, x': World)
    requires Joined(c) && Offers(c, id, ends) && Good(x')
    requires x'.history == c.x.history && x'.s == c.x.s && x'.calls - {id} == c.x.calls - {id}
    requires id in x'.calls && x'.calls[id].Admitting? && x'.calls[id].ends == ends
    ensures Joined(AfterCall(c, id, x'))
  {
    WaitsJoins(c, id, ends, x');
    assert AfterCall(c, id, x') == c.(x := x');
  }

  lemma ReturnedKeeps(c: Connection, id: int, x': World)
    requires Joined(c) && Good(x') && id in c.x.calls && c.x.calls[id].Finishing?
    requires x'.history == Then(c.x.history, Returned(c.x.calls[id].id)) && x'.s == c.x.s
    requires x'.calls == c.x.calls - {id}
    ensures Joined(AfterCall(c, id, x'))
  {
    assert CallFits(c, id);
    var c' := AfterCall(c, id, x');
    forall n | n in x'.calls
      ensures CallFits(c', n)
    {
      assert CallFits(c, n);
    }
  }

  lemma CallKeeps(c: Connection, id: int, ends: bool, x': World)
    requires Joined(c) && Good(x') && id in c.apps && !c.apps[id].failed
    requires (id in c.x.calls && c.x.calls[id].Finishing?) || Offers(c, id, ends)
    requires CallComesTo(c.x, id, ends, x')
    requires id in c.x.calls && c.x.calls[id].Finishing? ==>
               x'.history == Then(c.x.history, Raised) || x'.history == Then(c.x.history, Returned(c.x.calls[id].id))
    ensures Joined(AfterCall(c, id, x'))
  {
    if x'.history == Then(c.x.history, Raised) {
      RaisedKeeps(c, id, x');
    } else if x'.history == c.x.history {
      WaitsKeeps(c, id, ends, x');
    } else if x'.history == Then(c.x.history, Obs.Admitted(|c.ops|)) {
      AdmittedKeeps(c, id, ends, x');
    } else {
      ReturnedKeeps(c, id, x');
    }
  }

  lemma WaitingKeeps(c: Connection, step: Step)
    requires Joined(c) && May(c, Sender(step)) && (step.AgainStep? || step.FinishStep?)
    ensures Joined(Act(c, Sender(step)))
  {
    var id := step.call;
    assert CallFits(c, id);
    Keep(c.x, step);
    if step.AgainStep? {
      AgainComesTo(c.x, id);
      CallKeeps(c, id, c.x.calls[id].ends, Next(c.x, step));
    } else {
      FinishComesTo(c.x, id);
      CallKeeps(c, id, true, Next(c.x, step));
    }
  }

  lemma PerformKeeps(c: Connection, id: int, size: nat)
    requires Joined(c) && May(c, Perform(id, size))
    ensures Joined(Act(c, Perform(id, size)))
  {
    var app := c.apps[id];
    var e := app.todo[0];
    assert AppFits(c.x, app, EventsOn(c.ops, id));
    if IsQueued(e) {
      Keep(c.x, EnterStep(id, size, e.EndBody?));
      EnterComesTo(c.x, id, size, e.EndBody?);
      CallKeeps(c, id, e.EndBody?, Next(c.x, EnterStep(id, size, e.EndBody?)));
    } else {
      TakeNext(app);
      AppReplaced(c, id, app.(todo := app.todo[1..]), Act(c, Perform(id, size)));
    }
  }

  lemma {:induction false} RunsAreJoined(actions: seq<Action>, c: Connection)
    requires Acted(actions, c)
    ensures Joined(c)
    decreases |actions|
  {
    if actions == [] {
      assert Run([], INITIAL);
      RunsAreGood([], INITIAL);
    } else {
      var mid :| Acted(Front(actions), mid) && May(mid, Last(actions)) && c == Act(mid, Last(actions));
      RunsAreJoined(Front(actions), mid);
      match Last(actions)
      case Open(id, scope, knownServer) => OpenKeeps(mid, id, scope, knownServer);
      case Sender(step) =>
        if step.AgainStep? || step.FinishStep? {
          WaitingKeeps(mid, step);
        } else {
          SenderKeeps(mid, step);
        }
      case Arrive(id, event) => ArriveKeeps(mid, id, event);
      case Message(id, m) => MessageKeeps(mid, id, m);
      case Perform(id, size) => PerformKeeps(mid, id, size);
    }
  }

  /* What a life emits, and what of it reaches the wire. */

  predicate NoBodyAfterEnd(events: seq<H.Event>)
  {
    events != [] ==>
      && NoBodyAfterEnd(Front(events))
      && (Last(events).Body? ==> H.EndBody !in Front(events))
  }

  lemma {:induction false} EndsLastMeans(events: seq<H.Event>, state: H.State)
    requires E.EndsLast(events, state)
    ensures NoBodyAfterEnd(events) && (H.EndBody in events ==> state == H.CLOSED)
    decreases |events|
  {
    if events == [] {
    } else {
      var before := Front(events);
      assert forall i :: 0 <= i < |before| ==> before[i] == events[i];
      EndsLastMeans(before, state);
    }
  }

  /** Two parts, where the second brings no body after an end of the first. */
  lemma {:induction false} PartsEndLast(a: seq<H.Event>, b: seq<H.Event>)
    requires NoBodyAfterEnd(a) && NoBodyAfterEnd(b)
    requires H.EndBody in a ==> forall i :: 0 <= i < |b| ==> !b[i].Body?
    ensures NoBodyAfterEnd(a + b)
    decreases |b|
  {
    if b == [] {
      assert a + b == a;
    } else {
      PartsEndLast(a, Front(b));
      assert Front(a + b) == a + Front(b) && Last(a + b) == Last(b);
    }
  }

  lemma ClosedBringNoBody(h: H.Http, m: H.Message)
    requires h.scope.Some? && h.state == H.CLOSED
    ensures forall i :: 0 <= i < |H.AppSend(h, m).events| ==> !H.AppSend(h, m).events[i].Body?
  {
  }

  lemma ReplyEndsLast(l: G.Life, m: H.Message)
    requires G.MayMove(l, G.Outgoing(m)) && NoBodyAfterEnd(l.events)
    requires H.EndBody in l.events ==> l.http.state == H.CLOSED
    ensures var l' := G.MoveOn(l, G.Outgoing(m));
            NoBodyAfterEnd(l'.events) && (H.EndBody in l'.events ==> l'.http.state == H.CLOSED)
  {
    var r := H.AppSend(l.http, m);
    E.ReplyEndsLast(l.http, m);
    EndsLastMeans(r.events, r.next.state);
    if l.http.state == H.CLOSED {
      ClosedBringNoBody(l.http, m);
    }
    PartsEndLast(l.events, r.events);
  }

  lemma IncomingEvents(l: G.Life, e: H.Inbound)
    requires G.MayMove(l, G.Incoming(e)) && G.Consistent(l)
    ensures var l' := G.MoveOn(l, G.Incoming(e));
            || (l'.events == l.events && l'.http.state == l.http.state)
            || (l'.events == H.ErrorResponse(404) && l'.http.state == H.CLOSED)
  {
    var emitted := H.Handle(l.http, e).1;
    assert emitted == [] ==> l.events + emitted == l.events;
    assert emitted != [] ==> l.events == [];
  }

  lemma IncomingEndsLast(l: G.Life, e: H.Inbound)
    requires G.MayMove(l, G.Incoming(e)) && G.Consistent(l) && NoBodyAfterEnd(l.events)
    requires H.EndBody in l.events ==> l.http.state == H.CLOSED
    ensures var l' := G.MoveOn(l, G.Incoming(e));
            NoBodyAfterEnd(l'.events) && (H.EndBody in l'.events ==> l'.http.state == H.CLOSED)
  {
    IncomingEvents(l, e);
    E.ErrorEndsLast(404);
    EndsLastMeans(H.ErrorResponse(404), H.CLOSED);
  }

  lemma {:induction false} LivesEndLast(moves: seq<G.Move>, l: G.Life)
    requires G.Lived(moves, l)
    ensures NoBodyAfterEnd(l.events) && (H.EndBody in l.events ==> l.http.state == H.CLOSED)
    decreases |moves|
  {
    if moves == [] {
    } else {
      var mid :| G.Lived(Front(moves), mid) && G.MayMove(mid, Last(moves)) && l == G.MoveOn(mid, Last(moves));
      LivesEndLast(Front(moves), mid);
      G.LivesAreSound(Front(moves), mid);
      match Last(moves)
      case Incoming(e) => IncomingEndsLast(mid, e);
      case Outgoing(m) => ReplyEndsLast(mid, m);
    }
  }

  lemma {:induction false} QueuedKeepsBodies(events: seq<H.Event>)
    ensures G.BodiesOf(Queued(events)) == G.BodiesOf(events)
    ensures H.EndBody in Queued(events) <==> H.EndBody in events
    ensures NoBodyAfterEnd(events) ==> NoBodyAfterEnd(Queued(events))
    decreases |events|
  {
    if events == [] {
    } else {
      var before, last := Front(events), Last(events);
      QueuedKeepsBodies(before);
      assert events == before + [last];
      G.BodiesAppend(before, [last]);
      if IsQueued(last) {
        G.BodiesAppend(Queued(before), [last]);
        assert Front(Queued(before) + [last]) == Queued(before);
      } else {
        G.NoBodies([last]);
        assert Queued(events) == Queued(before);
      }
    }
  }

  lemma {:induction false} AfterTheEnd(a: seq<H.Event>, b: seq<H.Event>)
    requires NoBodyAfterEnd(a + b) && H.EndBody in a
    ensures G.BodiesOf(b) == []
    decreases |b|
  {
    if b == [] {
    } else {
      assert Front(a + b) == a + Front(b) && Last(a + b) == Last(b);
      AfterTheEnd(a, Front(b));
      assert b == Front(b) + [Last(b)];
      G.BodiesAppend(Front(b), [Last(b)]);
      G.NoBodies([Last(b)]);
    }
  }

  lemma {:induction false} FirstEventsOn(ops: seq<Sending>, n: nat, id: int)
    requires n <= |ops|
    ensures EventsOn(ops[..n], id) <= EventsOn(ops, id)
    decreases |ops|
  {
    if n == |ops| {
      assert ops[..n] == ops;
    } else {
      FirstEventsOn(Front(ops), n, id);
      assert Front(ops)[..n] == ops[..n];
    }
  }

  lemma {:induction false} AppliedWereAdmitted(h: History)
    requires Faithful(h)
    ensures AppliedCount(h) <= AdmittedCount(h) && FlushedCount(h) <= AppliedCount(h)
  {
    match h
    case Start =>
    case Then(past, _) => AppliedWereAdmitted(past);
  }

  lemma LifesBodies(l: G.Life)
    requires E.Living(l)
    ensures G.BodiesOf(l.events) == E.AppBody(l) && NoBodyAfterEnd(l.events)
  {
    var moves :| G.Lived(moves, l);
    LivesEndLast(moves, l);
    G.BodiesAreTheApps(moves, l);
  }

  /** The first events of a life have the first of its bodies, and all of them if
      they have its end. */
  lemma FirstEventsOfALife(l: G.Life, taken: seq<H.Event>)
    requires E.Living(l) && taken <= Queued(l.events)
    ensures G.BodiesOf(taken) <= E.AppBody(l)
    ensures H.EndBody in taken ==> G.BodiesOf(taken) == E.AppBody(l)
  {
    LifesBodies(l);
    QueuedKeepsBodies(l.events);
    var rest := Queued(l.events)[|taken|..];
    assert Queued(l.events) == taken + rest;
    G.BodiesAppend(taken, rest);
    if H.EndBody in taken {
      AfterTheEnd(taken, rest);
    }
  }

  lemma TakenAreFirst(c: Connection, n: nat, id: int)
    requires Joined(c) && n <= |c.ops| && id in c.apps
    ensures E.Living(c.apps[id].life) && EventsOn(c.ops[..n], id) <= Queued(c.apps[id].life.events)
  {
    var app := c.apps[id];
    assert AppFits(c.x, app, EventsOn(c.ops, id));
    FirstEventsOn(c.ops, n, id);
    if !app.failed {
      QueuedGrows(Done(app), app.todo);
    }
  }

  /** End to end, for any messages of any apps and any interleaving, errors and
      closes included: what reached the library on a stream are the first of the
      events its app's messages emitted, in order; its DATA is a prefix of the
      bodies its app sent, or nothing when the response may have no content, and
      it is all of them whenever the stream was ended. */
  lemma DataIsTheAppsBody(actions: seq<Action>, c: Connection, id: int)
    requires Acted(actions, c) && id in c.apps
    ensures AppliedCount(c.x.history) <= |c.ops|
    ensures var sent := EventsOn(Wire(c), id);
            && sent <= Queued(c.apps[id].life.events)
            && G.BodiesOf(sent) <= E.AppBody(c.apps[id].life)
            && (H.EndBody in sent ==> G.BodiesOf(sent) == E.AppBody(c.apps[id].life))
  {
    RunsAreJoined(actions, c);
    AppliedWereAdmitted(c.x.history);
    TakenAreFirst(c, AppliedCount(c.x.history), id);
    FirstEventsOfALife(c.apps[id].life, EventsOn(Wire(c), id));
  }

  lemma {:induction false} ReturnedWereEnds(h: History, past: History, k: nat, ops: seq<Sending>)
    requires EndsReturned(h, ops) && Extends(h, Then(past, Returned(k)))
    ensures k < |ops| && ops[k].event == H.EndBody
  {
    if h == Then(past, Returned(k)) {
    } else {
      ReturnedWereEnds(h.past, past, k, ops);
    }
  }

  lemma EventIsOnItsStream(ops: seq<Sending>, k: nat)
    requires k < |ops|
    ensures ops[k].event in EventsOn(ops[..k + 1], ops[k].id)
  {
    assert ops[..k + 1] == ops[..k] + [ops[k]];
    EventsOnSnoc(ops[..k], ops[k], ops[k].id);
  }

  /** When the send that ends a response has come back normally, the whole of the
      app's body and its end were applied, and then flushed. */
  lemma ReturnedMeansDelivered(actions: seq<Action>, c: Connection, past: History, k: nat, earlier: nat)
    requires Acted(actions, c) && Extends(c.x.history, Then(past, Returned(k))) && earlier <= k
    ensures k < |c.ops| && c.ops[k].event == H.EndBody && c.ops[k].id in c.apps
    ensures CoveredIn(past, earlier)
    ensures G.BodiesOf(EventsOn(c.ops[..k + 1], c.ops[k].id)) == E.AppBody(c.apps[c.ops[k].id].life)
  {
    RunsAreJoined(actions, c);
    ReturnedWereEnds(c.x.history, past, k, c.ops);
    EndCovers(c.x.history, past, k, earlier);
    var id := c.ops[k].id;
    EventIsOnItsStream(c.ops, k);
    FirstEventsOn(c.ops, k + 1, id);
    assert EventsOn(c.ops, id) != [];
    TakenAreFirst(c, k + 1, id);
    FirstEventsOfALife(c.apps[id].life, EventsOn(c.ops[..k + 1], id));
  }

  lemma QuietSchedulers(x: World)
    requires Good(x) && x.s.pending == [] && !Unavailable(x.s)
    ensures AppliedCount(x.history) == AdmittedCount(x.history)
  {
  }

  lemma OpenAppsFit(c: Connection, id: int)
    requires Joined(c) && id in c.apps && !Unavailable(c.x.s)
    ensures |c.apps[id].todo| <= |c.apps[id].life.events|
    ensures EventsOn(c.ops, id) == Queued(Done(c.apps[id]))
  {
    assert AppFits(c.x, c.apps[id], EventsOn(c.ops, id));
  }

  lemma AllAreApplied(c: Connection)
    requires Joined(c) && c.x.s.pending == [] && !Unavailable(c.x.s)
    ensures AppliedCount(c.x.history) == |c.ops| && Wire(c) == c.ops
  {
    QuietSchedulers(c.x);
  }

  lemma QuietIsWhole(c: Connection, id: int)
    requires Joined(c) && id in c.apps && c.x.s.pending == [] && !Unavailable(c.x.s)
    ensures AppliedCount(c.x.history) == |c.ops| && |c.apps[id].todo| <= |c.apps[id].life.events|
    ensures EventsOn(Wire(c), id) == Queued(Done(c.apps[id]))
  {
    AllAreApplied(c);
    OpenAppsFit(c, id);
  }

  /** Where nothing is pending on an open scheduler, everything that was carried
      out for any app is on the wire. */
  lemma NothingPendingNothingLeft(actions: seq<Action>, c: Connection, id: int)
    requires Acted(actions, c) && id in c.apps && c.x.s.pending == [] && !Unavailable(c.x.s)
    ensures AppliedCount(c.x.history) == |c.ops| && |c.apps[id].todo| <= |c.apps[id].life.events|
    ensures EventsOn(Wire(c), id) == Queued(Done(c.apps[id]))
  {
    RunsAreJoined(actions, c);
    QuietIsWhole(c, id);
  }
}
