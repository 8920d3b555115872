/** Left to itself, an open HTTP/3 connection brings everything its apps' messages
    emitted to the wire. */
module H3Delivery {
  import opened Common
  import opened H3Sends
  import opened H3Runs
  import opened H3EndToEnd
  import E = EndToEnd
  import H = HttpStreams
  import G = HttpGrammar

  /** A step of `run`'s task in which nothing raises. */
  predicate IsSmooth(step: Step)
  {
    match step
    case TurnStep(faultAt, _) => faultAt >= MAX_BATCHED_SENDS
    case UnparkStep(faultAt, _) => faultAt >= MAX_BATCHED_SENDS
    case FlushedStep(fault) => fault == None
    case _ => false
  }

  /** What the server does by itself when the library refuses nothing: steps of
      `run`'s task, calls that go on, events that are due. */
  predicate IsServers(a: Action)
  {
    match a
    case Sender(step) => IsSmooth(step) || step.AgainStep? || step.FinishStep?
    case Perform(_, _) => true
    case _ => false
  }

  predicate AllServers(actions: seq<Action>) { forall i :: 0 <= i < |actions| ==> IsServers(actions[i]) }

  ghost predicate Goes(c: Connection, actions: seq<Action>, c': Connection)
    decreases |actions|
  {
    if actions == [] then c' == c
    else exists mid :: Goes(c, Front(actions), mid) && H3EndToEnd.May(mid, Last(actions))
                       && c' == Act(mid, Last(actions))
  }

  ghost predicate ServerIsStuck(c: Connection)
  {
    forall a :: IsServers(a) ==> !H3EndToEnd.May(c, a)
  }

  /* How long the server can go on by itself: `w` is the weight of an operation
     that is pending. */

  function CallWeight(x: World, id: int, due: bool): nat
  {
    if id in x.calls then (if Awaited(x.calls[id]) in x.completed then 2 else 0) else if due then 1 else 0
  }

  function DueOn(c: Connection, id: int, w: nat): nat
    requires id in c.apps
  {
    (w + 4) * |c.apps[id].todo| + CallWeight(c.x, id, c.apps[id].todo != [])
  }

  function Dues(c: Connection, w: nat): map<int, nat>
  {
    map id | id in c.apps :: DueOn(c, id, w)
  }

  function LoopLeft(x: World): nat
  {
    (if x.runner == AtHead then 1 else 0) + if x.s.hasData then 2 else 0
  }

  function OpWeight(c: Connection): nat { 2 * |c.apps| + 4 }

  ghost function Left(c: Connection): nat
  {
    Sum(Dues(c, OpWeight(c))) + OpWeight(c) * |c.x.s.pending| + LoopLeft(c.x)
  }

  /** One app's call or events change, all others' stay. */
  lemma DuesDrop(c: Connection, id: int, c': Connection, w: nat, n: nat)
    requires id in c.apps && c'.apps.Keys == c.apps.Keys && c'.apps - {id} == c.apps - {id}
    requires c'.x.calls - {id} == c.x.calls - {id} && c'.x.completed == c.x.completed
    requires DueOn(c', id, w) + n <= DueOn(c, id, w)
    ensures Sum(Dues(c', w)) + n <= Sum(Dues(c, w))
  {
    forall j | j in c.apps && j != id
      ensures DueOn(c', j, w) == DueOn(c, j, w)
    {
      SameElsewhere(c.apps, c'.apps, id, j);
      SameElsewhere(c.x.calls, c'.x.calls, id, j);
    }
    SumDrops(Dues(c, w), id, Dues(c', w), n);
  }

  lemma OneLess(w: nat, n: nat)
    requires n > 0
    ensures w * n == w * (n - 1) + w
  {
  }

  /** Nothing pending is complete. */
  lemma PendingIsOpen(x: World, i: nat)
    requires Good(x) && i < |x.s.pending|
    ensures x.s.pending[i].id !in x.completed
  {
  }

  lemma ToComeIsOpen(x: World)
    requires Good(x)
    ensures AdmittedCount(x.history) !in x.completed
  {
  }

  lemma SameApps(c: Connection, c': Connection)
    requires c'.apps.Keys == c.apps.Keys
    ensures OpWeight(c') == OpWeight(c)
  {
    assert |c.apps.Keys| == |c.apps| && |c'.apps.Keys| == |c'.apps|;
  }

  /** A call that offers its next event: it is new, or it was woken. */
  predicate MayTry(c: Connection, id: int, ends: bool)
  {
    && Offers(c, id, ends)
    && (id in c.x.calls ==> c.x.calls[id].Admitting? && c.x.calls[id].oldest in c.x.completed)
  }

  lemma WaitUses(c: Connection, id: int, size: nat, ends: bool, c': Connection)
    requires Good(c.x) && MayTry(c, id, ends) && MustWait(c.x.s, size)
    requires c' == c.(x := Try(c.x, id, size, ends))
    ensures Left(c') < Left(c)
  {
    PendingIsOpen(c.x, 0);
    assert c'.x.calls - {id} == c.x.calls - {id};
    DuesDrop(c, id, c', OpWeight(c), 1);
  }

  lemma AdmissionUses(c: Connection, id: int, size: nat, ends: bool, x': World, c': Connection)
    requires Good(c.x) && MayTry(c, id, ends) && !MustWait(c.x.s, size) && x' == Try(c.x, id, size, ends)
    requires c'.x == x' && c'.apps == c.apps[id := c.apps[id].(todo := c.apps[id].todo[1..])]
    ensures Left(c') < Left(c)
  {
    var w := OpWeight(c);
    SameApps(c, c');
    ToComeIsOpen(c.x);
    assert c'.x.calls - {id} == c.x.calls - {id};
    assert c'.apps - {id} == c.apps - {id};
    OneLess(w + 4, |c.apps[id].todo|);
    DuesDrop(c, id, c', w, w + 4);
    OneLess(w, |c'.x.s.pending|);
  }

  lemma TryUses(c: Connection, id: int, size: nat, ends: bool, c': Connection)
    requires Good(c.x) && !Unavailable(c.x.s) && MayTry(c, id, ends)
    requires c' == AfterCall(c, id, Try(c.x, id, size, ends))
    ensures Left(c') < Left(c) && !Unavailable(c'.x.s) && c'.apps.Keys == c.apps.Keys
  {
    if MustWait(c.x.s, size) {
      WaitUses(c, id, size, ends, c');
    } else {
      AdmissionUses(c, id, size, ends, Try(c.x, id, size, ends), c');
    }
  }

  lemma SkipUses(c: Connection, id: int, c': Connection)
    requires id in c.apps && c.apps[id].todo != [] && id !in c.x.calls
    requires c' == c.(apps := c.apps[id := c.apps[id].(todo := c.apps[id].todo[1..])])
    ensures Left(c') < Left(c)
  {
    SameApps(c, c');
    assert c'.apps - {id} == c.apps - {id};
    OneLess(OpWeight(c) + 4, |c.apps[id].todo|);
    DuesDrop(c, id, c', OpWeight(c), 1);
  }

  lemma PerformUses(c: Connection, id: int, size: nat, c': Connection)
    requires Joined(c) && !Unavailable(c.x.s) && H3EndToEnd.May(c, Perform(id, size))
    requires c' == Act(c, Perform(id, size))
    ensures Left(c') < Left(c) && !Unavailable(c'.x.s) && c'.apps.Keys == c.apps.Keys
  {
    var e := c.apps[id].todo[0];
    assert AppFits(c.x, c.apps[id], EventsOn(c.ops, id));
    if IsQueued(e) {
      TryUses(c, id, size, e.EndBody?, c');
    } else {
      SkipUses(c, id, c');
    }
  }

  lemma AgainUses(c: Connection, id: int, c': Connection)
    requires Joined(c) && !Unavailable(c.x.s) && H3EndToEnd.May(c, Sender(AgainStep(id)))
    requires c' == Act(c, Sender(AgainStep(id)))
    ensures Left(c') < Left(c) && !Unavailable(c'.x.s) && c'.apps.Keys == c.apps.Keys
  {
    var call := c.x.calls[id];
    assert CallFits(c, id);
    if c.x.completed[call.oldest].Some? {
      NoneFailed(c.x, call.oldest);
    } else {
      TryUses(c, id, call.size, call.ends, c');
    }
  }

  lemma FinishReturns(x: World, id: int, x': World)
    requires Good(x) && !Unavailable(x.s) && H3Runs.May(x, FinishStep(id)) && x' == Next(x, FinishStep(id))
    ensures x' == Note(Drop(x, id), Returned(x.calls[id].id))
  {
    if x.completed[x.calls[id].id].Some? {
      NoneFailed(x, x.calls[id].id);
    }
  }

  lemma ReturnUses(c: Connection, id: int, c': Connection)
    requires id in c.apps && id in c.x.calls && Awaited(c.x.calls[id]) in c.x.completed
    requires c'.apps == c.apps && c'.x.calls == c.x.calls - {id} && c'.x.completed == c.x.completed
    requires c'.x.s == c.x.s && c'.x.runner == c.x.runner
    ensures Left(c') < Left(c)
  {
    assert c'.x.calls - {id} == c.x.calls - {id};
    DuesDrop(c, id, c', OpWeight(c), 1);
  }

  lemma FinishUses(c: Connection, id: int, c': Connection)
    requires Joined(c) && !Unavailable(c.x.s) && H3EndToEnd.May(c, Sender(FinishStep(id)))
    requires c' == Act(c, Sender(FinishStep(id)))
    ensures Left(c') < Left(c) && !Unavailable(c'.x.s) && c'.apps.Keys == c.apps.Keys
  {
    assert CallFits(c, id);
    FinishReturns(c.x, id, c'.x);
    ReturnUses(c, id, c');
  }

  /** `run`'s task looks at the queue. */
  lemma SmoothTurn(x: World, step: Step, x': World)
    requires Shape(x) && !Unavailable(x.s) && H3Runs.May(x, step) && IsSmooth(step) && !step.FlushedStep?
    requires x' == Next(x, step)
    ensures x'.s == x.s.(queue := x'.s.queue, hasData := x'.s.hasData)
    ensures x'.completed == x.completed && x'.calls == x.calls && LoopLeft(x') < LoopLeft(x)
  {
  }

  lemma LessLoop(c: Connection, c': Connection)
    requires c'.apps == c.apps && c'.x.completed == c.x.completed && c'.x.calls == c.x.calls
    requires c'.x.s.pending == c.x.s.pending && LoopLeft(c'.x) < LoopLeft(c.x)
    ensures Left(c') < Left(c)
  {
    assert Dues(c', OpWeight(c)) == Dues(c, OpWeight(c));
  }

  lemma TurnUses(c: Connection, step: Step, c': Connection)
    requires Shape(c.x) && !Unavailable(c.x.s) && H3Runs.May(c.x, step) && IsSmooth(step)
    requires !step.FlushedStep? && c' == c.(x := Next(c.x, step))
    ensures Left(c') < Left(c) && !Unavailable(c'.x.s) && c'.apps == c.apps
  {
    SmoothTurn(c.x, step, c'.x);
    LessLoop(c, c');
  }

  lemma SmoothFlush(x: World, x': World)
    requires Good(x) && !Unavailable(x.s) && H3Runs.May(x, FlushedStep(None)) && x' == Next(x, FlushedStep(None))
    ensures |x'.s.pending| < |x.s.pending| && !Unavailable(x'.s) && x'.calls == x.calls
    ensures LoopLeft(x') <= LoopLeft(x) + 3
  {
    CompletesFront(x.s, x.runner.batch, x.s.queue);
  }

  /** Whatever is completed, each app has at most one call more to go on. */
  lemma FlushedDues(c: Connection, c': Connection, w: nat)
    requires c'.apps == c.apps && c'.x.calls == c.x.calls
    ensures Sum(Dues(c', w)) <= Sum(Dues(c, w)) + 2 * |c.apps|
  {
    SumGrows(Dues(c, w), Dues(c', w), 2);
    assert |Dues(c, w).Keys| == |Dues(c, w)| && |c.apps.Keys| == |c.apps| && Dues(c, w).Keys == c.apps.Keys;
  }

  lemma FewerTimes(w: nat, small: nat, large: nat)
    requires small < large
    ensures w * small + w <= w * large
  {
    assert w * large == w * small + w * (large - small);
    assert w * (large - small - 1) >= 0;
  }

  lemma LessPending(c: Connection, c': Connection)
    requires c'.apps == c.apps && c'.x.calls == c.x.calls
    requires |c'.x.s.pending| < |c.x.s.pending| && LoopLeft(c'.x) <= LoopLeft(c.x) + 3
    ensures Left(c') < Left(c)
  {
    FlushedDues(c, c', OpWeight(c));
    FewerTimes(OpWeight(c), |c'.x.s.pending|, |c.x.s.pending|);
  }

  lemma FlushUses(c: Connection, c': Connection)
    requires Good(c.x) && !Unavailable(c.x.s) && H3Runs.May(c.x, FlushedStep(None))
    requires c' == c.(x := Next(c.x, FlushedStep(None)))
    ensures Left(c') < Left(c) && !Unavailable(c'.x.s) && c'.apps == c.apps
  {
    SmoothFlush(c.x, c'.x);
    LessPending(c, c');
  }

  lemma ActionUses(c: Connection, a: Action, c': Connection)
    requires Joined(c) && !Unavailable(c.x.s) && IsServers(a) && H3EndToEnd.May(c, a) && c' == Act(c, a)
    ensures Left(c') < Left(c) && !Unavailable(c'.x.s) && c'.apps.Keys == c.apps.Keys
  {
    match a
    case Perform(id, size) => PerformUses(c, id, size, c');
    case Sender(step) =>
      match step {
        case AgainStep(id) => AgainUses(c, id, c');
        case FinishStep(id) => FinishUses(c, id, c');
        case FlushedStep(_) => FlushUses(c, c');
        case _ => TurnUses(c, step, c');
      }
  }

  lemma ActionJoins(c: Connection, a: Action, c': Connection)
    requires Joined(c) && IsServers(a) && H3EndToEnd.May(c, a) && c' == Act(c, a)
    ensures Joined(c')
  {
    match a
    case Perform(id, size) => PerformKeeps(c, id, size);
    case Sender(step) =>
      if step.AgainStep? || step.FinishStep? {
        WaitingKeeps(c, step);
      } else {
        SenderKeeps(c, step);
      }
  }

  predicate SameLives(c: Connection, c': Connection)
  {
    c'.apps.Keys == c.apps.Keys && forall id :: id in c.apps ==> c'.apps[id].life == c.apps[id].life
  }

  lemma ActionLives(c: Connection, a: Action, c': Connection)
    requires IsServers(a) && H3EndToEnd.May(c, a) && c' == Act(c, a)
    ensures SameLives(c, c')
  {
  }

  /** A reached connection whose scheduler is open. */
  ghost predicate Provided(c: Connection) { Joined(c) && !Unavailable(c.x.s) }

  lemma ServerStep(c: Connection, mid: Connection, a: Action, c': Connection)
    requires SameLives(c, mid) && Provided(mid) && IsServers(a) && H3EndToEnd.May(mid, a) && c' == Act(mid, a)
    ensures SameLives(c, c') && Provided(c') && Left(c') < Left(mid)
  {
    ActionUses(mid, a, c');
    ActionJoins(mid, a, c');
    ActionLives(mid, a, c');
  }

  lemma {:induction false} ServerRun(c: Connection, actions: seq<Action>, c': Connection)
    requires Provided(c) && Goes(c, actions, c') && AllServers(actions)
    ensures SameLives(c, c') && Provided(c') && |actions| + Left(c') <= Left(c)
    decreases |actions|
  {
    if actions == [] {
    } else {
      var mid :| Goes(c, Front(actions), mid) && H3EndToEnd.May(mid, Last(actions)) && c' == Act(mid, Last(actions));
      ServerRun(c, Front(actions), mid);
      ServerStep(c, mid, Last(actions), c');
    }
  }

  /** The next thing `run`'s task does. */
  function NextTurn(x: World): Step
  {
    if x.runner.Flushing? then FlushedStep(None)
    else if x.runner == Parked then UnparkStep(MAX_BATCHED_SENDS, 0)
    else TurnStep(MAX_BATCHED_SENDS, 0)
  }

  lemma NoTurnNothingPending(x: World)
    requires Shape(x) && !Unavailable(x.s) && x.s.pending == InFlight(x.runner) + x.s.queue
    requires !H3Runs.May(x, NextTurn(x))
    ensures x.s.pending == []
  {
  }

  lemma StuckTurn(c: Connection)
    requires ServerIsStuck(c)
    ensures !H3Runs.May(c.x, NextTurn(c.x))
  {
    assert IsServers(Sender(NextTurn(c.x))) && !H3EndToEnd.May(c, Sender(NextTurn(c.x)));
  }

  lemma StuckLoopParks(c: Connection)
    requires Provided(c) && ServerIsStuck(c)
    ensures c.x.s.pending == []
  {
    StuckTurn(c);
    NoTurnNothingPending(c.x);
  }

  lemma StuckCallsAreDone(c: Connection, n: int)
    requires Provided(c) && ServerIsStuck(c) && c.x.s.pending == []
    ensures n !in c.x.calls
  {
    AllCanGoOn(c.x);
    assert !H3EndToEnd.May(c, Sender(AgainStep(n))) && !H3EndToEnd.May(c, Sender(FinishStep(n)));
  }

  lemma StuckAppsAreDone(c: Connection, id: int)
    requires Provided(c) && ServerIsStuck(c) && id in c.apps && id !in c.x.calls
    ensures c.apps[id].todo == []
  {
    if c.apps[id].todo != [] {
      var e := c.apps[id].todo[0];
      var a := Perform(id, if e.Body? then |e.data| else 0);
      assert IsServers(a) && H3EndToEnd.May(c, a);
    }
  }

  lemma StuckIsWhole(c: Connection, id: int)
    requires Provided(c) && ServerIsStuck(c) && id in c.apps
    ensures AppliedCount(c.x.history) == |c.ops|
    ensures EventsOn(Wire(c), id) == Queued(c.apps[id].life.events)
  {
    StuckLoopParks(c);
    StuckCallsAreDone(c, id);
    StuckAppsAreDone(c, id);
    QuietIsWhole(c, id);
    assert Done(c.apps[id]) == c.apps[id].life.events;
  }

  /** All that the app's messages emitted is on the wire, its body whole. */
  predicate Delivered(c: Connection, id: int, life: G.Life)
  {
    && AppliedCount(c.x.history) == |c.ops|
    && EventsOn(Wire(c), id) == Queued(life.events)
    && G.BodiesOf(EventsOn(Wire(c), id)) == E.AppBody(life)
  }

  lemma StuckIsDelivered(c: Connection, id: int)
    requires Provided(c) && ServerIsStuck(c) && id in c.apps
    ensures Delivered(c, id, c.apps[id].life)
  {
    StuckIsWhole(c, id);
    TakenAreFirst(c, 0, id);
    QueuedKeepsBodies(c.apps[id].life.events);
    LifesBodies(c.apps[id].life);
  }

  lemma ReachedIsJoined(before: seq<Action>, c: Connection)
    requires Acted(before, c)
    ensures Joined(c)
  {
    RunsAreJoined(before, c);
  }

  /** From every reached connection with an open scheduler: left to itself, in
      whatever order it does things, the server takes only so many actions, and
      where it has none left everything that the messages of every app emitted is
      on the wire, in order. */
  lemma EverythingIsDelivered(before: seq<Action>, c: Connection, actions: seq<Action>, c': Connection, id: int)
    requires Acted(before, c) && !Unavailable(c.x.s) && Goes(c, actions, c') && AllServers(actions)
    requires id in c.apps
    ensures |actions| <= Left(c)
    ensures ServerIsStuck(c') ==> Delivered(c', id, c.apps[id].life)
  {
    ReachedIsJoined(before, c);
    ServerRun(c, actions, c');
    if ServerIsStuck(c') {
      StuckIsDelivered(c', id);
    }
  }
}
