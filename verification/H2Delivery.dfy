/** Once there is enough credit, an answer that its app has ended reaches the
    wire whole, its end included. */
module H2Delivery {
  import opened Common
  import opened StreamBuffers
  import opened H2Send
  import opened H2Drain
  import opened H2System
  import opened H2Progress
  import opened H2Fidelity
  import opened H2Liveness
  import opened EndToEnd
  import B = H2Backpressure
  import H = HttpStreams
  import G = HttpGrammar

  /** What the server does by itself when the library refuses nothing: the
      scheduler's own steps, sends that go on, events that are due. */
  predicate IsServers(a: Action)
  {
    match a
    case Transport(step) => IsOwn(step) || step.ResumeStep?
    case Perform(_) => true
    case _ => false
  }

  predicate AllServers(actions: seq<Action>) { forall i :: 0 <= i < |actions| ==> IsServers(actions[i]) }

  predicate StepsTo(c: Connection, a: Action, c': Connection)
  {
    Base(c.sys) && May(c, a) && c' == Act(c, a)
  }

  ghost predicate Goes(c: Connection, actions: seq<Action>, c': Connection)
    decreases |actions|
  {
    if actions == [] then c' == c
    else exists mid :: Goes(c, Front(actions), mid) && StepsTo(mid, Last(actions), c')
  }

  ghost predicate ServerIsStuck(c: Connection)
  {
    forall a :: IsServers(a) ==> !May(c, a)
  }

  /** The bytes of one event. */
  function BodyOf(e: H.Event): Bytes { if e.Body? then e.data else [] }

  /** The bytes that the events due on a stream still bring. */
  function ToCome(c: Connection, id: int): Bytes
  {
    if id in c.apps then G.BodiesOf(c.apps[id].todo) else []
  }

  /** The buffers with the bytes that are still to come. */
  function Owed(c: Connection): map<int, BufferView>
  {
    map id | id in c.sys.sched.buffers ::
      c.sys.sched.buffers[id].(data := c.sys.sched.buffers[id].data + ToCome(c, id))
  }

  ghost predicate CreditForAll(c: Connection) { Covers(c.sys.windows, Owed(c)) }

  /** An end is due, and no close before it. */
  predicate EndComes(todo: seq<H.Event>)
  {
    todo != [] && (IsEnding(todo[0]) || (!todo[0].StreamClosed? && EndComes(todo[1..])))
  }

  /** The stream was ended, or it is open and its app has ended its answer: the
      end is in the buffer or among the events due. */
  predicate Answering(c: Connection, id: int)
    requires id in c.apps
  {
    || EndedIn(c.sys.history, id)
    || (Live(c.sys, id) && (c.sys.sched.buffers[id].complete || EndComes(c.apps[id].todo)))
  }

  /* How long the server can go on by itself. */

  function Weight(todo: seq<H.Event>): nat
  {
    if todo == [] then 0 else 9 + 5 * |BodyOf(todo[0])| + Weight(todo[1..])
  }

  function Dues(c: Connection): map<int, nat>
  {
    map id | id in c.apps ::
      Weight(c.apps[id].todo) + if id in c.sys.producers && c.sys.producers[id] != Idle then 1 else 0
  }

  ghost function Left(c: Connection): nat { StepsLeft(c.sys) + Sum(Dues(c)) }

  /** What carrying out one event does to the transport. */
  lemma CarryFrame(s: System, id: int, e: H.Event, s': System)
    requires Base(s) && id in s.producers && s.producers[id] == Idle && s' == Carry(s, id, e)
    ensures s'.windows == s.windows && s'.notices == s.notices && s'.runner == s.runner
    ensures s'.sched.buffers - {id} == s.sched.buffers - {id} && s'.sched.ready <= s.sched.ready + {id}
    ensures Live(s', id) ==> Live(s, id)
    ensures Live(s', id) ==> |s'.sched.buffers[id].data| <= |s.sched.buffers[id].data| + |BodyOf(e)|
    ensures s'.producers - {id} == s.producers - {id} && id in s'.producers
  {
  }

  lemma BytesGrow(m: map<int, BufferView>, id: int, m': map<int, BufferView>, n: nat)
    requires m' - {id} == m - {id} && (id in m' ==> id in m && |m'[id].data| <= |m[id].data| + n)
    ensures TotalBytes(m') <= TotalBytes(m) + n && m'.Keys <= m.Keys
  {
    assert m'.Keys - {id} == (m' - {id}).Keys == (m - {id}).Keys;
    if id in m {
      TotalWithout(m, id);
    } else {
      assert m - {id} == m;
    }
    if id in m' {
      TotalWithout(m', id);
    } else {
      assert m' - {id} == m';
    }
  }

  lemma CarrySteps(s: System, id: int, e: H.Event, s': System)
    requires Base(s) && id in s.producers && s.producers[id] == Idle && s' == Carry(s, id, e)
    ensures StepsLeft(s') <= StepsLeft(s) + 7 + 5 * |BodyOf(e)|
  {
    CarryFrame(s, id, e, s');
    BytesGrow(s.sched.buffers, id, s'.sched.buffers, |BodyOf(e)|);
    StepsGrow(s, id, |BodyOf(e)|, s');
  }

  lemma StepsGrow(s: System, id: int, n: nat, s': System)
    requires s'.notices == s.notices && s'.runner == s.runner && s'.sched.buffers.Keys <= s.sched.buffers.Keys
    requires TotalBytes(s'.sched.buffers) <= TotalBytes(s.sched.buffers) + n
    requires s'.sched.ready <= s.sched.ready + {id}
    ensures StepsLeft(s') <= StepsLeft(s) + 7 + 5 * n
  {
    Fewer(s'.sched.ready, s.sched.ready + {id});
    Fewer(s'.sched.buffers.Keys, s.sched.buffers.Keys);
    assert |s.sched.buffers.Keys| == |s.sched.buffers| && |s'.sched.buffers.Keys| == |s'.sched.buffers|;
    FewerTimes(|s.notices|, |s'.sched.buffers|, |s.sched.buffers|);
  }

  lemma DuesDrop(c: Connection, id: int, c': Connection, n: nat)
    requires id in c.apps && c'.apps.Keys == c.apps.Keys && c'.apps - {id} == c.apps - {id}
    requires c'.sys.producers - {id} == c.sys.producers - {id} && Dues(c')[id] + n <= Dues(c)[id]
    ensures Sum(Dues(c')) + n <= Sum(Dues(c))
  {
    forall j | j in c.apps && j != id
      ensures Dues(c')[j] == Dues(c)[j]
    {
      SameElsewhere(c.apps, c'.apps, id, j);
      SameElsewhere(c.sys.producers, c'.sys.producers, id, j);
    }
    SumDrops(Dues(c), id, Dues(c'), n);
  }

  lemma PerformFrame(c: Connection, id: int, c': Connection)
    requires Base(c.sys) && May(c, Perform(id)) && c' == Act(c, Perform(id))
    ensures c'.sys == Carry(c.sys, id, c.apps[id].todo[0]) && c'.apps - {id} == c.apps - {id}
    ensures c'.apps.Keys == c.apps.Keys && c'.apps[id] == c.apps[id].(todo := c.apps[id].todo[1..])
  {
  }

  lemma PerformUses(c: Connection, id: int, c': Connection)
    requires Base(c.sys) && May(c, Perform(id)) && c' == Act(c, Perform(id))
    ensures Left(c') < Left(c)
  {
    var e := c.apps[id].todo[0];
    PerformFrame(c, id, c');
    CarrySteps(c.sys, id, e, c'.sys);
    CarryFrame(c.sys, id, e, c'.sys);
    DuesDrop(c, id, c', 8 + 5 * |BodyOf(e)|);
  }

  lemma ResumeFrame(s: System, id: int, s': System)
    requires Base(s) && Enabled(s, ResumeStep(id)) && s' == Next(s, ResumeStep(id))
    ensures s'.windows == s.windows && s'.notices == s.notices && s'.runner == s.runner
    ensures s'.sched.buffers - {id} == s.sched.buffers - {id} && s'.sched.buffers.Keys == s.sched.buffers.Keys
    ensures Live(s, id) ==> s'.sched.buffers[id].data == s.sched.buffers[id].data
    ensures Live(s, id) ==> s'.sched.buffers[id].complete == s.sched.buffers[id].complete
    ensures s'.sched.ready == s.sched.ready && s'.sched.hasData == s.sched.hasData
    ensures s'.producers == s.producers[id := Idle]
  {
  }

  lemma SameSteps(s: System, id: int, s': System)
    requires s'.notices == s.notices && s'.runner == s.runner && s'.sched.ready == s.sched.ready
    requires s'.sched.buffers - {id} == s.sched.buffers - {id} && s'.sched.buffers.Keys == s.sched.buffers.Keys
    requires Live(s, id) ==> s'.sched.buffers[id].data == s.sched.buffers[id].data
    requires s'.sched.hasData == s.sched.hasData
    ensures StepsLeft(s') <= StepsLeft(s)
  {
    BytesGrow(s.sched.buffers, id, s'.sched.buffers, 0);
    assert |s.sched.buffers.Keys| == |s.sched.buffers| && |s'.sched.buffers.Keys| == |s'.sched.buffers|;
  }

  lemma ResumeUses(c: Connection, id: int, c': Connection)
    requires Base(c.sys) && id in c.apps && May(c, Transport(ResumeStep(id)))
    requires c' == Act(c, Transport(ResumeStep(id)))
    ensures Left(c') < Left(c)
  {
    ResumeFrame(c.sys, id, c'.sys);
    SameSteps(c.sys, id, c'.sys);
    DuesDrop(c, id, c', 1);
  }

  lemma OwnUses(c: Connection, step: Step, c': Connection)
    requires Base(c.sys) && Alive(c.sys) && IsOwn(step) && May(c, Transport(step))
    requires c' == Act(c, Transport(step))
    ensures Left(c') < Left(c) && Alive(c'.sys)
  {
    OwnStepUses(c.sys, step, c'.sys);
    assert Dues(c') == Dues(c);
  }

  lemma ActionUses(c: Connection, a: Action, c': Connection)
    requires Base(c.sys) && c.apps.Keys == c.sys.producers.Keys && Alive(c.sys)
    requires IsServers(a) && May(c, a) && c' == Act(c, a)
    ensures Left(c') < Left(c) && Alive(c'.sys)
  {
    match a
    case Perform(id) =>
      PerformUses(c, id, c');
      CarryFrame(c.sys, id, c.apps[id].todo[0], c'.sys);
    case Transport(step) =>
      if step.ResumeStep? {
        ResumeUses(c, step.id, c');
        ResumeFrame(c.sys, step.id, c'.sys);
      } else {
        OwnUses(c, step, c');
      }
  }

  /* The credit stays enough. */

  lemma OwedOthers(c: Connection, id: int, c': Connection)
    requires c'.sys.sched.buffers - {id} == c.sys.sched.buffers - {id} && c'.apps - {id} == c.apps - {id}
    ensures Owed(c') - {id} == Owed(c) - {id}
  {
    forall j | j != id
      ensures j in Owed(c') <==> j in Owed(c)
      ensures j in Owed(c) ==> Owed(c')[j] == Owed(c)[j]
    {
      SameElsewhere(c.sys.sched.buffers, c'.sys.sched.buffers, id, j);
      SameElsewhere(c.apps, c'.apps, id, j);
    }
  }

  lemma OwedStaysCovered(c: Connection, id: int, n: nat, c': Connection)
    requires CreditForAll(c) && id in c.sys.windows.streams
    requires c'.sys.sched.buffers - {id} == c.sys.sched.buffers - {id} && c'.apps - {id} == c.apps - {id}
    requires c'.sys.windows == if n == 0 then c.sys.windows else Spend(c.sys.windows, id, n)
    requires Live(c.sys, id) || n == 0
    requires Live(c.sys, id) ==> n <= |c.sys.sched.buffers[id].data|
    requires Live(c'.sys, id) ==>
      Live(c.sys, id) && |c'.sys.sched.buffers[id].data| + |ToCome(c', id)| + n
                         <= |c.sys.sched.buffers[id].data| + |ToCome(c, id)|
    ensures CreditForAll(c')
  {
    OwedOthers(c, id, c');
    if Live(c.sys, id) {
      StaysCovered(c.sys.windows, Owed(c), id, n, Owed(c'));
    } else {
      assert Owed(c) - {id} == Owed(c) && Owed(c') - {id} == Owed(c');
    }
  }

  lemma SendKeepsCredit(c: Connection, id: int, r: Sent, c': Connection)
    requires id in c.sys.sched.buffers && id in c.sys.windows.streams && CreditForAll(c)
    requires Outcome(c.sys.sched, c.sys.windows, id, r) && c'.apps == c.apps
    requires c'.sys.sched == r.sched && c'.sys.windows == r.windows
    ensures CreditForAll(c')
  {
    var n := SendSpends(c.sys.sched, c.sys.windows, id, r);
    assert r.sched.buffers.Keys <= c.sys.sched.buffers.Keys;
    OwedStaysCovered(c, id, n, c');
  }

  lemma OwnLeaves(s: System, step: Step, s': System, id: int)
    requires Base(s) && Enabled(s, step) && IsOwn(step) && !step.SendStep? && s' == Next(s, step)
    ensures s'.windows == s.windows && s'.sched.buffers == s.sched.buffers
    ensures EndedIn(s'.history, id) <==> EndedIn(s.history, id)
  {
  }

  lemma OwnKeepsCredit(c: Connection, step: Step, c': Connection)
    requires Base(c.sys) && IsOwn(step) && May(c, Transport(step)) && c' == Act(c, Transport(step))
    requires CreditForAll(c)
    ensures CreditForAll(c')
  {
    if step.SendStep? {
      SendOutcome(c.sys.sched, c.sys.windows, step.id, NoFault);
      SendKeepsCredit(c, step.id, SendData(c.sys.sched, c.sys.windows, step.id, NoFault), c');
    } else {
      OwnLeaves(c.sys, step, c'.sys, 0);
      assert Owed(c') == Owed(c);
    }
  }

  lemma BodiesDue(e: H.Event, rest: seq<H.Event>)
    ensures G.BodiesOf([e] + rest) == BodyOf(e) + G.BodiesOf(rest)
  {
    assert ([e] + rest)[1..] == rest;
  }

  lemma PerformKeepsCredit(c: Connection, id: int, c': Connection)
    requires Base(c.sys) && May(c, Perform(id)) && c' == Act(c, Perform(id)) && CreditForAll(c)
    ensures CreditForAll(c')
  {
    var e, rest := c.apps[id].todo[0], c.apps[id].todo[1..];
    PerformFrame(c, id, c');
    CarryFrame(c.sys, id, e, c'.sys);
    BodiesDue(e, rest);
    assert c.apps[id].todo == [e] + rest;
    OwedStaysCovered(c, id, 0, c');
  }

  lemma ResumeKeepsCredit(c: Connection, id: int, c': Connection)
    requires Base(c.sys) && May(c, Transport(ResumeStep(id))) && c' == Act(c, Transport(ResumeStep(id)))
    requires CreditForAll(c)
    ensures CreditForAll(c')
  {
    ResumeFrame(c.sys, id, c'.sys);
    OwedStaysCovered(c, id, 0, c');
  }

  lemma ActionKeepsCredit(c: Connection, a: Action, c': Connection)
    requires Base(c.sys) && IsServers(a) && May(c, a) && c' == Act(c, a) && CreditForAll(c)
    ensures CreditForAll(c')
  {
    match a
    case Perform(id) => PerformKeepsCredit(c, id, c');
    case Transport(step) =>
      if step.ResumeStep? {
        ResumeKeepsCredit(c, step.id, c');
      } else {
        OwnKeepsCredit(c, step, c');
      }
  }

  /* An answer under way stays under way. */

  /** On an open stream an ended buffer has its app waiting for the end. */
  lemma EndedAppsWait(s: System, id: int)
    requires Reachable(s) && Live(s, id)
    ensures id in s.producers && (s.sched.buffers[id].complete ==> s.producers[id] == AwaitFinished)
  {
    var steps :| Run(INITIAL, steps, s);
    var most := B.Longest(s.history);
    B.LongestIsLongest(s.history, most);
    B.RunFits(steps, s, most);
    assert B.Fits(s, id, most);
  }

  lemma SendKeepsAnswer(s: System, i: int, s': System, id: int)
    requires Base(s) && Enabled(s, SendStep(i, NoFault)) && s' == Next(s, SendStep(i, NoFault))
    ensures EndedIn(s.history, id) ==> EndedIn(s'.history, id)
    ensures Live(s, id) ==>
              || EndedIn(s'.history, id)
              || (Live(s', id) && s'.sched.buffers[id].complete == s.sched.buffers[id].complete)
  {
    var r := SendData(s.sched, s.windows, i, NoFault);
    SendOutcome(s.sched, s.windows, i, NoFault);
    NothingCloses(s.sched, s.windows, i);
    var data, end := SendIsStep(s, i, r);
    SentKeepsAnswer(s, s', i, data, end, id);
  }

  lemma SentKeepsAnswer(s: System, s': System, i: int, data: Bytes, end: Option<Frame>, id: int)
    requires SentStep(s, s', i, data, end, false)
    ensures EndedIn(s.history, id) ==> EndedIn(s'.history, id)
    ensures Live(s, id) ==>
              || EndedIn(s'.history, id)
              || (Live(s', id) && s'.sched.buffers[id].complete == s.sched.buffers[id].complete)
  {
    var h1 := if data == [] then s.history else Then(s.history, FrameSent(DataFrame(i, data)));
    assert EndedIn(h1, id) <==> EndedIn(s.history, id);
  }

  lemma TransportKeepsAnswer(c: Connection, step: Step, c': Connection, id: int)
    requires Base(c.sys) && id in c.apps && (IsOwn(step) || step.ResumeStep?) && May(c, Transport(step))
    requires c' == Act(c, Transport(step)) && Answering(c, id)
    ensures Answering(c', id)
  {
    if step.SendStep? {
      SendKeepsAnswer(c.sys, step.id, c'.sys, id);
    } else if step.ResumeStep? {
      ResumeFrame(c.sys, step.id, c'.sys);
      if id != step.id {
        SameElsewhere(c.sys.sched.buffers, c'.sys.sched.buffers, step.id, id);
      }
    } else {
      OwnLeaves(c.sys, step, c'.sys, id);
    }
  }

  /** Carrying out an event of an answer that is not ended yet. */
  lemma CarryKeepsAnswer(s: System, id: int, e: H.Event, s': System)
    requires Base(s) && id in s.producers && s.producers[id] == Idle && s' == Carry(s, id, e)
    ensures EndedIn(s.history, id) ==> EndedIn(s'.history, id)
    ensures Live(s, id) && IsEnding(e) ==> Live(s', id) && s'.sched.buffers[id].complete
    ensures Live(s, id) && !e.StreamClosed? ==> Live(s', id)
  {
  }

  lemma PerformKeepsAnswer(c: Connection, i: int, c': Connection, id: int)
    requires Reachable(c.sys) && Base(c.sys) && id in c.apps && May(c, Perform(i)) && c' == Act(c, Perform(i))
    requires Answering(c, id)
    ensures id in c'.apps && Answering(c', id)
  {
    var e := c.apps[i].todo[0];
    PerformFrame(c, i, c');
    if i == id {
      CarryKeepsAnswer(c.sys, id, e, c'.sys);
      if Live(c.sys, id) {
        EndedAppsWait(c.sys, id);
      }
    } else {
      CarryTouchesOne(c.sys, i, e, id);
      SameElsewhere(c.apps, c'.apps, i, id);
    }
  }

  /** All that the server needs to bring every answer to its end. */
  ghost predicate Provided(c: Connection) { AllJoined(c) && Alive(c.sys) && CreditForAll(c) }

  /** What the server's own actions keep of the apps. */
  ghost predicate Keeps(c: Connection, c': Connection)
  {
    && c'.apps.Keys == c.apps.Keys
    && (forall id :: id in c.apps ==> c'.apps[id].life == c.apps[id].life)
    && (forall id :: id in c.apps && Answering(c, id) ==> Answering(c', id))
  }

  lemma KeepsOn(c: Connection, mid: Connection, c': Connection)
    requires Keeps(c, mid) && Keeps(mid, c')
    ensures Keeps(c, c')
  {
  }

  lemma StepJoins(c: Connection, a: Action, c': Connection)
    requires AllJoined(c) && IsServers(a) && May(c, a) && c' == Act(c, a)
    ensures AllJoined(c')
  {
    match a
    case Perform(i) => PerformKeeps(c, i);
    case Transport(step) => TransportKeeps(c, step);
  }

  lemma StepKeepsLives(c: Connection, a: Action, c': Connection)
    requires IsServers(a) && Base(c.sys) && May(c, a) && c' == Act(c, a)
    ensures c'.apps.Keys == c.apps.Keys
    ensures forall id :: id in c.apps ==> c'.apps[id].life == c.apps[id].life
  {
  }

  lemma ServerStep(c: Connection, a: Action, c': Connection)
    requires Provided(c) && IsServers(a) && May(c, a) && c' == Act(c, a)
    ensures Provided(c') && Keeps(c, c') && Left(c') < Left(c)
  {
    ActionUses(c, a, c');
    ActionKeepsCredit(c, a, c');
    StepJoins(c, a, c');
    StepKeepsLives(c, a, c');
    forall id | id in c.apps && Answering(c, id)
      ensures Answering(c', id)
    {
      match a
      case Perform(i) => PerformKeepsAnswer(c, i, c', id);
      case Transport(step) => TransportKeepsAnswer(c, step, c', id);
    }
  }

  lemma ServerStepOn(c: Connection, mid: Connection, a: Action, c': Connection)
    requires Keeps(c, mid) && Provided(mid) && IsServers(a) && StepsTo(mid, a, c')
    ensures Provided(c') && Keeps(c, c') && Left(c') < Left(mid)
  {
    ServerStep(mid, a, c');
    KeepsOn(c, mid, c');
  }

  lemma {:induction false} ServerRun(c: Connection, actions: seq<Action>, c': Connection)
    requires Provided(c) && Goes(c, actions, c') && AllServers(actions)
    ensures Provided(c') && Keeps(c, c') && |actions| + Left(c') <= Left(c)
    decreases |actions|
  {
    if actions == [] {
    } else {
      var mid :| Goes(c, Front(actions), mid) && StepsTo(mid, Last(actions), c');
      ServerRun(c, Front(actions), mid);
      ServerStepOn(c, mid, Last(actions), c');
    }
  }

  lemma {:induction false} TotalAtMost(m: map<int, BufferView>, m': map<int, BufferView>)
    requires m'.Keys == m.Keys && forall id :: id in m ==> |m'[id].data| <= |m[id].data|
    ensures TotalBytes(m') <= TotalBytes(m)
    decreases m.Keys
  {
    if m.Keys == {} {
    } else {
      var id := AnyOf(m.Keys);
      TotalAtMost(m - {id}, m' - {id});
      TotalWithout(m', id);
    }
  }

  /** The credit covers what is buffered as well. */
  lemma BuffersAreCovered(c: Connection)
    requires CreditForAll(c)
    ensures EnoughCredit(c.sys)
  {
    var m := Owed(c);
    forall id | id in c.sys.sched.buffers
      ensures id in m && |c.sys.sched.buffers[id].data| <= |m[id].data|
    {
    }
    TotalAtMost(m, c.sys.sched.buffers);
  }

  lemma SchedulerIsStuck(c: Connection)
    requires ServerIsStuck(c)
    ensures Stuck(c.sys)
  {
    forall step | IsOwn(step)
      ensures !Enabled(c.sys, step)
    {
      assert IsServers(Transport(step)) && !May(c, Transport(step));
    }
  }

  /** Where the server is stuck the scheduler rests and nothing is due. */
  lemma NothingIsDue(c: Connection, id: int)
    requires c.apps.Keys == c.sys.producers.Keys && ServerIsStuck(c) && id in c.apps
    requires c.sys.producers[id] != Idle ==> Enabled(c.sys, ResumeStep(id))
    ensures c.apps[id].todo == []
  {
    assert !May(c, Transport(ResumeStep(id))) && !May(c, Perform(id));
  }

  lemma StuckAnswersAreEnded(c: Connection, id: int)
    requires Provided(c) && ServerIsStuck(c) && id in c.apps && Answering(c, id)
    ensures EndedIn(c.sys.history, id)
  {
    BuffersAreCovered(c);
    SchedulerIsStuck(c);
    RestedAppsGoOn(c.sys);
    NothingIsDue(c, id);
    if Live(c.sys, id) {
      RestedStreamsAreEmpty(c.sys, id);
    }
  }

  lemma ActedSnoc(before: seq<Action>, mid: Connection, actions: seq<Action>, c': Connection)
    requires actions != [] && Acted(before + Front(actions), mid)
    requires StepsTo(mid, Last(actions), c')
    ensures Acted(before + actions, c')
  {
    assert Front(before + actions) == before + Front(actions) && Last(before + actions) == Last(actions);
  }

  lemma {:induction false} ActsOn(before: seq<Action>, c: Connection, actions: seq<Action>, c': Connection)
    requires Acted(before, c) && Goes(c, actions, c')
    ensures Acted(before + actions, c')
    decreases |actions|
  {
    if actions == [] {
      assert before + actions == before;
    } else {
      var mid :| Goes(c, Front(actions), mid) && StepsTo(mid, Last(actions), c');
      ActsOn(before, c, Front(actions), mid);
      ActedSnoc(before, mid, actions, c');
    }
  }

  ghost predicate Reached(c: Connection) { exists actions :: Acted(actions, c) }

  /** What the server's own actions come to from a reached connection. */
  lemma ServerComesTo(before: seq<Action>, c: Connection, actions: seq<Action>, c': Connection)
    requires Acted(before, c) && Alive(c.sys) && CreditForAll(c)
    requires Goes(c, actions, c') && AllServers(actions)
    ensures Reached(c') && Provided(c') && Keeps(c, c') && |actions| <= Left(c)
  {
    RunsAreJoined(before, c);
    ServerRun(c, actions, c');
    ActsOn(before, c, actions, c');
  }

  /** The end of this answer is on the wire, and all of its body. */
  predicate Delivered(c: Connection, id: int, body: Bytes)
  {
    EndedIn(c.sys.history, id) && SentOn(c.sys.history, id) == body
  }

  lemma StuckAnswersAreWhole(c: Connection, id: int)
    requires Reached(c) && Provided(c) && ServerIsStuck(c) && id in c.apps && Answering(c, id)
    ensures Delivered(c, id, AppBody(c.apps[id].life))
  {
    var before :| Acted(before, c);
    StuckAnswersAreEnded(c, id);
    DataIsTheAppsBody(before, c, id);
  }

  /** From every reached connection with credit for all that is buffered or due:
      left to itself, in whatever order it does things, the server takes only so
      many actions, and where it has none left every answer that its app has
      ended, on a stream still open, is on the wire whole and ended there. */
  lemma AnswersAreDelivered(before: seq<Action>, c: Connection, actions: seq<Action>, c': Connection, id: int)
    requires Acted(before, c) && Alive(c.sys) && CreditForAll(c)
    requires Goes(c, actions, c') && AllServers(actions)
    requires id in c.apps && Answering(c, id)
    ensures |actions| <= Left(c)
    ensures ServerIsStuck(c') ==> Delivered(c', id, AppBody(c.apps[id].life))
  {
    ServerComesTo(before, c, actions, c');
    if ServerIsStuck(c') {
      StuckAnswersAreWhole(c', id);
    }
  }

  lemma ClosingEnds(h: H.Http, first: seq<H.Event>)
    requires first == [] || (|first| == 1 && !first[0].StreamClosed?)
    ensures EndComes(H.SendClosed(h, first).events)
  {
    var events := H.SendClosed(h, first).events;
    if first != [] {
      assert events[1..][0] == H.EndBody;
    }
  }

  /** A message that brings its response to an end leaves the end due. */
  lemma EndingMessages(h: H.Http, m: H.Message)
    requires h.scope.Some? && h.state != H.CLOSED && H.AppSend(h, m).next.state == H.CLOSED
    ensures EndComes(H.AppSend(h, m).events)
  {
    match m
    case BodyMessage(body, more) =>
      ClosingEnds(h, if H.Suppressed(h.scope.value.isHead, h.response.value.status) || body == []
                     then [] else [H.Body(body)]);
    case TrailersMessage(headers, more) =>
      if h.state == H.REQUEST {
        ClosingEnds(h, []);
        var begun := h.(response := Some(H.Start(200, false)), state := H.TRAILERS);
        ClosingEnds(begun, [H.Response(200, H.Built(headers))]);
      } else {
        var all := if H.TakesTrailers(h.scope.value.headers) then h.trailerHeaders + H.Built(headers)
                   else h.trailerHeaders;
        ClosingEnds(h.(trailerHeaders := all), if all == [] then [] else [H.Trailers(all)]);
      }
    case Finished =>
      var events := H.ErrorResponse(500) + [H.StreamClosed];
      assert events[1..][0] == H.EndBody;
    case _ =>
  }

  lemma EndedAnswersAreUnderWay(c: Connection, id: int, m: H.Message, c': Connection)
    requires Base(c.sys) && May(c, Message(id, m)) && c' == Act(c, Message(id, m)) && Live(c.sys, id)
    requires c.apps[id].life.http.state != H.CLOSED && c'.apps[id].life.http.state == H.CLOSED
    ensures Answering(c', id)
  {
    EndingMessages(c.apps[id].life.http, m);
  }
}
