/** The table that routes datagrams to QUIC connections by connection id. */
module QuicTables {
  import opened Common

  type Cid = Bytes

  /** `routes` is the dictionary; `owned` holds each connection's own set of
      ids; `gone` are the connections whose termination was handled. */
  datatype Table<!C> = Table(routes: map<Cid, C>, owned: map<C, set<Cid>>, gone: set<C>)

  datatype Event = Terminated | Negotiated | Issued(cid: Cid) | Retired(cid: Cid) | Other

  /** Both views of ownership agree, and a terminated connection owns nothing. */
  ghost predicate Consistent<C>(t: Table<C>)
  {
    && (forall cid :: cid in t.routes ==> t.routes[cid] in t.owned && cid in t.owned[t.routes[cid]])
    && (forall c, cid :: c in t.owned && cid in t.owned[c] ==> cid in t.routes && t.routes[cid] == c)
    && (forall c :: c in t.gone ==> c in t.owned && t.owned[c] == {})
  }

  /** A new connection for the ids of its first datagram and of the server. */
  function Opened<C>(t: Table<C>, c: C, destination: Cid, host: Cid): Table<C>
  {
    t.(routes := t.routes[destination := c][host := c], owned := t.owned[c := {destination, host}])
  }

  /** One event of a connection; None stands for a KeyError. */
  function Handled<C>(t: Table<C>, c: C, e: Event): Option<Table<C>>
    requires c in t.owned
  {
    match e
    case Terminated =>
      if t.owned[c] <= t.routes.Keys then
        Some(t.(routes := t.routes - t.owned[c], owned := t.owned[c := {}], gone := t.gone + {c}))
      else None
    case Issued(cid) =>
      Some(t.(routes := t.routes[cid := c], owned := t.owned[c := t.owned[c] + {cid}]))
    case Retired(cid) =>
      if cid in t.owned[c] && cid in t.routes then
        Some(t.(routes := t.routes - {cid}, owned := t.owned[c := t.owned[c] - {cid}]))
      else None
    case _ => Some(t)
  }

  /** What the QUIC library has to see to: an id it issues belongs to no other
      connection and to none that is gone, and it retires only ids it issued. */
  predicate Fresh<C>(t: Table<C>, c: C, e: Event)
    requires c in t.owned
  {
    match e
    case Issued(cid) => c !in t.gone && (cid !in t.routes || t.routes[cid] == c)
    case Retired(cid) => cid in t.owned[c]
    case _ => true
  }

  /** Opening keeps the table consistent exactly when the server's id is new. */
  lemma OpenKeepsIff<C>(t: Table<C>, c: C, destination: Cid, host: Cid)
    requires Consistent(t) && c !in t.owned && destination !in t.routes
    ensures Consistent(Opened(t, c, destination, host)) <==> host !in t.routes
  {
    var t' := Opened(t, c, destination, host);
    if host in t.routes {
      var a := t.routes[host];
      assert a in t'.owned && host in t'.owned[a] && t'.routes[host] != a;
    } else {
      forall a, cid | a in t'.owned && cid in t'.owned[a] ensures cid in t'.routes && t'.routes[cid] == a {
        assert a != c ==> cid in t.owned[a];
      }
    }
  }

  lemma TerminateKeeps<C>(t: Table<C>, c: C)
    requires Consistent(t) && c in t.owned
    ensures Handled(t, c, Terminated).Some? && Consistent(Handled(t, c, Terminated).value)
  {
    var t' := Handled(t, c, Terminated).value;
    forall a, cid | a in t'.owned && cid in t'.owned[a] ensures cid in t'.routes && t'.routes[cid] == a {
      assert cid in t.owned[a];
    }
  }

  lemma IssueKeepsIff<C>(t: Table<C>, c: C, cid: Cid)
    requires Consistent(t) && c in t.owned
    ensures Consistent(Handled(t, c, Issued(cid)).value) <==> Fresh(t, c, Issued(cid))
  {
    var t' := Handled(t, c, Issued(cid)).value;
    assert c in t'.owned && cid in t'.owned[c];
    if cid in t.routes && t.routes[cid] != c {
      var a := t.routes[cid];
      assert a in t'.owned && cid in t'.owned[a] && t'.routes[cid] != a;
    } else {
      forall a, d | a in t'.owned && d in t'.owned[a] ensures d in t'.routes && t'.routes[d] == a {
        assert d == cid || d in t.owned[a];
      }
    }
  }

  lemma RetireKeepsIff<C>(t: Table<C>, c: C, cid: Cid)
    requires Consistent(t) && c in t.owned
    ensures Handled(t, c, Retired(cid)).Some? <==> Fresh(t, c, Retired(cid))
    ensures Fresh(t, c, Retired(cid)) ==> Consistent(Handled(t, c, Retired(cid)).value)
  {
    if cid in t.owned[c] {
      var t' := Handled(t, c, Retired(cid)).value;
      forall a, d | a in t'.owned && d in t'.owned[a] ensures d in t'.routes && t'.routes[d] == a {
        assert d in t.owned[a];
      }
    }
  }

  /** An event is handled and leaves the table consistent if and only if the
      library keeps its side. */
  lemma EventKeepsIff<C>(t: Table<C>, c: C, e: Event)
    requires Consistent(t) && c in t.owned
    ensures var r := Handled(t, c, e); r.Some? && Consistent(r.value) <==> Fresh(t, c, e)
  {
    match e
    case Terminated => TerminateKeeps(t, c);
    case Issued(cid) => IssueKeepsIff(t, c, cid);
    case Retired(cid) => RetireKeepsIff(t, c, cid);
    case _ =>
  }

  /** The connection a datagram with this id goes to. */
  function Route<C>(t: Table<C>, cid: Cid): Option<C>
  {
    if cid in t.routes then Some(t.routes[cid]) else None
  }

  lemma OwnerIsRouted<C>(t: Table<C>, c: C)
    requires Consistent(t) && c in t.owned && t.owned[c] != {}
    ensures t.routes != map[]
  {
    var d := AnyOf(t.owned[c]);
    assert d in t.routes;
  }

  lemma EmptyIffNoneOwns<C>(t: Table<C>)
    requires Consistent(t)
    ensures t.routes == map[] <==> forall a :: a in t.owned ==> t.owned[a] == {}
  {
    if t.routes != map[] {
      var d := AnyOf(t.routes.Keys);
      assert t.routes[d] in t.owned && d in t.owned[t.routes[d]];
    } else {
      forall a | a in t.owned ensures t.owned[a] == {} {
        if t.owned[a] != {} {
          OwnerIsRouted(t, a);
        }
      }
    }
  }

  /** In a consistent table a datagram reaches exactly the one connection that
      owns its id, never one that is gone, and the table is empty exactly when
      nobody owns an id. */
  lemma RoutesToTheOwner<C>(t: Table<C>, cid: Cid, c: C, other: C)
    requires Consistent(t)
    ensures Route(t, cid) == Some(c) <==> c in t.owned && cid in t.owned[c]
    ensures Route(t, cid) == Some(c) ==> c !in t.gone
    ensures c in t.owned && other in t.owned && cid in t.owned[c] && cid in t.owned[other] ==> c == other
    ensures t.routes == map[] <==> forall a :: a in t.owned ==> t.owned[a] == {}
  {
    EmptyIffNoneOwns(t);
  }

  /** The events of a connection one after the other; None from the first
      KeyError on. */
  function HandledAll<C>(t: Table<C>, c: C, events: seq<Event>): Option<Table<C>>
    requires c in t.owned
    decreases |events|
  {
    if events == [] then Some(t)
    else match Handled(t, c, events[0])
      case None => None
      case Some(t') => HandledAll(t', c, events[1..])
  }

  predicate AllFresh<C>(t: Table<C>, c: C, events: seq<Event>)
    requires c in t.owned
    decreases |events|
  {
    events == []
    || (Fresh(t, c, events[0])
        && match Handled(t, c, events[0])
           case None => false
           case Some(t') => AllFresh(t', c, events[1..]))
  }

  /** Every event is handled, and the table is consistent after each. */
  ghost predicate AllConsistent<C>(t: Table<C>, c: C, events: seq<Event>)
    requires c in t.owned
    decreases |events|
  {
    Consistent(t)
    && (events == []
        || match Handled(t, c, events[0])
           case None => false
           case Some(t') => AllConsistent(t', c, events[1..]))
  }

  lemma {:induction false} EventsKeepIff<C>(t: Table<C>, c: C, events: seq<Event>)
    requires Consistent(t) && c in t.owned
    ensures AllConsistent(t, c, events) <==> AllFresh(t, c, events)
    ensures AllFresh(t, c, events) ==> HandledAll(t, c, events).Some?
    decreases |events|
  {
    if events == [] {
    } else {
      EventKeepsIff(t, c, events[0]);
      if Fresh(t, c, events[0]) {
        EventsKeepIff(Handled(t, c, events[0]).value, c, events[1..]);
      }
    }
  }

  /** Whose an id is after one event, by the events alone. */
  function OwnerNext<C(==)>(owner: Option<C>, c: C, e: Event, cid: Cid): Option<C>
  {
    match e
    case Terminated => if owner == Some(c) then None else owner
    case Issued(d) => if d == cid then Some(c) else owner
    case Retired(d) => if d == cid then None else owner
    case _ => owner
  }

  function OwnerThrough<C(==)>(owner: Option<C>, c: C, events: seq<Event>, cid: Cid): Option<C>
    decreases |events|
  {
    if events == [] then owner else OwnerThrough(OwnerNext(owner, c, events[0], cid), c, events[1..], cid)
  }

  lemma EventMovesOwner<C>(t: Table<C>, c: C, e: Event, cid: Cid)
    requires Consistent(t) && c in t.owned && Handled(t, c, e).Some?
    ensures Route(Handled(t, c, e).value, cid) == OwnerNext(Route(t, cid), c, e, cid)
  {
  }

  /** After a run of the loop every id leads to whom the events gave it. */
  lemma {:induction false} EventsMoveOwner<C>(t: Table<C>, c: C, events: seq<Event>, cid: Cid)
    requires Consistent(t) && c in t.owned && AllFresh(t, c, events)
    ensures HandledAll(t, c, events).Some? && Consistent(HandledAll(t, c, events).value)
    ensures Route(HandledAll(t, c, events).value, cid) == OwnerThrough(Route(t, cid), c, events, cid)
    ensures c in HandledAll(t, c, events).value.owned
    decreases |events|
  {
    if events == [] {
    } else {
      EventKeepsIff(t, c, events[0]);
      EventMovesOwner(t, c, events[0], cid);
      EventsMoveOwner(Handled(t, c, events[0]).value, c, events[1..], cid);
    }
  }

  lemma OwnersMove<C>(t: Table<C>, c: C, events: seq<Event>)
    requires Consistent(t) && c in t.owned && AllFresh(t, c, events)
    ensures HandledAll(t, c, events).Some?
    ensures forall cid ::
              Route(HandledAll(t, c, events).value, cid) == OwnerThrough(Route(t, cid), c, events, cid)
  {
    EventsKeepIff(t, c, events);
    forall cid
      ensures Route(HandledAll(t, c, events).value, cid) == OwnerThrough(Route(t, cid), c, events, cid)
    {
      EventsMoveOwner(t, c, events, cid);
    }
  }

  /** A connection that owns nothing and is gone stays so. */
  lemma {:induction false} GoneOwnsNothing<C>(t: Table<C>, c: C, events: seq<Event>)
    requires Consistent(t) && c in t.owned && AllFresh(t, c, events)
    requires c in t.gone || Terminated in events
    ensures HandledAll(t, c, events).Some? && c in HandledAll(t, c, events).value.gone
    ensures Consistent(HandledAll(t, c, events).value)
    decreases |events|
  {
    if events == [] {
    } else {
      EventKeepsIff(t, c, events[0]);
      GoneOwnsNothing(Handled(t, c, events[0]).value, c, events[1..]);
    }
  }

  lemma TerminatedOwnsNothing<C>(t: Table<C>, c: C, events: seq<Event>)
    requires Consistent(t) && c in t.owned && AllFresh(t, c, events)
    ensures HandledAll(t, c, events).Some?
    ensures Terminated in events ==>
              var t' := HandledAll(t, c, events).value;
              c in t'.owned && t'.owned[c] == {} && forall cid :: cid in t'.routes ==> t'.routes[cid] != c
  {
    EventsMoveOwner(t, c, events, []);
    if Terminated in events {
      GoneOwnsNothing(t, c, events);
    }
  }

  datatype Datagram =
    | Malformed
    | UnknownVersion
    | Packet(destination: Cid, initial: bool, long: bool)

  class Connection {
    var cids: set<Cid>
    var hasH3: bool
    /** The events its HTTP/3 protocol was given. */
    var passed: seq<Event>
    ghost var terminated: bool

    constructor (cids: set<Cid>)
      ensures this.cids == cids && !terminated && !hasH3 && passed == []
    {
      this.cids, hasH3, passed, terminated := cids, false, [], false;
    }
  }

  /** The events its HTTP/3 protocol gets of these: all of them once there is
      one, and otherwise those from the negotiation on. */
  function PassedOn(hasH3: bool, events: seq<Event>): seq<Event>
  {
    if events == [] || hasH3 || events[0] == Negotiated then events else PassedOn(false, events[1..])
  }

  lemma PassedOnFirst(hasH3: bool, events: seq<Event>, before: seq<Event>)
    requires events != []
    ensures var has := hasH3 || events[0] == Negotiated;
            before + PassedOn(hasH3, events)
            == before + (if has then [events[0]] else []) + PassedOn(has, events[1..])
    ensures events == [events[0]] + events[1..]
  {
    if hasH3 || events[0] == Negotiated {
      AppendAssoc(before, [events[0]], events[1..]);
    }
  }

  datatype Outcome = Dropped | Negotiates | Receives(connection: Connection)

  class QuicProtocol {
    var connections: map<Cid, Connection>
    /** Every connection there has been. */
    ghost var known: set<Connection>

    ghost function View(): Table<Connection>
      reads this, known`cids, known`terminated
    {
      Table(connections, map c | c in known :: c.cids, set c | c in known && c.terminated)
    }

    constructor ()
      ensures View() == Table(map[], map[], {})
    {
      connections, known := map[], {};
    }

    method Idle() returns (idle: bool)
      requires Consistent(View())
      ensures idle <==> forall c :: c in known ==> c.cids == {}
    {
      EmptyIffNoneOwns(View());
      assert forall c :: c in known ==> View().owned[c] == c.cids;
      return connections == map[];
    }

    /** The part of `handle` before the datagram is passed on; `host` is the id
        the library picks for a new connection. */
    method Receive(datagram: Datagram, closing: bool, host: Cid) returns (r: Outcome)
      requires Consistent(View())
      modifies this
      ensures datagram.Malformed? ==> r == Dropped
      ensures datagram.UnknownVersion? ==> r == Negotiates
      ensures datagram.Packet? && datagram.destination in old(connections) ==>
                r == Receives(old(connections)[datagram.destination])
      ensures datagram.Packet? && datagram.destination !in old(connections) ==>
                if datagram.initial && datagram.long && !closing then
                  && r.Receives? && r.connection !in old(known) && r.connection.cids == {datagram.destination, host}
                  && connections == old(connections)[datagram.destination := r.connection][host := r.connection]
                  && View() == Opened(old(View()), r.connection, datagram.destination, host)
                else r == Dropped
      ensures !r.Receives? || r.connection in old(known) ==> connections == old(connections) && View() == old(View())
      ensures r.Receives? ==> r.connection in known && old(known) <= known
    {
      if datagram.Malformed? {
        return Dropped;
      }
      if datagram.UnknownVersion? {
        return Negotiates;
      }
      if datagram.destination in connections {
        return Receives(connections[datagram.destination]);
      }
      if !datagram.long || !datagram.initial || closing {
        return Dropped;
      }
      ghost var t := View();
      var c := new Connection({datagram.destination, host});
      connections := connections[datagram.destination := c][host := c];
      known := known + {c};
      assert View() == Opened(t, c, datagram.destination, host);
      return Receives(c);
    }

    /** Deletes ids one by one, in any order; false stands for a KeyError. */
    method DeleteAll(cids: set<Cid>) returns (ok: bool)
      modifies this`connections
      ensures ok <==> cids <= old(connections).Keys
      ensures ok ==> connections == old(connections) - cids
    {
      var rest := cids;
      while rest != {}
        invariant rest <= cids && cids - rest <= old(connections).Keys
        invariant connections == old(connections) - (cids - rest)
        decreases rest
      {
        var cid := Choose(rest);
        if cid !in connections {
          return false;
        }
        connections := connections - {cid};
        rest := rest - {cid};
      }
      return true;
    }

    method Terminate(c: Connection) returns (ok: bool)
      requires c in known
      modifies this`connections, c`cids, c`terminated
      ensures ok <==> Handled(old(View()), c, Terminated).Some?
      ensures ok ==> Some(View()) == Handled(old(View()), c, Terminated)
      ensures ok ==> c.cids == {} && connections == old(connections) - old(c.cids)
    {
      ghost var t := View();
      assert t.owned[c] == c.cids;
      ok := DeleteAll(c.cids);
      if ok {
        c.cids := {};
        c.terminated := true;
        ghost var t' := Handled(t, c, Terminated).value;
        assert View().routes == t'.routes && View().owned == t'.owned && View().gone == t'.gone;
      }
    }

    method Issue(c: Connection, cid: Cid)
      requires c in known
      modifies this`connections, c`cids
      ensures Some(View()) == Handled(old(View()), c, Issued(cid))
      ensures c.cids == old(c.cids) + {cid} && connections == old(connections)[cid := c]
    {
      ghost var t := View();
      assert t.owned[c] == c.cids;
      c.cids := c.cids + {cid};
      connections := connections[cid := c];
      assert View() == Handled(t, c, Issued(cid)).value;
    }

    /** Either of the two removals may raise a KeyError. */
    method Retire(c: Connection, cid: Cid) returns (ok: bool)
      requires c in known
      modifies this`connections, c`cids
      ensures ok <==> Handled(old(View()), c, Retired(cid)).Some?
      ensures ok ==> Some(View()) == Handled(old(View()), c, Retired(cid))
      ensures ok ==> c.cids == old(c.cids) - {cid} && connections == old(connections) - {cid}
    {
      ghost var t := View();
      assert t.owned[c] == c.cids;
      if cid !in c.cids {
        return false;
      }
      c.cids := c.cids - {cid};
      if cid !in connections {
        return false;
      }
      connections := connections - {cid};
      assert View() == Handled(t, c, Retired(cid)).value;
      return true;
    }

    /** One turn of the loop of `_handle_events`. */
    method HandleEvent(c: Connection, e: Event) returns (ok: bool)
      requires c in known
      modifies this`connections, c
      ensures ok <==> Handled(old(View()), c, e).Some?
      ensures ok ==> Some(View()) == Handled(old(View()), c, e)
      ensures ok ==> (c.hasH3 <==> old(c.hasH3) || e == Negotiated)
      ensures ok ==> c.passed == old(c.passed) + if c.hasH3 then [e] else []
    {
      ok := true;
      match e {
        case Terminated =>
          ok := Terminate(c);
        case Negotiated =>
          c.hasH3 := true;
        case Issued(cid) =>
          Issue(c, cid);
        case Retired(cid) =>
          ok := Retire(c, cid);
        case Other =>
      }
      if ok && c.hasH3 {
        c.passed := c.passed + [e];
      }
    }

    /** The loop of `_handle_events`; false where a KeyError leaves it. */
    method HandleEach(c: Connection, events: seq<Event>) returns (ok: bool)
      requires c in known
      modifies this`connections, c
      ensures ok <==> HandledAll(old(View()), c, events).Some?
      ensures ok ==> Some(View()) == HandledAll(old(View()), c, events)
      ensures ok ==> (c.hasH3 <==> old(c.hasH3) || Negotiated in events)
      ensures ok ==> c.passed == old(c.passed) + PassedOn(old(c.hasH3), events)
    {
      var left := events;
      while left != []
        invariant HandledAll(View(), c, left) == HandledAll(old(View()), c, events)
        invariant c.hasH3 || Negotiated in left <==> old(c.hasH3) || Negotiated in events
        invariant c.passed + PassedOn(c.hasH3, left) == old(c.passed) + PassedOn(old(c.hasH3), events)
        decreases |left|
      {
        PassedOnFirst(c.hasH3, left, c.passed);
        ok := HandleEvent(c, left[0]);
        if !ok {
          return;
        }
        left := left[1..];
      }
      ok := true;
    }

    /** `_handle_events`. */
    method HandleEvents(c: Connection, events: seq<Event>) returns (ok: bool)
      requires c in known
      modifies this`connections, c
      ensures ok <==> HandledAll(old(View()), c, events).Some?
      ensures ok ==> Some(View()) == HandledAll(old(View()), c, events)
      ensures ok && Consistent(old(View())) && AllFresh(old(View()), c, events) && Terminated in events ==>
                c.cids == {} && forall cid :: cid in connections ==> connections[cid] != c
      ensures ok && Consistent(old(View())) && AllFresh(old(View()), c, events) ==>
                forall cid :: Route(View(), cid) == OwnerThrough(Route(old(View()), cid), c, events, cid)
      ensures ok ==> (c.hasH3 <==> old(c.hasH3) || Negotiated in events)
      ensures ok ==> c.passed == old(c.passed) + PassedOn(old(c.hasH3), events)
    {
      ghost var t := View();
      ok := HandleEach(c, events);
      if ok && Consistent(t) && AllFresh(t, c, events) {
        TerminatedOwnsNothing(t, c, events);
        OwnersMove(t, c, events);
        assert View().owned[c] == c.cids;
      }
    }
  }

  /** What can happen to the table, in any order. */
  datatype Step = OpenStep(c: nat, destination: Cid, host: Cid) | EventStep(c: nat, e: Event)

  predicate May(t: Table<nat>, step: Step)
  {
    match step
    case OpenStep(c, destination, _) => c !in t.owned && destination !in t.routes
    case EventStep(c, _) => c in t.owned
  }

  /** None stands for a KeyError. */
  function Next(t: Table<nat>, step: Step): Option<Table<nat>>
    requires May(t, step)
  {
    match step
    case OpenStep(c, destination, host) => Some(Opened(t, c, destination, host))
    case EventStep(c, e) => Handled(t, c, e)
  }

  /** The library's side of a step. */
  predicate Kept(t: Table<nat>, step: Step)
    requires May(t, step)
  {
    match step
    case OpenStep(_, _, host) => host !in t.routes
    case EventStep(c, e) => Fresh(t, c, e)
  }

  ghost predicate Run(steps: seq<Step>, t: Table<nat>)
    decreases |steps|
  {
    if steps == [] then t == Table(map[], map[], {})
    else exists mid :: Run(Front(steps), mid) && May(mid, Last(steps))
                       && Kept(mid, Last(steps)) && Next(mid, Last(steps)) == Some(t)
  }

  lemma StepKeepsIff(t: Table<nat>, step: Step)
    requires Consistent(t) && May(t, step)
    ensures (Next(t, step).Some? && Consistent(Next(t, step).value)) <==> Kept(t, step)
  {
    match step
    case OpenStep(c, destination, host) => OpenKeepsIff(t, c, destination, host);
    case EventStep(c, e) => EventKeepsIff(t, c, e);
  }

  /** As long as the library keeps its side, the table is consistent after
      every datagram, timer and event. */
  lemma {:induction false} TableStaysConsistent(steps: seq<Step>, t: Table<nat>)
    requires Run(steps, t)
    ensures Consistent(t)
    decreases |steps|
  {
    if steps == [] {
    } else {
      var mid :| Run(Front(steps), mid) && May(mid, Last(steps))
                 && Kept(mid, Last(steps)) && Next(mid, Last(steps)) == Some(t);
      TableStaysConsistent(Front(steps), mid);
      StepKeepsIff(mid, Last(steps));
    }
  }

  /** And the first step at which it does not, raises or breaks the table. */
  lemma BreachBreaksTheTable(steps: seq<Step>, t: Table<nat>, step: Step)
    requires Run(steps, t) && May(t, step)
    ensures !(Next(t, step).Some? && Consistent(Next(t, step).value)) <==> !Kept(t, step)
  {
    TableStaysConsistent(steps, t);
    StepKeepsIff(t, step);
  }

  /** Whose an id is after these steps, by the steps alone. */
  function OwnerAfter(steps: seq<Step>, cid: Cid): Option<nat>
  {
    if steps == [] then None
    else
      match Last(steps)
      case OpenStep(c, destination, host) =>
        if cid == destination || cid == host then Some(c) else OwnerAfter(Front(steps), cid)
      case EventStep(c, e) => OwnerNext(OwnerAfter(Front(steps), cid), c, e, cid)
  }

  /** Over every run a datagram goes to the connection that was opened with its
      id or issued it last, unless that one retired it or was terminated since;
      and a connection's own set has exactly the ids that lead to it. */
  lemma {:induction false} RoutesFollowTheSteps(steps: seq<Step>, t: Table<nat>, cid: Cid)
    requires Run(steps, t)
    ensures Consistent(t) && Route(t, cid) == OwnerAfter(steps, cid)
    ensures forall c :: c in t.owned ==> (cid in t.owned[c] <==> OwnerAfter(steps, cid) == Some(c))
    decreases |steps|
  {
    TableStaysConsistent(steps, t);
    if steps == [] {
    } else {
      var mid :| Run(Front(steps), mid) && May(mid, Last(steps))
                 && Kept(mid, Last(steps)) && Next(mid, Last(steps)) == Some(t);
      RoutesFollowTheSteps(Front(steps), mid, cid);
      if Last(steps).EventStep? {
        EventMovesOwner(mid, Last(steps).c, Last(steps).e, cid);
      }
    }
  }

  lemma {:induction false} TerminatedIsGone(steps: seq<Step>, t: Table<nat>, c: nat)
    requires Run(steps, t) && EventStep(c, Terminated) in steps
    ensures Consistent(t) && c in t.gone
    decreases |steps|
  {
    TableStaysConsistent(steps, t);
    var mid :| Run(Front(steps), mid) && May(mid, Last(steps))
               && Kept(mid, Last(steps)) && Next(mid, Last(steps)) == Some(t);
    if Last(steps) == EventStep(c, Terminated) {
    } else {
      assert steps == Front(steps) + [Last(steps)];
      TerminatedIsGone(Front(steps), mid, c);
    }
  }

  /** Over every run: once a connection was terminated it owns no id and no
      datagram goes to it. */
  lemma TerminatedOwnsNone(steps: seq<Step>, t: Table<nat>, c: nat)
    requires Run(steps, t) && EventStep(c, Terminated) in steps
    ensures c in t.owned && t.owned[c] == {}
    ensures forall cid :: Route(t, cid) != Some(c)
  {
    TerminatedIsGone(steps, t, c);
  }

  /** And an id just retired is owned by nobody and leads nowhere. */
  lemma RetiredIsForgotten(steps: seq<Step>, t: Table<nat>, c: nat, cid: Cid)
    requires steps != [] && Run(steps, t) && Last(steps) == EventStep(c, Retired(cid))
    ensures Route(t, cid) == None && forall a :: a in t.owned ==> cid !in t.owned[a]
  {
    RoutesFollowTheSteps(steps, t, cid);
  }
}
