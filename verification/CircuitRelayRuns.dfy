/** Whole runs of the relay. */
module CircuitRelayRuns {
  import opened Common
  import opened Paths
  import opened Tallies
  import opened CircuitRelays
  import opened CircuitRelayInvariants

  datatype Event =
    | Packeted(source: Peer, packet: Packet, now: nat, admission: Option<Admission>, drawn: Id)
    | Acknowledged(generation: nat, sequence: nat, delivered: bool)
    | Disconnected(peer: Peer, pendings: seq<Id>, circuits: seq<Id>)
    | ReservationGone(reservation: Id, pendings: seq<Id>, circuits: seq<Id>)
    | TimePasses(now: nat, pendings: seq<Id>, circuits: seq<Id>)
    | PolicyChanged(expected: nat, enabled: bool, pendings: seq<Id>, circuits: seq<Id>)

  function Do(m: Relay, e: Event): Done {
    match e
    case Packeted(source, packet, now, admission, drawn) => Handle(m, source, packet, now, admission, drawn)
    case Acknowledged(generation, sequence, delivered) => Acknowledge(m, generation, sequence, delivered)
    case Disconnected(peer, pendings, circuits) => Disconnect(m, peer, pendings, circuits)
    case ReservationGone(reservation, pendings, circuits) => RevokeReservation(m, reservation, pendings, circuits)
    case TimePasses(now, pendings, circuits) => Expire(m, now, pendings, circuits)
    case PolicyChanged(expected, enabled, pendings, circuits) => ReplaceEnabled(m, expected, enabled, pendings, circuits)
  }

  /** Drawn identifiers are drawn, listings are listings of the right work, and a sequence number is left. */
  ghost predicate Possible(m: Relay, e: Event, tickets: Tickets) {
    match e
    case Packeted(source, packet, now, admission, drawn) => Sane(m, packet, admission, drawn, tickets) && m.next < U64_MAX
    case Acknowledged(generation, sequence, delivered) => true
    case Disconnected(peer, pendings, circuits) => Lists(pendings, PendingWith(m.pending, peer)) && Lists(circuits, CircuitsWith(m.circuits, peer))
    case ReservationGone(reservation, pendings, circuits) =>
      Lists(pendings, PendingOn(m.pending, reservation)) && Lists(circuits, CircuitsOn(m.circuits, reservation))
    case TimePasses(now, pendings, circuits) => Lists(pendings, ExpiredPending(m, now)) && Lists(circuits, ExpiredCircuits(m, now))
    case PolicyChanged(expected, enabled, pendings, circuits) => Lists(pendings, m.pending.Keys) && Lists(circuits, m.circuits.Keys)
  }

  lemma DoKeeps(m: Relay, e: Event, tickets: Tickets)
    requires Inv(m, tickets) && Possible(m, e, tickets)
    ensures Inv(Do(m, e).relay, tickets)
  {
    hide InvExcept, Handle, Acknowledge, Disconnect, RevokeReservation, Expire, ReplaceEnabled;
    match e
    case Packeted(source, packet, now, admission, drawn) => HandleKeeps(m, source, packet, now, admission, drawn, tickets);
    case Acknowledged(generation, sequence, delivered) => AcknowledgeKeeps(m, generation, sequence, delivered, tickets);
    case Disconnected(peer, pendings, circuits) => DisconnectKeeps(m, peer, pendings, circuits, tickets);
    case ReservationGone(reservation, pendings, circuits) => RevokeReservationKeeps(m, reservation, pendings, circuits, tickets);
    case TimePasses(now, pendings, circuits) => ExpireKeeps(m, now, pendings, circuits, tickets);
    case PolicyChanged(expected, enabled, pendings, circuits) => ReplaceEnabledKeeps(m, expected, enabled, pendings, circuits, tickets);
  }

  // ---- action identifiers ----

  /** New actions take sequence numbers not handed out before, in this generation or a later one. */
  ghost predicate Advances(m: Relay, n: Relay) {
    || m.generation < n.generation
    || (&& m.generation == n.generation && m.next <= n.next
        && forall a :: a in n.inflight ==> m.next <= a || (a in m.inflight && m.inflight[a] == n.inflight[a]))
  }

  lemma AdvancesTransitive(m: Relay, n: Relay, o: Relay)
    requires Advances(m, n) && Advances(n, o)
    ensures Advances(m, o)
  {
  }

  lemma QueueAdvances(m: Relay, cid: Id, r: Route, kind: Kind)
    ensures Advances(m, Queue(m, cid, r, kind).relay)
  {
  }

  /** Queueing after some actions have been dropped. */
  lemma DropQueueAdvances(m: Relay, n: Relay, cid: Id, r: Route, kind: Kind)
    requires Advances(m, n)
    ensures Advances(m, Queue(n, cid, r, kind).relay)
  {
    hide Queue;
    QueueAdvances(n, cid, r, kind);
    AdvancesTransitive(m, n, Queue(n, cid, r, kind).relay);
  }

  lemma {:induction false} ClosesAdvance(m: Relay, n: Relay, cid: Id, routes: seq<Route>)
    requires Advances(m, n)
    ensures Advances(m, QueueCloses(n, cid, routes).relay)
    decreases |routes|
  {
    hide Queue, Advances;
    if routes != [] {
      DropQueueAdvances(m, n, cid, routes[0], IsClose);
      ClosesAdvance(m, Queue(n, cid, routes[0], IsClose).relay, cid, routes[1..]);
    }
  }

  lemma RevokeOneAdvances(m: Relay, cid: Id, why: Reason)
    ensures Advances(m, RevokeCircuit(m, cid).relay)
    ensures Advances(m, if why.Abandon? then AbandonPending(m, cid, why.peer).relay else RevokePending(m, cid).relay)
  {
    hide QueueCloses;
    assert Advances(m, Removed(m, cid));
    if cid in m.circuits {
      var c := m.circuits[cid];
      ClosesAdvance(m, Removed(m, cid), cid, [Route(c.requester, Close(cid)), Route(c.endpoint, Close(cid))]);
    }
    if cid in m.pending {
      var p := m.pending[cid];
      ClosesAdvance(m, Removed(m, cid), cid, [Route(p.requester, Close(p.context)), Route(p.endpoint, Close(cid))]);
      if why.Abandon? {
        ClosesAdvance(m, Removed(m, cid), cid, [if p.requester == why.peer then Route(p.endpoint, Close(cid)) else Route(p.requester, Close(p.context))]);
      }
    }
  }

  lemma {:induction false} RevokeEachAdvances(m: Relay, n: Relay, pendings: seq<Id>, circuits: seq<Id>, why: Reason)
    requires Advances(m, n)
    ensures Advances(m, RevokeEach(n, pendings, circuits, why).relay)
    decreases |pendings| + |circuits|
  {
    hide Advances, RevokeCircuit, RevokePending, AbandonPending;
    if pendings != [] {
      var first := if why.Abandon? then AbandonPending(n, pendings[0], why.peer) else RevokePending(n, pendings[0]);
      RevokeOneAdvances(n, pendings[0], why);
      AdvancesTransitive(m, n, first.relay);
      RevokeEachAdvances(m, first.relay, pendings[1..], circuits, why);
    } else if circuits != [] {
      RevokeOneAdvances(n, circuits[0], why);
      AdvancesTransitive(m, n, RevokeCircuit(n, circuits[0]).relay);
      RevokeEachAdvances(m, RevokeCircuit(n, circuits[0]).relay, [], circuits[1..], why);
    }
  }

  /** Same identifiers, fewer or the same actions. */
  ghost predicate Fewer(m: Relay, n: Relay) {
    m.generation == n.generation && m.next == n.next && Submap(n.inflight, m.inflight)
  }

  lemma FewerAdvances(m: Relay, n: Relay)
    requires Fewer(m, n)
    ensures Advances(m, n)
  {
  }

  lemma HandleOpenAdvances(m: Relay, source: Peer, p: Packet, admission: Option<Admission>, cid: Id, now: nat)
    requires p.Open?
    ensures Advances(m, HandleOpen(m, source, p, admission, cid, now).relay)
  {
    hide Queue, Advances, PeerWork, ReservationWork, HasRoom;
    var d := HandleOpen(m, source, p, admission, cid, now);
    forall n: Relay | Fewer(m, n) ensures Advances(m, n) {
      FewerAdvances(m, n);
    }
    forall n: Relay, r: Route | Fewer(m, n) ensures Advances(m, Queue(n, cid, r, IsIncoming).relay) {
      FewerAdvances(m, n);
      DropQueueAdvances(m, n, cid, r, IsIncoming);
    }
  }

  lemma QueueAfter(m: Relay, n: Relay, c: Id, r: Route, kind: Kind)
    requires Fewer(m, n)
    ensures Advances(m, n) && Advances(m, Queue(n, c, r, kind).relay)
  {
    FewerAdvances(m, n);
    DropQueueAdvances(m, n, c, r, kind);
  }

  lemma HandleAcceptAdvances(m: Relay, source: Peer, p: Packet, now: nat)
    requires p.Accept?
    ensures Advances(m, HandleAccept(m, source, p, now).relay)
  {
    hide Queue, Advances, ReservationWork, HasRoom;
    FewerAdvances(m, m);
    if p.circuit in m.pending {
      var q := m.pending[p.circuit];
      QueueAfter(m, Promoted(m, p.circuit, p.window), p.circuit, Route(q.requester, Opened(q.context, p.circuit, p.window)), IsOpened);
    }
  }

  lemma HandleDataAdvances(m: Relay, source: Peer, p: Packet)
    requires p.Data?
    ensures Advances(m, HandleData(m, source, p).relay)
  {
    hide Queue, Advances, HasRoom;
    FewerAdvances(m, m);
    if p.circuit in m.circuits {
      var c := m.circuits[p.circuit];
      var side := SideOf(c, source);
      if side.Some? && p.bytes <= CreditOf(c, side.value) && c.reservation in m.usage {
        QueueAfter(m, Forwarded(m, p.circuit, side.value, p.bytes), p.circuit, Route(PeerOn(c, Other(side.value)), p), IsData(Other(side.value), p.bytes));
      }
    }
  }

  lemma HandleWindowAdvances(m: Relay, source: Peer, p: Packet)
    requires p.Window?
    ensures Advances(m, HandleWindow(m, source, p).relay)
  {
    hide Queue, Advances, HasRoom;
    FewerAdvances(m, m);
    if p.circuit in m.circuits {
      var c := m.circuits[p.circuit];
      var side := SideOf(c, source);
      if side.Some? {
        QueueAfter(m, m.(circuits := m.circuits[p.circuit := Granted(c, side.value, p.delta)]), p.circuit, Route(PeerOn(c, Other(side.value)), p), IsControl);
      }
    }
  }

  lemma HandleCloseAdvances(m: Relay, source: Peer, p: Packet)
    requires p.Close?
    ensures Advances(m, HandleClose(m, source, p).relay)
  {
    hide Queue, Advances, Removed;
    FewerAdvances(m, m);
    forall c: Id, r: Route ensures Advances(m, Queue(Removed(m, c), c, r, IsClose).relay) {
      RemovedFewer(m, c);
      QueueAfter(m, Removed(m, c), c, r, IsClose);
    }
  }

  lemma RemovedFewer(m: Relay, cid: Id)
    ensures Fewer(m, Removed(m, cid))
  {
  }

  lemma HandleAdvances(m: Relay, source: Peer, p: Packet, now: nat, admission: Option<Admission>, cid: Id)
    ensures Advances(m, Handle(m, source, p, now, admission, cid).relay)
  {
    hide Advances, HandleOpen, HandleAccept, HandleData, HandleWindow, HandleClose;
    var t := m.(time := now);
    FewerAdvances(m, m);
    FewerAdvances(m, t);
    match p
    case Open(_, _, _) =>
      HandleOpenAdvances(t, source, p, admission, cid, now);
      AdvancesTransitive(m, t, HandleOpen(t, source, p, admission, cid, now).relay);
    case Accept(_, _) =>
      HandleAcceptAdvances(t, source, p, now);
      AdvancesTransitive(m, t, HandleAccept(t, source, p, now).relay);
    case Data(_, _) =>
      HandleDataAdvances(t, source, p);
      AdvancesTransitive(m, t, HandleData(t, source, p).relay);
    case Window(_, _) =>
      HandleWindowAdvances(t, source, p);
      AdvancesTransitive(m, t, HandleWindow(t, source, p).relay);
    case Close(_) =>
      HandleCloseAdvances(t, source, p);
      AdvancesTransitive(m, t, HandleClose(t, source, p).relay);
    case _ =>
  }

  lemma AcknowledgeAdvances(m: Relay, generation: nat, k: nat, delivered: bool)
    ensures Advances(m, Acknowledge(m, generation, k, delivered).relay)
  {
    hide Queue, Advances, RevokeCircuit;
    FewerAdvances(m, m);
    if k in m.inflight {
      var a := m.inflight[k];
      var r := Released(m.(inflight := m.inflight - {k}), a);
      FewerAdvances(m, r);
      RevokeOneAdvances(r, a.circuit, Revoke);
      AdvancesTransitive(m, r, RevokeCircuit(r, a.circuit).relay);
      if a.circuit in r.pending {
        var p := r.pending[a.circuit];
        var s := r.(pending := r.pending - {a.circuit}, counters := Revoked(r.counters));
        FewerAdvances(m, s);
        DropQueueAdvances(m, s, a.circuit, Route(p.requester, Close(p.context)), IsClose);
      }
    }
  }

  lemma DoAdvances(m: Relay, e: Event)
    ensures Advances(m, Do(m, e).relay)
  {
    hide Advances, Handle, Acknowledge, RevokeEach;
    FewerAdvances(m, m);
    match e
    case Packeted(source, packet, now, admission, drawn) => HandleAdvances(m, source, packet, now, admission, drawn);
    case Acknowledged(generation, sequence, delivered) => AcknowledgeAdvances(m, generation, sequence, delivered);
    case Disconnected(peer, pendings, circuits) =>
      FewerAdvances(m, m.(inflight := AwayFrom(m.inflight, peer)));
      RevokeEachAdvances(m, m.(inflight := AwayFrom(m.inflight, peer)), pendings, circuits, Abandon(peer));
    case ReservationGone(reservation, pendings, circuits) =>
      FewerAdvances(m, m.(usage := m.usage - {reservation}));
      RevokeEachAdvances(m, m.(usage := m.usage - {reservation}), pendings, circuits, Revoke);
    case TimePasses(now, pendings, circuits) =>
      var n := m.(time := now, usage := LiveUsage(m.usage, now));
      FewerAdvances(m, n);
      RevokeEachAdvances(m, n, pendings, circuits, Revoke);
    case PolicyChanged(expected, enabled, pendings, circuits) =>
      NewGeneration(m, Cleared(m, enabled));
      RevokeEachAdvances(m, Cleared(m, enabled), pendings, circuits, Revoke);
  }

  lemma NewGeneration(m: Relay, n: Relay)
    requires m.generation < n.generation
    ensures Advances(m, n)
  {
  }

  // ---- runs ----

  ghost function Steps(tickets: Tickets): (Relay, Relay) -> bool {
    (m, n) => exists e :: Possible(m, e, tickets) && n == Do(m, e).relay
  }

  ghost function Invariant(tickets: Tickets): Relay -> bool {
    m => Inv(m, tickets)
  }

  ghost function Advancing(): (Relay, Relay) -> bool {
    (m, n) => Advances(m, n)
  }

  ghost predicate Run(states: seq<Relay>, config: Config, tickets: Tickets) {
    Trace(Steps(tickets), states) && exists generation, now :: states[0] == Fresh(config, generation, now)
  }

  lemma StepKeeps(m: Relay, n: Relay, tickets: Tickets)
    requires Invariant(tickets)(m) && Steps(tickets)(m, n)
    ensures Invariant(tickets)(n) && Advancing()(m, n)
  {
    hide Inv, Do, Advances;
    var e :| Possible(m, e, tickets) && n == Do(m, e).relay;
    DoKeeps(m, e, tickets);
    DoAdvances(m, e);
  }

  /**
    In every run of a relay: in-flight actions name live work, queue counts are exact and bounded, every cap holds,
    and every admitted open is pending, active or revoked.
   */
  lemma RunKeeps(states: seq<Relay>, config: Config, tickets: Tickets, n: nat)
    requires Run(states, config, tickets) && n < |states|
    ensures Inv(states[n], tickets)
  {
    hide Inv;
    var generation, now :| states[0] == Fresh(config, generation, now);
    FreshOk(config, generation, now, tickets);
    forall a, b | Invariant(tickets)(a) && Steps(tickets)(a, b) ensures Invariant(tickets)(b) {
      StepKeeps(a, b, tickets);
    }
    Always(Steps(tickets), Invariant(tickets), states, n);
  }

  /**
    An action identifier, once given out, never names a second action: while it is in flight it names the same one,
    once it is not it never is again, and a generation left behind does not come back.
   */
  lemma ActionIdsNeverReused(states: seq<Relay>, config: Config, tickets: Tickets, i: nat, j: nat, k: nat)
    requires Run(states, config, tickets) && i <= j < |states|
    ensures states[i].generation <= states[j].generation
    ensures states[i].generation == states[j].generation && k < states[i].next && k in states[j].inflight ==>
              k in states[i].inflight && states[i].inflight[k] == states[j].inflight[k]
    ensures k in states[i].inflight ==> k < states[i].next
  {
    var generation, now :| states[0] == Fresh(config, generation, now);
    FreshOk(config, generation, now, tickets);
    forall a, b | Invariant(tickets)(a) && Steps(tickets)(a, b) ensures Invariant(tickets)(b) && Advancing()(a, b) {
      StepKeeps(a, b, tickets);
    }
    AdvancingOrders();
    Along(Steps(tickets), Invariant(tickets), Advancing(), states, i, j);
    RunKeeps(states, config, tickets, i);
  }

  lemma AdvancingOrders()
    ensures forall m :: Advancing()(m, m)
    ensures forall m, n, o :: Advancing()(m, n) && Advancing()(n, o) ==> Advancing()(m, o)
  {
    forall m, n, o | Advancing()(m, n) && Advancing()(n, o) ensures Advancing()(m, o) {
      AdvancesTransitive(m, n, o);
    }
  }
}
