/** Byte budgets over whole runs of the relay: what a reservation and a circuit may carry, and that they carry no more. */
module CircuitBudgets {
  import opened Common
  import opened CircuitRelays
  import opened CircuitRelayInvariants
  import opened CircuitRelayRuns

  // ---- one packet ----

  /** Charged, byte for byte, to one circuit and its reservation within their limits, and to nothing else. */
  ghost predicate Charges(m: Relay, n: Relay, cid: Id, bytes: nat) {
    && cid in m.circuits && m.circuits[cid].reservation in m.usage && n.circuits.Keys == m.circuits.Keys && n.usage.Keys == m.usage.Keys
    && var c := m.circuits[cid];
       && n.usage[c.reservation].expires == m.usage[c.reservation].expires
       && n.usage[c.reservation].bytes == SaturatingAdd(m.usage[c.reservation].bytes, bytes) <= c.maxTotal
       && n.circuits[cid].forwarded == SaturatingAdd(c.forwarded, bytes) <= c.maxBytes && SameTerms(c, n.circuits[cid])
       && n.counters.sent == SaturatingAdd(m.counters.sent, bytes) && n.counters.received == SaturatingAdd(m.counters.received, bytes)
       && (forall r :: r in m.usage && r != c.reservation ==> n.usage[r] == m.usage[r])
       && (forall k :: k in m.circuits && k != cid ==> n.circuits[k] == m.circuits[k])
  }

  lemma DataCharges(m: Relay, source: Peer, p: Packet)
    requires p.Data?
    ensures HandleData(m, source, p).result.Ok? ==> Charges(m, HandleData(m, source, p).relay, p.circuit, p.bytes)
  {
    hide HasRoom;
  }

  /** What a circuit was established with. */
  predicate SameTerms(a: Circuit, b: Circuit) {
    a.requester == b.requester && a.endpoint == b.endpoint && a.reservation == b.reservation && a.expires == b.expires
    && a.maxBytes == b.maxBytes && a.maxTotal == b.maxTotal
  }

  // ---- everything else charges nothing ----

  /** No circuit is new or charged. */
  ghost predicate NoCharge(m: Relay, n: Relay) {
    forall c :: c in n.circuits ==> c in m.circuits && SameTerms(m.circuits[c], n.circuits[c]) && n.circuits[c].forwarded == m.circuits[c].forwarded
  }

  ghost predicate Idle(m: Relay, n: Relay) {
    n.usage == m.usage && NoCharge(m, n)
  }

  lemma IdleTransitive(l: Relay, m: Relay, n: Relay)
    requires Idle(l, m) && Idle(m, n)
    ensures Idle(l, n)
  {
  }

  lemma QueueIdle(m: Relay, cid: Id, r: Route, kind: Kind)
    ensures Idle(m, Queue(m, cid, r, kind).relay)
  {
    hide HasRoom;
  }

  lemma {:induction false} ClosesIdle(m: Relay, cid: Id, routes: seq<Route>)
    ensures Idle(m, QueueCloses(m, cid, routes).relay)
    decreases |routes|
  {
    hide Queue, Idle;
    if routes == [] {
      SameIdle(m);
    } else {
      QueueIdle(m, cid, routes[0], IsClose);
      var n := Queue(m, cid, routes[0], IsClose).relay;
      ClosesIdle(n, cid, routes[1..]);
      IdleTransitive(m, n, QueueCloses(n, cid, routes[1..]).relay);
    }
  }

  lemma SameIdle(m: Relay)
    ensures Idle(m, m)
  {
  }

  lemma RemovedIdle(m: Relay, cid: Id)
    ensures Idle(m, Removed(m, cid))
  {
  }

  lemma RevokeOneIdle(m: Relay, cid: Id, why: Reason)
    ensures Idle(m, RevokeCircuit(m, cid).relay) && Idle(m, RevokePending(m, cid).relay)
    ensures why.Abandon? ==> Idle(m, AbandonPending(m, cid, why.peer).relay)
  {
    hide Idle, QueueCloses, Removed;
    SameIdle(m);
    RemovedIdle(m, cid);
    forall routes: seq<Route> ensures Idle(m, QueueCloses(Removed(m, cid), cid, routes).relay) {
      ClosesIdle(Removed(m, cid), cid, routes);
      IdleTransitive(m, Removed(m, cid), QueueCloses(Removed(m, cid), cid, routes).relay);
    }
  }

  lemma {:induction false} RevokeEachIdle(m: Relay, pendings: seq<Id>, circuits: seq<Id>, why: Reason)
    ensures Idle(m, RevokeEach(m, pendings, circuits, why).relay)
    decreases |pendings| + |circuits|
  {
    hide Idle, RevokeCircuit, RevokePending, AbandonPending;
    if pendings != [] {
      RevokeOneIdle(m, pendings[0], why);
      var n := if why.Abandon? then AbandonPending(m, pendings[0], why.peer).relay else RevokePending(m, pendings[0]).relay;
      RevokeEachIdle(n, pendings[1..], circuits, why);
      IdleTransitive(m, n, RevokeEach(n, pendings[1..], circuits, why).relay);
    } else if circuits != [] {
      RevokeOneIdle(m, circuits[0], why);
      var n := RevokeCircuit(m, circuits[0]).relay;
      RevokeEachIdle(n, [], circuits[1..], why);
      IdleTransitive(m, n, RevokeEach(n, [], circuits[1..], why).relay);
    } else {
      SameIdle(m);
    }
  }

  lemma AckIdle(m: Relay, generation: nat, k: nat, delivered: bool)
    ensures Idle(m, Acknowledge(m, generation, k, delivered).relay)
  {
    hide Idle, Queue, RevokeCircuit, Released;
    SameIdle(m);
    if generation == m.generation && k in m.inflight {
      var a := m.inflight[k];
      var r := Released(m.(inflight := m.inflight - {k}), a);
      ReleasedIdle(m, k, a);
      RevokeOneIdle(r, a.circuit, Revoke);
      IdleTransitive(m, r, RevokeCircuit(r, a.circuit).relay);
      if a.circuit in r.pending {
        var p := r.pending[a.circuit];
        var s := r.(pending := r.pending - {a.circuit}, counters := Revoked(r.counters));
        WithdrawnIdle(r, a.circuit);
        QueueIdle(s, a.circuit, Route(p.requester, Close(p.context)), IsClose);
        IdleTransitive(m, r, s);
        IdleTransitive(m, s, Queue(s, a.circuit, Route(p.requester, Close(p.context)), IsClose).relay);
      }
    }
  }

  lemma ReleasedIdle(m: Relay, k: nat, a: Action)
    ensures Idle(m, Released(m.(inflight := m.inflight - {k}), a))
  {
  }

  lemma WithdrawnIdle(m: Relay, cid: Id)
    ensures Idle(m, m.(pending := m.pending - {cid}, counters := Revoked(m.counters)))
  {
  }

  lemma WindowIdle(m: Relay, source: Peer, p: Packet)
    requires p.Window?
    ensures Idle(m, HandleWindow(m, source, p).relay)
  {
    hide HasRoom, Queue;
    if p.circuit in m.circuits && SideOf(m.circuits[p.circuit], source).Some? {
      var c := m.circuits[p.circuit];
      var side := SideOf(c, source).value;
      var n := m.(circuits := m.circuits[p.circuit := Granted(c, side, p.delta)]);
      QueueTouches(n, p.circuit, Route(PeerOn(c, Other(side)), p), IsControl);
    }
  }

  lemma CloseIdle(m: Relay, source: Peer, p: Packet)
    requires p.Close?
    ensures Idle(m, HandleClose(m, source, p).relay)
  {
    hide Idle, Queue, Removed;
    SameIdle(m);
    forall cid, r: Route ensures Idle(m, Queue(Removed(m, cid), cid, r, IsClose).relay) {
      RemovedIdle(m, cid);
      QueueIdle(Removed(m, cid), cid, r, IsClose);
      IdleTransitive(m, Removed(m, cid), Queue(Removed(m, cid), cid, r, IsClose).relay);
    }
  }

  // ---- circuits keep the terms of their reservation's ticket ----

  predicate OnTerms(c: Circuit, t: Ticket) {
    c.expires == t.expires && c.maxTotal == t.maxTotal && c.maxBytes <= t.maxBytes
  }

  ghost predicate Ticketed(m: Relay, tickets: Tickets) {
    forall c :: c in m.circuits ==> OnTerms(m.circuits[c], tickets(m.circuits[c].reservation))
  }

  lemma NoChargeTicketed(m: Relay, n: Relay, tickets: Tickets)
    requires Ticketed(m, tickets) && NoCharge(m, n)
    ensures Ticketed(n, tickets)
  {
  }

  /** An ACCEPT establishes one circuit, with nothing forwarded and the terms of the ticket. */
  lemma AcceptEstablishes(m: Relay, source: Peer, p: Packet, now: nat, tickets: Tickets)
    requires p.Accept? && Inv(m, tickets)
    ensures var n := HandleAccept(m, source, p, now).relay;
            && n.usage == m.usage
            && forall c :: c in n.circuits ==>
                 || (c in m.circuits && n.circuits[c] == m.circuits[c])
                 || (c == p.circuit && c !in m.circuits && n.circuits[c].forwarded == 0 && OnTerms(n.circuits[c], tickets(n.circuits[c].reservation)))
  {
    hide HandleAccept, InvExcept;
    AcceptCircuits(m, source, p, now);
    if p.circuit in m.pending {
      NotACircuit(m, p.circuit, tickets);
      PendingTicket(m, p.circuit, tickets);
    }
  }

  lemma AcceptCircuits(m: Relay, source: Peer, p: Packet, now: nat)
    requires p.Accept?
    ensures var n := HandleAccept(m, source, p, now).relay;
            && n.usage == m.usage
            && (|| n.circuits == m.circuits
                || (p.circuit in m.pending && n.circuits == m.circuits[p.circuit := Established(m, m.pending[p.circuit], p.window)]))
  {
    hide HasRoom, ReservationWork, Without, Queue, Established;
    if p.circuit in m.pending {
      var q := m.pending[p.circuit];
      QueueTouches(Promoted(m, p.circuit, p.window), p.circuit, Route(q.requester, Opened(q.context, p.circuit, p.window)), IsOpened);
    }
  }

  lemma QueueTouches(m: Relay, cid: Id, r: Route, kind: Kind)
    ensures Queue(m, cid, r, kind).relay.circuits == m.circuits && Queue(m, cid, r, kind).relay.usage == m.usage
  {
  }

  lemma PendingTicket(m: Relay, cid: Id, tickets: Tickets)
    requires Inv(m, tickets) && cid in m.pending
    ensures m.pending[cid].ticket == tickets(m.pending[cid].ticket.reservation)
  {
  }

  // ---- opening ----

  /** An OPEN drops lapsed usage and may enter its reservation at nothing; what it keeps it keeps unchanged. */
  lemma OpenUsage(m: Relay, source: Peer, p: Packet, admission: Option<Admission>, cid: Id, now: nat, r: Id)
    requires p.Open?
    ensures var n := HandleOpen(m, source, p, admission, cid, now).relay;
            && n.circuits == m.circuits
            && (r in n.usage ==>
                  || (r in m.usage && n.usage[r] == m.usage[r])
                  || (&& admission.Some? && r == admission.value.ticket.reservation && n.usage[r] == Usage(0, admission.value.ticket.expires)
                      && (r in m.usage ==> m.usage[r].expires <= now)))
  {
    hide HasRoom, PeerWork, ReservationWork, OpenBlocked, Queue;
    if admission.Some? {
      var t := admission.value.ticket;
      var live := LiveUsage(m.usage, now);
      var charged := m.(usage := live[t.reservation := if t.reservation in live then live[t.reservation] else Usage(0, t.expires)]);
      var pending := Pending(source, admission.value.endpoint, p.context, t, p.window, Min(now + m.config.acceptTimeout, t.expires));
      QueueTouches(Opens(charged, cid, pending), cid, Route(admission.value.endpoint, Incoming(cid, p.context, p.window)), IsIncoming);
    }
  }

  // ---- one event ----

  /** The bytes of a DATA that an event forwards, on one circuit. */
  function CarriedBy(m: Relay, e: Event, cid: Id): nat {
    if e.Packeted? && e.packet.Data? && e.packet.circuit == cid && Do(m, e).result.Ok? then e.packet.bytes else 0
  }

  /** And on one reservation. */
  function CarriedOn(m: Relay, e: Event, r: Id): nat {
    if e.Packeted? && e.packet.Data? && e.packet.circuit in m.circuits && m.circuits[e.packet.circuit].reservation == r && Do(m, e).result.Ok?
    then e.packet.bytes else 0
  }

  /** A confirmed reservation has a ticket that is still running. */
  predicate Running(e: Event) {
    e.Packeted? && e.admission.Some? ==> e.now < e.admission.value.ticket.expires
  }

  /** A reservation's usage after an event: what it was and what the event carried, or newly entered at nothing. */
  ghost predicate UsageMoves(m: Relay, n: Relay, r: Id, carried: nat) {
    r in n.usage ==>
      || (r in m.usage && n.usage[r].expires == m.usage[r].expires && n.usage[r].bytes == SaturatingAdd(m.usage[r].bytes, carried))
      || (n.usage[r].bytes == 0 && carried == 0 && (r in m.usage ==> n.usage[r].expires != m.usage[r].expires))
  }

  /** A circuit after an event: what it was and what the event carried on it, or newly established with nothing. */
  ghost predicate CircuitMoves(m: Relay, n: Relay, cid: Id, carried: nat) {
    cid in n.circuits ==>
      || (cid in m.circuits && SameTerms(m.circuits[cid], n.circuits[cid]) && n.circuits[cid].forwarded == SaturatingAdd(m.circuits[cid].forwarded, carried))
      || (cid !in m.circuits && n.circuits[cid].forwarded == 0 && carried == 0)
  }

  /** Counters are 64 bits wide. */
  ghost predicate Wide(m: Relay) {
    && (forall r :: r in m.usage ==> m.usage[r].bytes <= U64_MAX)
    && forall c :: c in m.circuits ==> m.circuits[c].forwarded <= U64_MAX
  }

  ghost predicate Moves(m: Relay, e: Event, n: Relay, tickets: Tickets) {
    && (forall r :: UsageMoves(m, n, r, CarriedOn(m, e, r)))
    && (forall c :: CircuitMoves(m, n, c, CarriedBy(m, e, c)))
    && (forall c :: c in n.circuits && c !in m.circuits ==> OnTerms(n.circuits[c], tickets(n.circuits[c].reservation)))
    && Wide(n)
  }

  lemma IdleMoves(m: Relay, e: Event, n: Relay, tickets: Tickets)
    requires Wide(m) && NoCharge(m, n) && (forall r :: r in n.usage ==> r in m.usage && n.usage[r] == m.usage[r])
    requires e.Packeted? && e.packet.Data? ==> Do(m, e).result.Err?
    ensures Moves(m, e, n, tickets)
  {
    hide Do;
  }

  lemma DataMoves(m: Relay, e: Event, tickets: Tickets)
    requires Wide(m) && Possible(m, e, tickets) && e.Packeted? && e.packet.Data?
    ensures Moves(m, e, Do(m, e).relay, tickets)
  {
    hide HandleData;
    var t := m.(time := e.now);
    if e.now >= m.time && m.enabled {
      if HandleData(t, e.source, e.packet).result.Ok? {
        DataCharges(t, e.source, e.packet);
      } else {
        DataRejection(t, e.source, e.packet);
        IdleMoves(m, e, Do(m, e).relay, tickets);
      }
    } else {
      IdleMoves(m, e, Do(m, e).relay, tickets);
    }
  }

  lemma AcceptMoves(m: Relay, e: Event, tickets: Tickets)
    requires Wide(m) && Inv(m, tickets) && e.Packeted? && e.packet.Accept?
    ensures Moves(m, e, Do(m, e).relay, tickets)
  {
    hide HandleAccept, InvExcept;
    var t := m.(time := e.now);
    FrameKeeps(m, t, tickets);
    if e.now >= m.time && m.enabled {
      AcceptEstablishes(t, e.source, e.packet, e.now, tickets);
    }
  }

  lemma OpenMoves(m: Relay, e: Event, tickets: Tickets)
    requires Wide(m) && e.Packeted? && e.packet.Open? && Running(e)
    ensures Moves(m, e, Do(m, e).relay, tickets)
  {
    hide HandleOpen;
    var t := m.(time := e.now);
    if e.now >= m.time && m.enabled {
      forall r ensures UsageMoves(m, Do(m, e).relay, r, 0) && (r in Do(m, e).relay.usage ==> Do(m, e).relay.usage[r].bytes <= U64_MAX) {
        OpenUsage(t, e.source, e.packet, e.admission, e.drawn, e.now, r);
      }
      OpenUsage(t, e.source, e.packet, e.admission, e.drawn, e.now, 0);
    }
  }

  lemma QuietMoves(m: Relay, e: Event, tickets: Tickets)
    requires Wide(m) && (e.Packeted? ==> !e.packet.Data? && !e.packet.Accept? && !e.packet.Open?)
    ensures Moves(m, e, Do(m, e).relay, tickets)
  {
    hide Moves, RevokeEach, HandleWindow, HandleClose, Acknowledge, Wide;
    SameIdle(m);
    match e {
      case Packeted(source, packet, now, admission, drawn) =>
        var t := m.(time := now);
        if packet.Window? {
          WindowIdle(t, source, packet);
        } else if packet.Close? {
          CloseIdle(t, source, packet);
        }
      case Acknowledged(generation, sequence, delivered) => AckIdle(m, generation, sequence, delivered);
      case Disconnected(peer, pendings, circuits) => RevokeEachIdle(m.(inflight := AwayFrom(m.inflight, peer)), pendings, circuits, Abandon(peer));
      case ReservationGone(reservation, pendings, circuits) => RevokeEachIdle(m.(usage := m.usage - {reservation}), pendings, circuits, Revoke);
      case TimePasses(now, pendings, circuits) => RevokeEachIdle(m.(time := now, usage := LiveUsage(m.usage, now)), pendings, circuits, Revoke);
      case PolicyChanged(expected, enabled, pendings, circuits) => RevokeEachIdle(Cleared(m, enabled), pendings, circuits, Revoke);
    }
    IdleMoves(m, e, Do(m, e).relay, tickets);
  }

  lemma DoMoves(m: Relay, e: Event, tickets: Tickets)
    requires Wide(m) && Inv(m, tickets) && Possible(m, e, tickets) && Running(e)
    ensures Moves(m, e, Do(m, e).relay, tickets)
  {
    hide Do, Moves, InvExcept, Wide;
    if e.Packeted? && e.packet.Data? {
      DataMoves(m, e, tickets);
    } else if e.Packeted? && e.packet.Accept? {
      AcceptMoves(m, e, tickets);
    } else if e.Packeted? && e.packet.Open? {
      OpenMoves(m, e, tickets);
    } else {
      QuietMoves(m, e, tickets);
    }
  }

  // ---- whole runs ----

  ghost predicate EventRun(states: seq<Relay>, events: seq<Event>, tickets: Tickets) {
    && |states| == |events| + 1 && (exists config, generation, now :: states[0] == Fresh(config, generation, now))
    && forall i :: 0 <= i < |events| ==>
         Possible(states[i], events[i], tickets) && Running(events[i]) && states[i + 1] == Do(states[i], events[i]).relay
  }

  lemma {:induction false} EventRunKeeps(states: seq<Relay>, events: seq<Event>, tickets: Tickets, n: nat)
    requires EventRun(states, events, tickets) && n < |states|
    ensures Inv(states[n], tickets) && Wide(states[n]) && Ticketed(states[n], tickets)
  {
    hide InvExcept, Do, Possible, Moves;
    if n == 0 {
      var config, generation, now :| states[0] == Fresh(config, generation, now);
      FreshOk(config, generation, now, tickets);
    } else {
      EventRunKeeps(states, events, tickets, n - 1);
      DoKeeps(states[n - 1], events[n - 1], tickets);
      DoMoves(states[n - 1], events[n - 1], tickets);
      MovesTicketed(states[n - 1], events[n - 1], states[n], tickets);
    }
  }

  lemma MovesTicketed(m: Relay, e: Event, n: Relay, tickets: Tickets)
    requires Moves(m, e, n, tickets) && Ticketed(m, tickets)
    ensures Ticketed(n, tickets) && Wide(n)
  {
    hide Do;
    forall c | c in n.circuits ensures OnTerms(n.circuits[c], tickets(n.circuits[c].reservation)) {
      assert CircuitMoves(m, n, c, CarriedBy(m, e, c));
    }
  }

  /** The DATA bytes forwarded on a reservation since its usage was entered. */
  ghost function Carried(states: seq<Relay>, events: seq<Event>, r: Id, n: nat): nat
    requires n <= |events| && |states| == |events| + 1
  {
    if n == 0 || r !in states[n].usage then 0
    else if r in states[n - 1].usage && states[n - 1].usage[r].expires == states[n].usage[r].expires
    then Carried(states, events, r, n - 1) + CarriedOn(states[n - 1], events[n - 1], r)
    else 0
  }

  /** The DATA bytes forwarded on a circuit since it was established. */
  ghost function Relayed(states: seq<Relay>, events: seq<Event>, cid: Id, n: nat): nat
    requires n <= |events| && |states| == |events| + 1
  {
    if n == 0 || cid !in states[n].circuits then 0
    else if cid in states[n - 1].circuits then Relayed(states, events, cid, n - 1) + CarriedBy(states[n - 1], events[n - 1], cid)
    else 0
  }

  lemma {:induction false} UsageCounts(states: seq<Relay>, events: seq<Event>, tickets: Tickets, r: Id, n: nat)
    requires EventRun(states, events, tickets) && n < |states| && r in states[n].usage
    ensures states[n].usage[r].bytes == Min(Carried(states, events, r, n), U64_MAX)
    decreases n
  {
    hide InvExcept, Do, Possible;
    if n > 0 {
      var m := states[n - 1];
      EventRunKeeps(states, events, tickets, n - 1);
      DoMoves(m, events[n - 1], tickets);
      assert UsageMoves(m, states[n], r, CarriedOn(m, events[n - 1], r));
      if r in m.usage {
        UsageCounts(states, events, tickets, r, n - 1);
      }
    }
  }

  lemma {:induction false} ForwardedCounts(states: seq<Relay>, events: seq<Event>, tickets: Tickets, cid: Id, n: nat)
    requires EventRun(states, events, tickets) && n < |states| && cid in states[n].circuits
    ensures states[n].circuits[cid].forwarded == Min(Relayed(states, events, cid, n), U64_MAX)
    decreases n
  {
    hide InvExcept, Do, Possible;
    if n > 0 {
      var m := states[n - 1];
      EventRunKeeps(states, events, tickets, n - 1);
      DoMoves(m, events[n - 1], tickets);
      assert CircuitMoves(m, states[n], cid, CarriedBy(m, events[n - 1], cid));
      if cid in m.circuits {
        ForwardedCounts(states, events, tickets, cid, n - 1);
      }
    }
  }

  lemma CarriedIsCharged(m: Relay, e: Event, tickets: Tickets, r: Id)
    requires Ticketed(m, tickets) && CarriedOn(m, e, r) > 0
    ensures r in Do(m, e).relay.usage && Do(m, e).relay.usage[r].bytes <= tickets(r).maxTotal
  {
    hide HandleData;
    DataCharges(m.(time := e.now), e.source, e.packet);
  }

  /**
    A reservation's budget ends. In every run, from the entry of a reservation's usage until it is dropped, the relay
    forwards no more DATA bytes on it, over all its circuits and both directions, than its ticket allows.
   */
  lemma {:induction false} ReservationBudget(states: seq<Relay>, events: seq<Event>, tickets: Tickets, r: Id, n: nat)
    requires EventRun(states, events, tickets) && n < |states| && tickets(r).maxTotal < U64_MAX
    ensures Carried(states, events, r, n) <= tickets(r).maxTotal
    decreases n
  {
    hide InvExcept, Do, Possible;
    if n > 0 && r in states[n].usage {
      ReservationBudget(states, events, tickets, r, n - 1);
      UsageCounts(states, events, tickets, r, n);
      EventRunKeeps(states, events, tickets, n - 1);
      if CarriedOn(states[n - 1], events[n - 1], r) > 0 {
        CarriedIsCharged(states[n - 1], events[n - 1], tickets, r);
      }
    }
  }

  /** And so does a circuit's: over its life no more DATA bytes than its ticket allows each circuit. */
  lemma CircuitBudget(states: seq<Relay>, events: seq<Event>, tickets: Tickets, cid: Id, n: nat)
    requires EventRun(states, events, tickets) && n < |states| && cid in states[n].circuits && states[n].circuits[cid].maxBytes < U64_MAX
    ensures Relayed(states, events, cid, n) <= states[n].circuits[cid].maxBytes <= tickets(states[n].circuits[cid].reservation).maxBytes
  {
    hide Do, Possible;
    EventRunKeeps(states, events, tickets, n);
    ForwardedCounts(states, events, tickets, cid, n);
  }
}
