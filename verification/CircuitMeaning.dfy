/** What the steps of the two circuit machines mean, clause by clause: who is admitted, who is told, what goes and what stays. */
module CircuitMeanings {
  import opened Common
  import opened Tallies
  import opened CircuitRelays
  import opened CircuitRelayInvariants
  import Q = CircuitRequesters

  // ---- the relay: opening ----

  /** An admitted OPEN: exactly one pending open more, on the terms of the reservation, and its endpoint told. */
  ghost predicate Admitted(m: Relay, d: Done, source: Peer, p: Packet, a: Admission, cid: Id, now: nat)
    requires p.Open?
  {
    var t := a.ticket;
    && MIN_WINDOW <= p.window <= MAX_WINDOW && a.endpoint != source
    && (forall c :: c in m.pending ==> m.pending[c].requester != source || m.pending[c].context != p.context)
    && cid in d.relay.pending && d.relay.pending.Keys == m.pending.Keys + {cid}
    && (forall c :: c in m.pending && c != cid ==> d.relay.pending[c] == m.pending[c]) && d.relay.circuits == m.circuits
    && t.reservation in d.relay.usage && d.relay.usage[t.reservation].expires == t.expires && d.relay.usage[t.reservation].bytes < t.maxTotal
    && d.out == [Route(a.endpoint, Incoming(cid, p.context, p.window))]
    && d.relay.counters.admitted == SaturatingAdd(m.counters.admitted, 1)
    && Entered(d.relay.pending[cid], source, p, a, now + m.config.acceptTimeout)
  }

  /** A pending open as it was asked for and admitted, to be accepted in time and within the ticket. */
  predicate Entered(q: Pending, source: Peer, p: Packet, a: Admission, latest: nat)
    requires p.Open?
  {
    && q.requester == source && q.endpoint == a.endpoint && q.context == p.context && q.ticket == a.ticket && q.window == p.window
    && q.deadline <= latest && q.deadline <= a.ticket.expires && (q.deadline == latest || q.deadline == a.ticket.expires)
  }

  lemma OpenMeans(m: Relay, source: Peer, p: Packet, admission: Option<Admission>, cid: Id, now: nat)
    requires p.Open?
    ensures var d := HandleOpen(m, source, p, admission, cid, now);
            d.result.Ok? ==> admission.Some? && Admitted(m, d, source, p, admission.value, cid, now)
  {
    hide HasRoom, PeerWork, ReservationWork, LiveUsage, Queue, Admitted;
    if HandleOpen(m, source, p, admission, cid, now).result.Ok? {
      var t, endpoint := admission.value.ticket, admission.value.endpoint;
      var live := LiveUsage(m.usage, now);
      var u := if t.reservation in live then live[t.reservation] else Usage(0, t.expires);
      var q := Pending(source, endpoint, p.context, t, p.window, Min(now + m.config.acceptTimeout, t.expires));
      AdmittedIs(m, source, p, admission.value, cid, now, live, u, q);
    }
  }

  lemma AdmittedIs(m: Relay, source: Peer, p: Packet, a: Admission, cid: Id, now: nat, live: map<Id, Usage>, u: Usage, q: Pending)
    requires p.Open? && p.WellFormed() && a.endpoint != source && !OpenBlocked(m, source, p.context)
    requires u.expires == a.ticket.expires && u.bytes < a.ticket.maxTotal && Entered(q, source, p, a, now + m.config.acceptTimeout)
    ensures var d := Queue(Opens(m.(usage := live[a.ticket.reservation := u]), cid, q), cid, Route(a.endpoint, Incoming(cid, p.context, p.window)), IsIncoming);
            d.result.Ok? ==> Admitted(m, d, source, p, a, cid, now)
  {
    hide Queue, PeerWork;
    QueueMeans(Opens(m.(usage := live[a.ticket.reservation := u]), cid, q), cid, Route(a.endpoint, Incoming(cid, p.context, p.window)), IsIncoming);
  }

  /** Something an OPEN would have to fit in is full, or the peer or the context is taken. */
  ghost predicate NoRoomToOpen(m: Relay, source: Peer, p: Packet, admission: Option<Admission>, cid: Id)
    requires p.Open?
  {
    || |m.pending| >= m.config.maxPending || |m.circuits| >= m.config.maxCircuits || PeerWork(m, source) >= m.config.maxPerPeer
    || (exists c :: c in m.pending && m.pending[c].requester == source && m.pending[c].context == p.context)
    || (admission.Some? &&
          var a := admission.value;
          || a.endpoint == source || PeerWork(m, a.endpoint) >= m.config.maxPerPeer || ReservationWork(m, p.reservation) >= a.ticket.maxActive
          || |m.inflight| >= m.config.maxActions || |ActionsOf(m.inflight, cid)| >= m.config.maxActionsPerCircuit
          || |ActionsTo(m.inflight, a.endpoint)| >= m.config.maxActionsPerPeer)
  }

  lemma RefusedOpenIsFull(m: Relay, source: Peer, p: Packet, admission: Option<Admission>, cid: Id, now: nat)
    requires p.Open? && HandleOpen(m, source, p, admission, cid, now).result == Err(Capacity)
    ensures NoRoomToOpen(m, source, p, admission, cid)
  {
    hide PeerWork, ReservationWork, LiveUsage, ActionsOf, ActionsTo;
  }

  // ---- the relay: accepting ----

  /** An accepted open: its endpoint said so in time, and it is a circuit now, on its terms, with the window both ways. */
  ghost predicate Accepted(m: Relay, d: Done, source: Peer, p: Packet, now: nat)
    requires p.Accept?
  {
    && p.circuit in m.pending
    && var q := m.pending[p.circuit];
       && q.endpoint == source && now < q.deadline && now < q.ticket.expires && MIN_WINDOW <= p.window <= q.window
       && d.relay.pending == m.pending - {p.circuit} && p.circuit in d.relay.circuits && d.relay.circuits.Keys == m.circuits.Keys + {p.circuit}
       && (forall c :: c in m.circuits && c != p.circuit ==> d.relay.circuits[c] == m.circuits[c])
       && d.out == [Route(q.requester, Opened(q.context, p.circuit, p.window))]
       && d.relay.counters == m.counters.(accepted := SaturatingAdd(m.counters.accepted, 1))
       && OnItsTerms(d.relay.circuits[p.circuit], q, p.window, m.config.maxBytes)
  }

  predicate OnItsTerms(c: Circuit, q: Pending, window: nat, maxBytes: nat) {
    && c.requester == q.requester && c.endpoint == q.endpoint && c.reservation == q.ticket.reservation && c.expires == q.ticket.expires
    && c.maxTotal == q.ticket.maxTotal && c.maxBytes <= q.ticket.maxBytes && c.maxBytes <= maxBytes
    && (c.maxBytes == q.ticket.maxBytes || c.maxBytes == maxBytes)
    && c.requesterCredit == c.endpointCredit == window && c.forwarded == c.toRequester == c.toEndpoint == 0
  }

  lemma AcceptMeans(m: Relay, source: Peer, p: Packet, now: nat)
    requires p.Accept?
    ensures var d := HandleAccept(m, source, p, now);
            d.result.Ok? ==> Accepted(m, d, source, p, now)
  {
    hide HasRoom, ReservationWork, Without, Queue, Accepted, Promoted;
    if HandleAccept(m, source, p, now).result.Ok? {
      AcceptedIs(m, source, p, now);
    }
  }

  lemma AcceptedIs(m: Relay, source: Peer, p: Packet, now: nat)
    requires p.Accept? && p.circuit in m.pending && m.pending[p.circuit].endpoint == source
    requires now < m.pending[p.circuit].deadline && now < m.pending[p.circuit].ticket.expires && MIN_WINDOW <= p.window <= m.pending[p.circuit].window
    ensures var q := m.pending[p.circuit];
            var d := Queue(Promoted(m, p.circuit, p.window), p.circuit, Route(q.requester, Opened(q.context, p.circuit, p.window)), IsOpened);
            d.result.Ok? ==> Accepted(m, d, source, p, now)
  {
    hide Queue, Without;
    var q := m.pending[p.circuit];
    QueueMeans(Promoted(m, p.circuit, p.window), p.circuit, Route(q.requester, Opened(q.context, p.circuit, p.window)), IsOpened);
  }

  // ---- the relay: closing ----

  /** A CLOSE ends exactly one piece of work of its sender, and the other party is told under the name it knows. */
  ghost predicate Closed(m: Relay, d: Done, source: Peer, context: Id, cid: Id) {
    && d.relay.pending == m.pending - {cid} && d.relay.circuits == m.circuits - {cid}
    && (if cid in m.pending then
          var q := m.pending[cid];
          && ((q.requester == source && q.context == context) || (q.endpoint == source && cid == context))
          && d.out == [if q.requester == source then Route(q.endpoint, Close(cid)) else Route(q.requester, Close(q.context))]
        else
          && cid == context && cid in m.circuits
          && var c := m.circuits[cid];
             && (c.requester == source || c.endpoint == source)
             && d.out == [Route(if c.requester == source then c.endpoint else c.requester, Close(cid))])
  }

  lemma CloseMeans(m: Relay, source: Peer, p: Packet)
    requires p.Close? && forall c :: c in m.pending ==> c !in m.circuits
    ensures var d := HandleClose(m, source, p);
            d.result.Ok? ==> exists cid :: Closed(m, d, source, p.context, cid)
  {
    hide Queue, Without;
    var d := HandleClose(m, source, p);
    var matched := Matching(m, source, p.context);
    if matched != {} && |matched| <= 1 {
      OnlyOne(matched);
      var cid :| cid in matched && (forall e :: e in matched ==> e == cid);
      var q := m.pending[cid];
      QueueMeans(Removed(m, cid), cid, if q.requester == source then Route(q.endpoint, Close(cid)) else Route(q.requester, Close(q.context)), IsClose);
      if d.result.Ok? { assert Closed(m, d, source, p.context, cid); }
    } else if matched == {} && p.context in m.circuits && SideOf(m.circuits[p.context], source).Some? {
      var c := m.circuits[p.context];
      QueueMeans(Removed(m, p.context), p.context, Route(PeerOn(c, Other(SideOf(c, source).value)), p), IsClose);
      if d.result.Ok? {
        assert Closed(m, d, source, p.context, p.context);
      }
    }
  }

  lemma QueueMeans(m: Relay, cid: Id, r: Route, kind: Kind)
    ensures var d := Queue(m, cid, r, kind);
            && d.relay.pending == m.pending && d.relay.circuits == m.circuits && d.relay.counters == m.counters && d.relay.usage == m.usage
            && (d.result.Ok? ==> d.out == [r])
  {
  }

  // ---- the relay: acknowledgements ----

  /** A write that was delivered takes its action off and nothing more; one that failed takes its work off too. */
  lemma AckMeans(m: Relay, generation: nat, k: nat, delivered: bool)
    ensures var d := Acknowledge(m, generation, k, delivered);
            && (generation != m.generation ==> d == Failed(m, StaleGeneration))
            && (generation == m.generation && k !in m.inflight ==> d == Failed(m, UnknownAction))
            && (generation == m.generation && k in m.inflight ==>
                  var a := m.inflight[k];
                  && (delivered || a.kind.IsClose? ==>
                        d.result.Ok? && d.out == [] && d.relay.inflight == m.inflight - {k} && d.relay.pending == m.pending && d.relay.circuits.Keys == m.circuits.Keys)
                  && (!delivered && a.kind.IsIncoming? && a.circuit in m.pending ==>
                        d.relay.pending == m.pending - {a.circuit}
                        && (d.result.Ok? ==> d.out == [Route(m.pending[a.circuit].requester, Close(m.pending[a.circuit].context))]))
                  && (!delivered && !a.kind.IsIncoming? && !a.kind.IsClose? ==> a.circuit !in d.relay.circuits && d.relay.circuits.Keys == m.circuits.Keys - {a.circuit}))
  {
    hide Queue, QueueCloses, Without;
    if generation == m.generation && k in m.inflight {
      var a := m.inflight[k];
      var r := Released(m.(inflight := m.inflight - {k}), a);
      assert r.pending == m.pending && r.circuits.Keys == m.circuits.Keys;
      if a.circuit in r.pending {
        var p := r.pending[a.circuit];
        QueueMeans(r.(pending := r.pending - {a.circuit}, counters := Revoked(r.counters)), a.circuit, Route(p.requester, Close(p.context)), IsClose);
      }
      if a.circuit in r.circuits {
        var c := r.circuits[a.circuit];
        ClosesMean(Removed(r, a.circuit), a.circuit, [Route(c.requester, Close(a.circuit)), Route(c.endpoint, Close(a.circuit))]);
      }
    }
  }

  lemma {:induction false} ClosesMean(m: Relay, cid: Id, routes: seq<Route>)
    ensures var d := QueueCloses(m, cid, routes);
            d.relay.pending == m.pending && d.relay.circuits == m.circuits && forall r :: r in d.out ==> r in routes
    decreases |routes|
  {
    hide Queue;
    if routes != [] {
      QueueMeans(m, cid, routes[0], IsClose);
      QueueSends(m, cid, routes[0], IsClose);
      ClosesMean(Queue(m, cid, routes[0], IsClose).relay, cid, routes[1..]);
    }
  }

  lemma QueueSends(m: Relay, cid: Id, r: Route, kind: Kind)
    ensures Queue(m, cid, r, kind).out == [] || Queue(m, cid, r, kind).out == [r]
  {
  }

  // ---- the relay: what goes and what stays ----

  lemma WorkLeft(m: Relay, n: Relay, ps: set<Id>, cs: set<Id>)
    requires Leaves(m, n, ps + cs) && ps <= m.pending.Keys && cs <= m.circuits.Keys && forall c :: c in m.pending ==> c !in m.circuits
    ensures n.pending.Keys == m.pending.Keys - ps && n.circuits.Keys == m.circuits.Keys - cs && n.usage == m.usage && n.time == m.time
  {
  }

  /** Expiry takes exactly the opens that are past their deadline or ticket and the circuits past theirs. */
  lemma ExpireMeans(m: Relay, now: nat, pendings: seq<Id>, circuits: seq<Id>, tickets: Tickets)
    requires Inv(m, tickets) && Lists(pendings, ExpiredPending(m, now)) && Lists(circuits, ExpiredCircuits(m, now)) && m.time <= now
    ensures var n := Expire(m, now, pendings, circuits).relay;
            && n.time == now
            && n.pending.Keys == (set c | c in m.pending && now < m.pending[c].deadline && now < m.pending[c].ticket.expires)
            && n.circuits.Keys == (set c | c in m.circuits && now < m.circuits[c].expires)
            && n.usage.Keys == (set r | r in m.usage && now < m.usage[r].expires)
  {
    hide InvExcept, RevokeEach, Lists, Elements, Leaves, ExpiredPending, ExpiredCircuits;
    var t := m.(time := now, usage := LiveUsage(m.usage, now));
    FrameKeeps(m, t, tickets);
    Disjoint(m, tickets);
    ExpiredAre(m, now);
    ListedPending(m, pendings, ExpiredPending(m, now), circuits, ExpiredCircuits(m, now), tickets);
    RevokeEachKeeps(t, pendings, circuits, Revoke, {}, tickets);
    WorkLeft(t, RevokeEach(t, pendings, circuits, Revoke).relay, ExpiredPending(m, now), ExpiredCircuits(m, now));
  }

  lemma ExpiredAre(m: Relay, now: nat)
    ensures ExpiredPending(m, now) <= m.pending.Keys && ExpiredCircuits(m, now) <= m.circuits.Keys
    ensures m.pending.Keys - ExpiredPending(m, now) == set c | c in m.pending && now < m.pending[c].deadline && now < m.pending[c].ticket.expires
    ensures m.circuits.Keys - ExpiredCircuits(m, now) == set c | c in m.circuits && now < m.circuits[c].expires
    ensures LiveUsage(m.usage, now).Keys == set r | r in m.usage && now < m.usage[r].expires
  {
  }

  lemma Disjoint(m: Relay, tickets: Tickets)
    requires Inv(m, tickets)
    ensures forall c :: c in m.pending ==> c !in m.circuits
  {
  }

  /** A disconnect takes exactly the peer's work, and a revocation exactly the reservation's, with its usage. */
  lemma DisconnectMeans(m: Relay, peer: Peer, pendings: seq<Id>, circuits: seq<Id>, tickets: Tickets)
    requires Inv(m, tickets) && Lists(pendings, PendingWith(m.pending, peer)) && Lists(circuits, CircuitsWith(m.circuits, peer))
    ensures var n := Disconnect(m, peer, pendings, circuits).relay;
            && n.pending.Keys == (set c | c in m.pending && m.pending[c].requester != peer && m.pending[c].endpoint != peer)
            && n.circuits.Keys == (set c | c in m.circuits && m.circuits[c].requester != peer && m.circuits[c].endpoint != peer)
            && n.usage == m.usage
  {
    hide InvExcept, RevokeEach, Lists, Elements, Leaves, PendingWith, CircuitsWith;
    DisconnectedKeeps(m, peer, tickets);
    var t := m.(inflight := AwayFrom(m.inflight, peer));
    Disjoint(m, tickets);
    PeerWorkIs(m, peer);
    ListedPending(m, pendings, PendingWith(m.pending, peer), circuits, CircuitsWith(m.circuits, peer), tickets);
    RevokeEachKeeps(t, pendings, circuits, Abandon(peer), CircuitsWith(m.circuits, peer), tickets);
    WorkLeft(t, RevokeEach(t, pendings, circuits, Abandon(peer)).relay, PendingWith(m.pending, peer), CircuitsWith(m.circuits, peer));
  }

  lemma PeerWorkIs(m: Relay, peer: Peer)
    ensures PendingWith(m.pending, peer) <= m.pending.Keys && CircuitsWith(m.circuits, peer) <= m.circuits.Keys
    ensures m.pending.Keys - PendingWith(m.pending, peer) == set c | c in m.pending && m.pending[c].requester != peer && m.pending[c].endpoint != peer
    ensures m.circuits.Keys - CircuitsWith(m.circuits, peer) == set c | c in m.circuits && m.circuits[c].requester != peer && m.circuits[c].endpoint != peer
  {
  }

  lemma ReservationMeans(m: Relay, r: Id, pendings: seq<Id>, circuits: seq<Id>, tickets: Tickets)
    requires Inv(m, tickets) && Lists(pendings, PendingOn(m.pending, r)) && Lists(circuits, CircuitsOn(m.circuits, r))
    ensures var n := RevokeReservation(m, r, pendings, circuits).relay;
            && n.pending.Keys == (set c | c in m.pending && m.pending[c].ticket.reservation != r)
            && n.circuits.Keys == (set c | c in m.circuits && m.circuits[c].reservation != r)
            && n.usage == m.usage - {r}
  {
    hide InvExcept, RevokeEach, Lists, Elements, Leaves, PendingOn, CircuitsOn;
    var t := m.(usage := m.usage - {r});
    FrameKeeps(m, t, tickets);
    Disjoint(m, tickets);
    ReservationWorkIs(m, r);
    ListedPending(m, pendings, PendingOn(m.pending, r), circuits, CircuitsOn(m.circuits, r), tickets);
    RevokeEachKeeps(t, pendings, circuits, Revoke, {}, tickets);
    WorkLeft(t, RevokeEach(t, pendings, circuits, Revoke).relay, PendingOn(m.pending, r), CircuitsOn(m.circuits, r));
  }

  lemma ReservationWorkIs(m: Relay, r: Id)
    ensures PendingOn(m.pending, r) <= m.pending.Keys && CircuitsOn(m.circuits, r) <= m.circuits.Keys
    ensures m.pending.Keys - PendingOn(m.pending, r) == set c | c in m.pending && m.pending[c].ticket.reservation != r
    ensures m.circuits.Keys - CircuitsOn(m.circuits, r) == set c | c in m.circuits && m.circuits[c].reservation != r
  {
  }

  // ---- the requester ----

  /** An open that is begun was allowed in every respect, and is waiting exactly as it was asked for. */
  lemma BeginMeans(q: Q.Requester, relay: Peer, ticket: Ticket, valid: bool, now: nat, deadline: nat, window: nat, context: Id)
    ensures var d := Q.BeginOpen(q, relay, ticket, valid, now, deadline, window, context);
            d.result.Ok? ==>
              && q.enabled && valid && q.time <= now < deadline <= now + 10 && deadline < ticket.expires && MIN_WINDOW <= window <= MAX_WINDOW
              && |q.waiting| + |q.links| < q.limits.maxCircuits
              && d.requester.waiting == q.waiting[context := Q.Waiting(relay, ticket, window, deadline)] && d.requester.links == q.links
              && ticket.reservation in d.requester.usage && d.requester.usage[ticket.reservation].expires == ticket.expires
              && d.requester.usage[ticket.reservation].bytes < ticket.maxTotal
              && d.route == Some(Route(relay, Open(context, ticket.reservation, window)))
  {
    hide LiveUsage;
  }

  /** An OPENED is believed of the relay that was asked, in time, with no more window than was offered, and of a new circuit. */
  lemma OpenedMeans(q: Q.Requester, source: Peer, p: Packet, now: nat)
    requires p.Opened?
    ensures var d := Q.HandleOpened(q, source, p, now);
            d.result.Ok? <==>
              && p.context in q.waiting && q.waiting[p.context].relay == source && now < q.waiting[p.context].deadline
              && now < q.waiting[p.context].ticket.expires && MIN_WINDOW <= p.window <= q.waiting[p.context].window && p.window <= MAX_WINDOW
              && p.circuit !in q.links
    ensures var d := Q.HandleOpened(q, source, p, now);
            d.result.Ok? ==>
              && d.requester.links == q.links[p.circuit := Q.Link(source, q.waiting[p.context].ticket, p.window, p.window, 0, 0, [])]
              && d.requester.waiting == q.waiting - {p.context} && d.requester.counters == q.counters.(accepted := SaturatingAdd(q.counters.accepted, 1))
  {
  }

  lemma DroppedKeys(q: Q.Requester, waiting: set<Id>, links: set<Id>)
    ensures var n := Q.Dropped(q, waiting, links);
            n.waiting.Keys == q.waiting.Keys - waiting && n.links.Keys == q.links.Keys - links && n.usage == q.usage
  {
  }

  /** Expiry takes exactly what is past its time. */
  lemma RequesterExpireMeans(q: Q.Requester, now: nat)
    requires q.time <= now
    ensures var n := Q.Expire(q, now).requester;
            && n.waiting.Keys == (set c | c in q.waiting && now < q.waiting[c].deadline && now < q.waiting[c].ticket.expires)
            && n.links.Keys == (set c | c in q.links && now < q.links[c].ticket.expires)
            && n.usage.Keys == (set r | r in q.usage && now < q.usage[r].expires)
  {
    hide Q.Dropped;
    DroppedKeys(q.(time := now, usage := LiveUsage(q.usage, now)),
                set c | c in q.waiting && (q.waiting[c].deadline <= now || q.waiting[c].ticket.expires <= now),
                set c | c in q.links && q.links[c].ticket.expires <= now);
  }

  /** And disconnection exactly what is the relay's. */
  lemma RequesterDisconnectMeans(q: Q.Requester, relay: Peer)
    ensures var n := Q.Disconnect(q, relay).requester;
            && n.waiting.Keys == (set c | c in q.waiting && q.waiting[c].relay != relay)
            && n.links.Keys == (set c | c in q.links && q.links[c].relay != relay)
  {
    hide Q.Dropped;
    DroppedKeys(q, (set c | c in q.waiting && q.waiting[c].relay == relay), (set c | c in q.links && q.links[c].relay == relay));
  }

  /** A requester is restored only at or above the generation floor and not into the past, in a new generation, with nothing live. */
  lemma RestoreMeans(s: Q.Snapshot, floor: nat, now: nat)
    ensures var r := Q.Restore(s, floor, now);
            && (r.Ok? <==> 0 < floor <= s.generation && s.time <= now && s.generation < U64_MAX)
            && (r.Ok? ==>
                  && r.value.generation == s.generation + 1 && r.value.enabled == s.enabled && r.value.time == now && r.value.limits == s.limits
                  && r.value.waiting == map[] && r.value.links == map[] && r.value.usage == map[] && r.value.counters.admitted == s.counters.admitted)
  {
  }

  // ---- guards ----

  /** Before anything else a packet must not come from the past, and the relay must be on; neither refusal changes anything but the clock. */
  lemma HandleGuards(m: Relay, source: Peer, p: Packet, now: nat, admission: Option<Admission>, cid: Id)
    ensures var d := Handle(m, source, p, now, admission, cid);
            && (now < m.time ==> d == Done(m, [], Err(ClockRollback)))
            && (m.time <= now && !m.enabled ==> d == Done(m.(time := now), [], Err(Disabled)))
            && (m.time <= now && m.enabled && (p.Incoming? || p.Opened?) ==> d == Done(m.(time := now), [], Err(UnexpectedOpcode)))
            && (m.time <= now && m.enabled && p.Data? ==> d == HandleData(m.(time := now), source, p))
            && (m.time <= now && m.enabled && p.Open? ==> d == HandleOpen(m.(time := now), source, p, admission, cid, now))
            && (m.time <= now && m.enabled && p.Accept? ==> d == HandleAccept(m.(time := now), source, p, now))
            && (m.time <= now && m.enabled && p.Window? ==> d == HandleWindow(m.(time := now), source, p))
            && (m.time <= now && m.enabled && p.Close? ==> d == HandleClose(m.(time := now), source, p))
  {
    hide HandleData, HandleOpen, HandleAccept, HandleWindow, HandleClose;
  }

  /** A policy change needs the current generation; one that changes something starts the next, on or off, with no action carried over. */
  lemma PolicyMeans(m: Relay, expected: nat, enabled: bool, pendings: seq<Id>, circuits: seq<Id>)
    ensures var d := ReplaceEnabled(m, expected, enabled, pendings, circuits);
            && (expected != m.generation ==> d == Done(m, [], Err(StaleGeneration)))
            && (expected == m.generation && m.enabled == enabled ==> d == Done(m, [], Ok(())))
            && (expected == m.generation && m.enabled != enabled && m.generation >= U64_MAX ==> d == Done(m, [], Err(GenerationExhausted)))
            && (expected == m.generation && m.enabled != enabled && m.generation < U64_MAX && enabled ==>
                  d.result.Ok? && d.relay == m.(generation := m.generation + 1, enabled := true, inflight := map[], next := 1))
  {
    hide RevokeEach;
  }

  /** DATA is forwarded exactly when it is well-formed, from a party of a live circuit, and fits every budget, credit, queue and action bound. */
  lemma DataIff(m: Relay, source: Peer, p: Packet)
    requires p.Data?
    ensures HandleData(m, source, p).result.Ok? <==>
              && 0 < p.bytes <= MAX_DATA_SIZE && p.circuit in m.circuits && m.next < U64_MAX
              && var c := m.circuits[p.circuit];
                 && (c.requester == source || c.endpoint == source) && c.reservation in m.usage
                 && SaturatingAdd(c.forwarded, p.bytes) <= c.maxBytes && SaturatingAdd(m.usage[c.reservation].bytes, p.bytes) <= c.maxTotal
                 && (if c.requester == source
                     then p.bytes <= c.requesterCredit && c.toEndpoint + p.bytes <= m.config.maxQueue && HasRoom(m, m.inflight, c.endpoint, p.circuit)
                     else p.bytes <= c.endpointCredit && c.toRequester + p.bytes <= m.config.maxQueue && HasRoom(m, m.inflight, c.requester, p.circuit))
  {
    hide ActionsOf, ActionsTo;
  }

  /** WINDOW is forwarded exactly when it is well-formed, from a party of a live circuit, and the credit it grants stays within the window bound. */
  lemma WindowIff(m: Relay, source: Peer, p: Packet)
    requires p.Window?
    ensures HandleWindow(m, source, p).result.Ok? <==>
              && 0 < p.delta <= MAX_WINDOW && p.circuit in m.circuits && m.next < U64_MAX
              && var c := m.circuits[p.circuit];
                 if c.requester == source then c.endpointCredit + p.delta <= MAX_WINDOW && HasRoom(m, m.inflight, c.endpoint, p.circuit)
                 else c.endpoint == source && c.requesterCredit + p.delta <= MAX_WINDOW && HasRoom(m, m.inflight, c.requester, p.circuit)
  {
    hide ActionsOf, ActionsTo;
  }

  /** The same for the requester's two sides of DATA, and for the credit it is granted. */
  lemma SendIff(q: Q.Requester, cid: Id, n: nat)
    ensures Q.SendData(q, cid, n).result.Ok? <==>
              && q.enabled && cid in q.links && 0 < n <= MAX_DATA_SIZE
              && var l := q.links[cid];
                 && l.ticket.reservation in q.usage && n <= l.sendCredit
                 && SaturatingAdd(l.total, n) <= l.ticket.maxBytes && SaturatingAdd(l.total, n) <= q.limits.maxBytes
                 && SaturatingAdd(q.usage[l.ticket.reservation].bytes, n) <= l.ticket.maxTotal
  {
  }

  lemma ReceiveIff(q: Q.Requester, source: Peer, p: Packet)
    requires p.Data?
    ensures Q.HandleData(q, source, p).result.Ok? <==>
              && p.circuit in q.links && 0 < p.bytes <= MAX_DATA_SIZE
              && var l := q.links[p.circuit];
                 && l.relay == source && l.ticket.reservation in q.usage && p.bytes <= l.receiveCredit && l.queued + p.bytes <= q.limits.maxQueue
                 && SaturatingAdd(l.total, p.bytes) <= l.ticket.maxBytes && SaturatingAdd(l.total, p.bytes) <= q.limits.maxBytes
                 && SaturatingAdd(q.usage[l.ticket.reservation].bytes, p.bytes) <= l.ticket.maxTotal
  {
  }

  lemma GrantIff(q: Q.Requester, source: Peer, p: Packet)
    requires p.Window?
    ensures Q.HandleWindow(q, source, p).result.Ok? <==>
              && p.circuit in q.links && q.links[p.circuit].relay == source && 0 < p.delta <= MAX_WINDOW
              && q.links[p.circuit].sendCredit + p.delta <= MAX_WINDOW
  {
  }

  /** A packet to the requester must not come from the past, and it must be on. */
  lemma RequesterGuards(q: Q.Requester, source: Peer, p: Packet, now: nat)
    ensures var d := Q.Handle(q, source, p, now);
            && (now < q.time ==> d == Q.Did(q, None, Err(ClockRollback)))
            && (q.time <= now && !q.enabled ==> d == Q.Did(q.(time := now), None, Err(Disabled)))
            && (q.time <= now && q.enabled && p.Data? ==> d == Q.HandleData(q.(time := now), source, p))
            && (q.time <= now && q.enabled && p.Window? ==> d == Q.HandleWindow(q.(time := now), source, p))
            && (q.time <= now && q.enabled && p.Opened? ==> d == Q.HandleOpened(q.(time := now), source, p, now))
            && (q.time <= now && q.enabled && p.Close? ==> d == Q.HandleClose(q.(time := now), source, p))
            && (q.time <= now && q.enabled && (p.Open? || p.Incoming? || p.Accept?) ==> d == Q.Did(q.(time := now), None, Err(UnexpectedOpcode)))
  {
    hide Q.HandleData, Q.HandleWindow, Q.HandleOpened, Q.HandleClose;
  }

  /** And a policy change of the requester: the current generation, the next one, and nothing left once off. */
  lemma RequesterPolicyMeans(q: Q.Requester, expected: nat, enabled: bool)
    ensures var d := Q.ReplaceEnabled(q, expected, enabled);
            && (expected != q.generation ==> d == Q.Did(q, None, Err(StaleGeneration)))
            && (expected == q.generation && q.enabled == enabled ==> d == Q.Did(q, None, Ok(())))
            && (expected == q.generation && q.enabled != enabled && q.generation < U64_MAX ==>
                  && d.result.Ok? && d.requester.generation == q.generation + 1 && d.requester.enabled == enabled
                  && (if enabled then d.requester.waiting == q.waiting && d.requester.links == q.links
                      else d.requester.waiting == map[] && d.requester.links == map[]))
  {
  }

  /** The requester believes a CLOSE of its own relay only, and drops exactly what it names: a waiting open first, else a circuit. */
  lemma RequesterCloseMeans(q: Q.Requester, source: Peer, p: Packet)
    requires p.Close?
    ensures var d := Q.HandleClose(q, source, p);
            && (d.result.Ok? <==>
                  if p.context in q.waiting then q.waiting[p.context].relay == source else p.context in q.links && q.links[p.context].relay == source)
            && (d.result.Err? ==> d.requester == q)
            && (d.result.Ok? ==>
                  && d.requester.waiting == q.waiting - {p.context}
                  && d.requester.links == if p.context in q.waiting then q.links else q.links - {p.context})
  {
    assert q.waiting - {} == q.waiting && q.links - {} == q.links;
    assert p.context !in q.waiting ==> q.waiting - {p.context} == q.waiting;
  }

  /** Closing and cancelling tell the relay under the name it knows. */
  lemma RequesterCloseTells(q: Q.Requester, id: Id, detail: nat)
    ensures Q.CloseCircuit(q, id, detail).result.Ok? ==> id in q.links && Q.CloseCircuit(q, id, detail).route == Some(Route(q.links[id].relay, Close(id)))
    ensures Q.CancelOpen(q, id, detail).result.Ok? ==> id in q.waiting && Q.CancelOpen(q, id, detail).route == Some(Route(q.waiting[id].relay, Close(id)))
  {
  }

  // ---- who is told of a revocation ----

  /** Room for two more actions of a circuit that has none, to either of two peers. */
  ghost predicate RoomForTwo(m: Relay, cid: Id, a: Peer, b: Peer) {
    && m.next + 2 <= U64_MAX && |m.inflight| + 2 <= m.config.maxActions && ActionsOf(m.inflight, cid) == {} && 2 <= m.config.maxActionsPerCircuit
    && |ActionsTo(m.inflight, a)| + 2 <= m.config.maxActionsPerPeer && |ActionsTo(m.inflight, b)| + 2 <= m.config.maxActionsPerPeer
    && m.next !in m.inflight && m.next + 1 !in m.inflight
  }

  lemma ClosesReachBoth(m: Relay, cid: Id, a: Route, b: Route)
    requires RoomForTwo(m, cid, a.destination, b.destination)
    ensures QueueCloses(m, cid, [a, b]).out == [a, b] && QueueCloses(m, cid, [a]).out == [a]
  {
    var first := Action(cid, a.destination, IsClose);
    var n := Queue(m, cid, a, IsClose).relay;
    assert HasRoom(m, m.inflight, a.destination, cid);
    UpdateSize(m.inflight, m.next, first);
    ActionsOfAdd(m.inflight, m.next, first, cid);
    ActionsToAdd(m.inflight, m.next, first, b.destination);
    assert HasRoom(n, n.inflight, b.destination, cid);
    assert [a, b][1..] == [b] && [b][1..] == [] && [a][1..] == [];
    assert QueueCloses(n, cid, [b]).out == [b] by {
      assert QueueCloses(Queue(n, cid, b, IsClose).relay, cid, []).out == [];
    }
  }

  /** With room, a revoked circuit's two parties are told, and a revoked open's, each under the name it knows; one that lost a party tells the other. */
  lemma RevocationTells(m: Relay, cid: Id, peer: Peer)
    ensures cid in m.circuits ==>
              var c := m.circuits[cid];
              && (forall r :: r in RevokeCircuit(m, cid).out ==> r == Route(c.requester, Close(cid)) || r == Route(c.endpoint, Close(cid)))
              && (RoomForTwo(Removed(m, cid), cid, c.requester, c.endpoint) ==>
                    RevokeCircuit(m, cid).out == [Route(c.requester, Close(cid)), Route(c.endpoint, Close(cid))])
    ensures cid in m.pending ==>
              var q := m.pending[cid];
              && (forall r :: r in RevokePending(m, cid).out ==> r == Route(q.requester, Close(q.context)) || r == Route(q.endpoint, Close(cid)))
              && (RoomForTwo(Removed(m, cid), cid, q.requester, q.endpoint) ==>
                    && RevokePending(m, cid).out == [Route(q.requester, Close(q.context)), Route(q.endpoint, Close(cid))]
                    && (q.requester == peer ==> AbandonPending(m, cid, peer).out == [Route(q.endpoint, Close(cid))])
                    && (q.requester != peer ==> AbandonPending(m, cid, peer).out == [Route(q.requester, Close(q.context))]))
  {
    hide QueueCloses, Removed, RoomForTwo;
    var n := Removed(m, cid);
    if cid in m.circuits {
      var c := m.circuits[cid];
      var a, b := Route(c.requester, Close(cid)), Route(c.endpoint, Close(cid));
      ClosesMean(n, cid, [a, b]);
      if RoomForTwo(n, cid, a.destination, b.destination) { ClosesReachBoth(n, cid, a, b); }
    }
    if cid in m.pending {
      var q := m.pending[cid];
      var a, b := Route(q.requester, Close(q.context)), Route(q.endpoint, Close(cid));
      ClosesMean(n, cid, [a, b]);
      if RoomForTwo(n, cid, a.destination, b.destination) {
        ClosesReachBoth(n, cid, a, b);
        SwapRoom(n, cid, a.destination, b.destination);
        ClosesReachBoth(n, cid, b, a);
      }
    }
  }

  lemma SwapRoom(m: Relay, cid: Id, a: Peer, b: Peer)
    requires RoomForTwo(m, cid, a, b)
    ensures RoomForTwo(m, cid, b, a)
  {
  }
}
