/** What every step of the relay keeps. */
module CircuitRelayInvariants {
  import opened Common
  import opened Tallies
  import opened CircuitRelays

  // ---- the invariant ----

  /** An in-flight action names live work, and goes to one of its peers; a closure may outlive the work it closed. */
  predicate ActionOk(m: Relay, a: Action) {
    match a.kind
    case IsIncoming => a.circuit in m.pending && a.destination == m.pending[a.circuit].endpoint
    case IsOpened => a.circuit in m.circuits && a.destination == m.circuits[a.circuit].requester
    case IsData(side, _) => a.circuit in m.circuits && a.destination == PeerOn(m.circuits[a.circuit], side)
    case IsControl => a.circuit in m.circuits && Involves(m.circuits[a.circuit].requester, m.circuits[a.circuit].endpoint, a.destination)
    case IsClose => true
  }

  /** All a circuit has in flight is closures of earlier work under the same identifier. */
  ghost predicate OnlyCloses(inflight: map<nat, Action>, cid: Id) {
    forall a :: a in inflight && inflight[a].circuit == cid ==> inflight[a].kind.IsClose?
  }

  ghost predicate Shape(m: Relay) {
    && (forall c :: c in m.pending ==> c !in m.circuits)
    && (forall a :: a in m.inflight ==> 0 < a < m.next && ActionOk(m, m.inflight[a]))
    && (forall a, b :: a in m.inflight && b in m.inflight && a != b && m.inflight[a].circuit == m.inflight[b].circuit ==>
          m.inflight[a].circuit !in m.pending || m.inflight[a].kind.IsClose? || m.inflight[b].kind.IsClose?)
    && 0 < m.next
    && (!m.enabled ==> m.pending == map[] && m.circuits == map[])
  }

  function Weight(a: Action, cid: Id, side: Side): nat {
    if a.circuit == cid && a.kind.IsData? && a.kind.side == side then a.kind.bytes else 0
  }

  /** The bytes of a circuit in flight towards one side. */
  ghost function Bytes(inflight: map<nat, Action>, cid: Id, side: Side): nat {
    Sum(inflight, (a: Action) => Weight(a, cid, side))
  }

  ghost predicate CircuitAccounted(m: Relay, cid: Id)
    requires cid in m.circuits
  {
    && m.circuits[cid].toRequester == Bytes(m.inflight, cid, RequesterSide) <= m.config.maxQueue
    && m.circuits[cid].toEndpoint == Bytes(m.inflight, cid, EndpointSide) <= m.config.maxQueue
  }

  /** Queue counters are exact and bounded, except for circuits about to be revoked. */
  ghost predicate Accounted(m: Relay, exempt: set<Id>) {
    forall cid :: cid in m.circuits && cid !in exempt ==> CircuitAccounted(m, cid)
  }

  ghost predicate ActionCaps(m: Relay) {
    && |m.inflight| <= m.config.maxActions
    && (forall c :: |ActionsOf(m.inflight, c)| <= m.config.maxActionsPerCircuit)
    && forall p :: |ActionsTo(m.inflight, p)| <= m.config.maxActionsPerPeer
  }

  /** A reservation ID stands for one fixed ticket. */
  type Tickets = Id -> Ticket

  ghost predicate WorkCaps(m: Relay, tickets: Tickets) {
    && |m.pending| <= m.config.maxPending
    && |m.circuits| <= m.config.maxCircuits
    && (forall p :: PeerWork(m, p) <= m.config.maxPerPeer)
    && (forall r :: ReservationWork(m, r) <= tickets(r).maxActive)
    && forall c :: c in m.pending ==> m.pending[c].ticket == tickets(m.pending[c].ticket.reservation)
  }

  /** Every admitted open is pending, active or revoked, as long as the counter has not saturated. */
  predicate Conserved(m: Relay) {
    m.counters.admitted < U64_MAX ==> m.counters.admitted == |m.pending| + |m.circuits| + m.counters.revoked
  }

  ghost predicate CreditsOk(m: Relay) {
    forall c :: c in m.circuits ==>
      m.circuits[c].requesterCredit <= MAX_WINDOW && m.circuits[c].endpointCredit <= MAX_WINDOW && m.circuits[c].forwarded <= m.circuits[c].maxBytes
  }

  ghost predicate InvExcept(m: Relay, exempt: set<Id>, tickets: Tickets) {
    Shape(m) && Accounted(m, exempt) && ActionCaps(m) && WorkCaps(m, tickets) && Conserved(m) && CreditsOk(m)
  }

  ghost predicate Inv(m: Relay, tickets: Tickets) {
    InvExcept(m, {}, tickets)
  }

  lemma FreshOk(config: Config, generation: nat, now: nat, tickets: Tickets)
    ensures Inv(Fresh(config, generation, now), tickets)
  {
    var m := Fresh(config, generation, now);
    assert forall c :: ActionsOf(m.inflight, c) == {};
    assert forall p :: ActionsTo(m.inflight, p) == {};
    assert forall p :: PendingWith(m.pending, p) == {} && CircuitsWith(m.circuits, p) == {};
    assert forall r :: PendingOn(m.pending, r) == {} && CircuitsOn(m.circuits, r) == {};
  }

  // ---- sets and sums ----

  lemma BytesAdd(inflight: map<nat, Action>, k: nat, a: Action, cid: Id, side: Side)
    requires k !in inflight
    ensures Bytes(inflight[k := a], cid, side) == Bytes(inflight, cid, side) + Weight(a, cid, side)
  {
    SumAdd(inflight, k, a, (x: Action) => Weight(x, cid, side));
  }

  lemma BytesRemove(inflight: map<nat, Action>, k: nat, cid: Id, side: Side)
    requires k in inflight
    ensures Bytes(inflight, cid, side) == Bytes(inflight - {k}, cid, side) + Weight(inflight[k], cid, side)
  {
    SumRemove(inflight, k, (x: Action) => Weight(x, cid, side));
  }

  lemma BytesKeep(inflight: map<nat, Action>, kept: map<nat, Action>, cid: Id, side: Side)
    requires Submap(kept, inflight) && forall k :: k in inflight && k !in kept ==> Weight(inflight[k], cid, side) == 0
    ensures Bytes(kept, cid, side) == Bytes(inflight, cid, side)
  {
    SumKeep(inflight, kept, (x: Action) => Weight(x, cid, side));
  }

  lemma NoBytes(inflight: map<nat, Action>, cid: Id, side: Side)
    requires forall k :: k in inflight ==> Weight(inflight[k], cid, side) == 0
    ensures Bytes(inflight, cid, side) == 0
  {
    BytesKeep(inflight, map[], cid, side);
  }

  // ---- actions come and go ----

  lemma ActionsOfAdd(inflight: map<nat, Action>, k: nat, a: Action, cid: Id)
    requires k !in inflight
    ensures |ActionsOf(inflight[k := a], cid)| == |ActionsOf(inflight, cid)| + if a.circuit == cid then 1 else 0
  {
    var after := inflight[k := a];
    if a.circuit == cid {
      assert ActionsOf(after, cid) == ActionsOf(inflight, cid) + {k};
    } else {
      assert ActionsOf(after, cid) == ActionsOf(inflight, cid);
    }
  }

  lemma ActionsToAdd(inflight: map<nat, Action>, k: nat, a: Action, peer: Peer)
    requires k !in inflight
    ensures |ActionsTo(inflight[k := a], peer)| == |ActionsTo(inflight, peer)| + if a.destination == peer then 1 else 0
  {
    var after := inflight[k := a];
    if a.destination == peer {
      assert ActionsTo(after, peer) == ActionsTo(inflight, peer) + {k};
    } else {
      assert ActionsTo(after, peer) == ActionsTo(inflight, peer);
    }
  }

  lemma ActionCapsAdd(m: Relay, k: nat, a: Action)
    requires ActionCaps(m) && HasRoom(m, m.inflight, a.destination, a.circuit) && k !in m.inflight
    ensures ActionCaps(m.(inflight := m.inflight[k := a]))
  {
    var after := m.inflight[k := a];
    UpdateSize(m.inflight, k, a);
    forall c ensures |ActionsOf(after, c)| <= m.config.maxActionsPerCircuit {
      ActionsOfAdd(m.inflight, k, a, c);
    }
    forall p ensures |ActionsTo(after, p)| <= m.config.maxActionsPerPeer {
      ActionsToAdd(m.inflight, k, a, p);
    }
  }

  lemma ActionCapsShrink(m: Relay, kept: map<nat, Action>)
    requires ActionCaps(m) && Submap(kept, m.inflight)
    ensures ActionCaps(m.(inflight := kept))
  {
    SubmapSize(kept, m.inflight);
    forall c ensures |ActionsOf(kept, c)| <= m.config.maxActionsPerCircuit {
      Subset(ActionsOf(kept, c), ActionsOf(m.inflight, c));
    }
    forall p ensures |ActionsTo(kept, p)| <= m.config.maxActionsPerPeer {
      Subset(ActionsTo(kept, p), ActionsTo(m.inflight, p));
    }
  }

  lemma QueueAccounted(m: Relay, a: Action, exempt: set<Id>)
    requires Shape(m) && Accounted(m, exempt) && (a.kind.IsData? ==> a.circuit in exempt)
    ensures Accounted(m.(inflight := m.inflight[m.next := a], next := m.next + 1), exempt)
  {
    var n := m.(inflight := m.inflight[m.next := a], next := m.next + 1);
    forall c | c in n.circuits && c !in exempt ensures CircuitAccounted(n, c) {
      assert CircuitAccounted(m, c);
      BytesAdd(m.inflight, m.next, a, c, RequesterSide);
      BytesAdd(m.inflight, m.next, a, c, EndpointSide);
    }
  }

  lemma WorkSame(m: Relay, n: Relay, tickets: Tickets)
    requires WorkCaps(m, tickets) && n.config == m.config && n.pending == m.pending && n.circuits == m.circuits
    ensures WorkCaps(n, tickets)
  {
    assert forall p :: PeerWork(n, p) == PeerWork(m, p);
    assert forall r :: ReservationWork(n, r) == ReservationWork(m, r);
  }

  /** Queueing an action that fits leaves the invariant; an action with bytes belongs to an exempt circuit. */
  lemma QueueKeeps(m: Relay, cid: Id, r: Route, kind: Kind, exempt: set<Id>, tickets: Tickets)
    requires InvExcept(m, exempt, tickets)
    requires ActionOk(m, Action(cid, r.destination, kind)) && (cid in m.pending ==> OnlyCloses(m.inflight, cid))
    requires kind.IsData? ==> cid in exempt
    ensures InvExcept(Queue(m, cid, r, kind).relay, exempt, tickets)
  {
    hide WorkCaps;
    var n := Queue(m, cid, r, kind).relay;
    if n != m {
      var a := Action(cid, r.destination, kind);
      ActionCapsAdd(m, m.next, a);
      QueueAccounted(m, a, exempt);
      QueueShape(m, a);
      WorkSame(m, n, tickets);
    }
  }

  lemma QueueShape(m: Relay, a: Action)
    requires Shape(m) && ActionOk(m, a) && (a.circuit in m.pending ==> OnlyCloses(m.inflight, a.circuit))
    ensures Shape(m.(inflight := m.inflight[m.next := a], next := m.next + 1))
  {
  }

  /** Closures for work that is gone. */
  lemma {:induction false} QueueClosesKeeps(m: Relay, cid: Id, routes: seq<Route>, exempt: set<Id>, tickets: Tickets)
    requires InvExcept(m, exempt, tickets) && cid !in m.pending && cid !in m.circuits
    ensures InvExcept(QueueCloses(m, cid, routes).relay, exempt, tickets)
    ensures var n := QueueCloses(m, cid, routes).relay; n.pending == m.pending && n.circuits == m.circuits && n.usage == m.usage && n.counters == m.counters
    decreases |routes|
  {
    hide InvExcept;
    if routes != [] {
      QueueKeeps(m, cid, routes[0], IsClose, exempt, tickets);
      QueueClosesKeeps(Queue(m, cid, routes[0], IsClose).relay, cid, routes[1..], exempt, tickets);
    }
  }

  // ---- work leaves ----

  lemma WorkShrinks(m: Relay, n: Relay, tickets: Tickets)
    requires WorkCaps(m, tickets) && n.config == m.config && Submap(n.pending, m.pending) && Submap(n.circuits, m.circuits)
    ensures WorkCaps(n, tickets)
  {
    SubmapSize(n.pending, m.pending);
    SubmapSize(n.circuits, m.circuits);
    forall p ensures PeerWork(n, p) <= m.config.maxPerPeer {
      Subset(PendingWith(n.pending, p), PendingWith(m.pending, p));
      Subset(CircuitsWith(n.circuits, p), CircuitsWith(m.circuits, p));
      assert PeerWork(m, p) <= m.config.maxPerPeer;
    }
    forall r ensures ReservationWork(n, r) <= tickets(r).maxActive {
      Subset(PendingOn(n.pending, r), PendingOn(m.pending, r));
      Subset(CircuitsOn(n.circuits, r), CircuitsOn(m.circuits, r));
      assert ReservationWork(m, r) <= tickets(r).maxActive;
    }
  }

  lemma RemovedConserves(m: Relay, cid: Id)
    requires Conserved(m) && (cid in m.pending || cid in m.circuits) && (cid in m.pending ==> cid !in m.circuits)
    ensures Conserved(Removed(m, cid))
  {
    RemoveSize(m.pending, cid);
    RemoveSize(m.circuits, cid);
  }

  lemma RemovedShape(m: Relay, cid: Id)
    requires Shape(m)
    ensures Shape(Removed(m, cid))
  {
  }

  lemma RemovedAccounted(m: Relay, cid: Id, exempt: set<Id>)
    requires Accounted(m, exempt)
    ensures Accounted(Removed(m, cid), exempt)
  {
    var n := Removed(m, cid);
    forall c | c in n.circuits && c !in exempt ensures CircuitAccounted(n, c) {
      assert CircuitAccounted(m, c);
      BytesKeep(m.inflight, n.inflight, c, RequesterSide);
      BytesKeep(m.inflight, n.inflight, c, EndpointSide);
    }
  }

  lemma RemovedKeeps(m: Relay, cid: Id, exempt: set<Id>, tickets: Tickets)
    requires InvExcept(m, exempt, tickets) && (cid in m.pending || cid in m.circuits)
    ensures InvExcept(Removed(m, cid), exempt, tickets)
  {
    RemovedShape(m, cid);
    RemovedAccounted(m, cid, exempt);
    ActionCapsShrink(m, Without(m.inflight, cid));
    WorkShrinks(m, Removed(m, cid), tickets);
    RemovedConserves(m, cid);
  }

  /** The exact set of work that a revocation leaves. */
  ghost predicate Leaves(m: Relay, n: Relay, gone: set<Id>) {
    && n.pending == m.pending - gone && n.circuits == m.circuits - gone
    && n.config == m.config && n.generation == m.generation && n.enabled == m.enabled && n.time == m.time && n.usage == m.usage
  }

  lemma LeavesNothing(m: Relay, cid: Id)
    requires cid !in m.pending && cid !in m.circuits
    ensures Leaves(m, m, {cid})
  {
    assert m.circuits - {cid} == m.circuits && m.pending - {cid} == m.pending;
  }

  lemma RevokeCircuitKeeps(m: Relay, cid: Id, exempt: set<Id>, tickets: Tickets)
    requires InvExcept(m, exempt, tickets) && cid !in m.pending
    ensures InvExcept(RevokeCircuit(m, cid).relay, exempt, tickets)
    ensures Leaves(m, RevokeCircuit(m, cid).relay, {cid})
  {
    hide InvExcept, QueueCloses, Removed, Leaves;
    if cid in m.circuits {
      var c := m.circuits[cid];
      ClosesLeave(m, cid, [Route(c.requester, Close(cid)), Route(c.endpoint, Close(cid))], exempt, tickets);
    } else {
      LeavesNothing(m, cid);
    }
  }

  lemma ClosesLeave(m: Relay, cid: Id, routes: seq<Route>, exempt: set<Id>, tickets: Tickets)
    requires InvExcept(m, exempt, tickets) && (cid in m.pending || cid in m.circuits)
    ensures InvExcept(QueueCloses(Removed(m, cid), cid, routes).relay, exempt, tickets)
    ensures Leaves(m, QueueCloses(Removed(m, cid), cid, routes).relay, {cid})
  {
    RemovedKeeps(m, cid, exempt, tickets);
    QueueClosesKeeps(Removed(m, cid), cid, routes, exempt, tickets);
    ClosesFrame(Removed(m, cid), cid, routes);
  }

  lemma {:induction false} ClosesFrame(m: Relay, cid: Id, routes: seq<Route>)
    ensures var n := QueueCloses(m, cid, routes).relay;
            n == m.(inflight := n.inflight, next := n.next)
    decreases |routes|
  {
    if routes != [] {
      ClosesFrame(Queue(m, cid, routes[0], IsClose).relay, cid, routes[1..]);
    }
  }

  lemma RevokePendingKeeps(m: Relay, cid: Id, why: Reason, exempt: set<Id>, tickets: Tickets)
    requires InvExcept(m, exempt, tickets) && cid !in m.circuits
    ensures var d := if why.Abandon? then AbandonPending(m, cid, why.peer) else RevokePending(m, cid);
            InvExcept(d.relay, exempt, tickets) && Leaves(m, d.relay, {cid})
  {
    hide InvExcept, QueueCloses, Removed, Leaves;
    if cid in m.pending {
      var p := m.pending[cid];
      if why.Abandon? {
        ClosesLeave(m, cid, [if p.requester == why.peer then Route(p.endpoint, Close(cid)) else Route(p.requester, Close(p.context))], exempt, tickets);
      } else {
        ClosesLeave(m, cid, [Route(p.requester, Close(p.context)), Route(p.endpoint, Close(cid))], exempt, tickets);
      }
    } else {
      LeavesNothing(m, cid);
    }
  }

  lemma LeavesTransitive(m: Relay, n: Relay, o: Relay, a: set<Id>, b: set<Id>)
    requires Leaves(m, n, a) && Leaves(n, o, b)
    ensures Leaves(m, o, a + b)
  {
  }

  function Elements(ids: seq<Id>): set<Id> {
    set c | c in ids
  }

  /** Revoking any list of work, in any order, keeps the invariant and removes exactly that work. */
  lemma {:induction false} RevokeEachKeeps(m: Relay, pendings: seq<Id>, circuits: seq<Id>, why: Reason, exempt: set<Id>, tickets: Tickets)
    requires InvExcept(m, exempt, tickets)
    requires (forall c :: c in pendings ==> c !in m.circuits) && (forall c :: c in circuits ==> c !in m.pending)
    ensures var n := RevokeEach(m, pendings, circuits, why).relay;
            InvExcept(n, exempt, tickets) && Leaves(m, n, Elements(pendings) + Elements(circuits))
    decreases |pendings| + |circuits|
  {
    hide InvExcept;
    if pendings != [] {
      var first := if why.Abandon? then AbandonPending(m, pendings[0], why.peer) else RevokePending(m, pendings[0]);
      RevokePendingKeeps(m, pendings[0], why, exempt, tickets);
      RevokeEachKeeps(first.relay, pendings[1..], circuits, why, exempt, tickets);
      LeavesTransitive(m, first.relay, RevokeEach(m, pendings, circuits, why).relay, {pendings[0]}, Elements(pendings[1..]) + Elements(circuits));
      assert Elements(pendings) == {pendings[0]} + Elements(pendings[1..]) by { assert pendings == [pendings[0]] + pendings[1..]; }
      assert {pendings[0]} + (Elements(pendings[1..]) + Elements(circuits)) == Elements(pendings) + Elements(circuits);
    } else if circuits != [] {
      var first := RevokeCircuit(m, circuits[0]);
      RevokeCircuitKeeps(m, circuits[0], exempt, tickets);
      RevokeEachKeeps(first.relay, [], circuits[1..], why, exempt, tickets);
      LeavesTransitive(m, first.relay, RevokeEach(m, pendings, circuits, why).relay, {circuits[0]}, Elements([]) + Elements(circuits[1..]));
      assert Elements(circuits) == {circuits[0]} + Elements(circuits[1..]) by { assert circuits == [circuits[0]] + circuits[1..]; }
      assert {circuits[0]} + (Elements([]) + Elements(circuits[1..])) == Elements(pendings) + Elements(circuits);
    }
  }

  /** Once every exempt circuit is gone, the accounting is whole again. */
  lemma ExemptionEnds(m: Relay, exempt: set<Id>, tickets: Tickets)
    requires InvExcept(m, exempt, tickets) && forall c :: c in exempt ==> c !in m.circuits
    ensures Inv(m, tickets)
  {
  }

  // ---- handlers ----

  /** A circuit identifier drawn at random: unused by any work, though a closure may still name it. */
  ghost predicate Unused(m: Relay, cid: Id) {
    cid !in m.pending && cid !in m.circuits
  }

  lemma UnusedOnlyCloses(m: Relay, cid: Id)
    requires Shape(m) && Unused(m, cid)
    ensures OnlyCloses(m.inflight, cid)
  {
    forall a | a in m.inflight && m.inflight[a].circuit == cid ensures m.inflight[a].kind.IsClose? {
      assert ActionOk(m, m.inflight[a]);
    }
  }

  lemma FrameKeeps(m: Relay, n: Relay, tickets: Tickets)
    requires Inv(m, tickets) && n == m.(time := n.time, usage := n.usage)
    ensures Inv(n, tickets)
  {
    hide WorkCaps, ActionCaps;
    WorkSame(m, n, tickets);
    SameActionCaps(m, n);
    SameAccounts(m, n, {});
  }

  lemma SameAccounts(m: Relay, n: Relay, exempt: set<Id>)
    requires Accounted(m, exempt) && n.config == m.config && n.circuits == m.circuits && n.inflight == m.inflight
    ensures Accounted(n, exempt)
  {
    forall c | c in n.circuits && c !in exempt ensures CircuitAccounted(n, c) {
      assert CircuitAccounted(m, c);
    }
  }

  lemma PendingWithAdd(pending: map<Id, Pending>, cid: Id, p: Pending, q: Peer)
    requires cid !in pending
    ensures |PendingWith(pending[cid := p], q)| == |PendingWith(pending, q)| + if Involves(p.requester, p.endpoint, q) then 1 else 0
  {
    if Involves(p.requester, p.endpoint, q) {
      assert PendingWith(pending[cid := p], q) == PendingWith(pending, q) + {cid};
    } else {
      assert PendingWith(pending[cid := p], q) == PendingWith(pending, q);
    }
  }

  lemma PendingOnAdd(pending: map<Id, Pending>, cid: Id, p: Pending, r: Id)
    requires cid !in pending
    ensures |PendingOn(pending[cid := p], r)| == |PendingOn(pending, r)| + if p.ticket.reservation == r then 1 else 0
  {
    if p.ticket.reservation == r {
      assert PendingOn(pending[cid := p], r) == PendingOn(pending, r) + {cid};
    } else {
      assert PendingOn(pending[cid := p], r) == PendingOn(pending, r);
    }
  }

  lemma CircuitsWithAdd(circuits: map<Id, Circuit>, cid: Id, c: Circuit, q: Peer)
    requires cid !in circuits
    ensures |CircuitsWith(circuits[cid := c], q)| == |CircuitsWith(circuits, q)| + if Involves(c.requester, c.endpoint, q) then 1 else 0
  {
    if Involves(c.requester, c.endpoint, q) {
      assert CircuitsWith(circuits[cid := c], q) == CircuitsWith(circuits, q) + {cid};
    } else {
      assert CircuitsWith(circuits[cid := c], q) == CircuitsWith(circuits, q);
    }
  }

  lemma CircuitsOnAdd(circuits: map<Id, Circuit>, cid: Id, c: Circuit, r: Id)
    requires cid !in circuits
    ensures |CircuitsOn(circuits[cid := c], r)| == |CircuitsOn(circuits, r)| + if c.reservation == r then 1 else 0
  {
    if c.reservation == r {
      assert CircuitsOn(circuits[cid := c], r) == CircuitsOn(circuits, r) + {cid};
    } else {
      assert CircuitsOn(circuits[cid := c], r) == CircuitsOn(circuits, r);
    }
  }

  lemma OpensWork(m: Relay, cid: Id, p: Pending, tickets: Tickets)
    requires WorkCaps(m, tickets) && cid !in m.pending && |m.pending| < m.config.maxPending
    requires PeerWork(m, p.requester) < m.config.maxPerPeer && PeerWork(m, p.endpoint) < m.config.maxPerPeer
    requires p.ticket == tickets(p.ticket.reservation) && ReservationWork(m, p.ticket.reservation) < p.ticket.maxActive
    ensures WorkCaps(Opens(m, cid, p), tickets)
  {
    var n := Opens(m, cid, p);
    UpdateSize(m.pending, cid, p);
    forall q ensures PeerWork(n, q) <= m.config.maxPerPeer {
      assert PeerWork(m, q) <= m.config.maxPerPeer;
      PendingWithAdd(m.pending, cid, p, q);
    }
    forall r ensures ReservationWork(n, r) <= tickets(r).maxActive {
      assert ReservationWork(m, r) <= tickets(r).maxActive;
      PendingOnAdd(m.pending, cid, p, r);
    }
  }

  lemma OpensShape(m: Relay, cid: Id, p: Pending)
    requires Shape(m) && m.enabled && Unused(m, cid)
    ensures Shape(Opens(m, cid, p))
  {
    UnusedOnlyCloses(m, cid);
    var n := Opens(m, cid, p);
    forall a | a in n.inflight ensures ActionOk(n, n.inflight[a]) {
      assert ActionOk(m, m.inflight[a]);
    }
  }

  lemma OpensKeeps(m: Relay, cid: Id, p: Pending, tickets: Tickets)
    requires Inv(m, tickets) && m.enabled && Unused(m, cid) && |m.pending| < m.config.maxPending && p.requester != p.endpoint
    requires PeerWork(m, p.requester) < m.config.maxPerPeer && PeerWork(m, p.endpoint) < m.config.maxPerPeer
    requires p.ticket == tickets(p.ticket.reservation) && ReservationWork(m, p.ticket.reservation) < p.ticket.maxActive
    ensures Inv(Opens(m, cid, p), tickets)
  {
    var n := Opens(m, cid, p);
    OpensShape(m, cid, p);
    OpensWork(m, cid, p, tickets);
    UpdateSize(m.pending, cid, p);
    assert forall c :: c in m.circuits ==> CircuitAccounted(m, c) ==> CircuitAccounted(n, c);
  }

  lemma InvShape(m: Relay, tickets: Tickets)
    requires Inv(m, tickets)
    ensures Shape(m)
  {
  }

  lemma OpenQueued(m: Relay, cid: Id, p: Pending, r: Route, tickets: Tickets)
    requires Inv(m, tickets) && m.enabled && Unused(m, cid) && |m.pending| < m.config.maxPending && p.requester != p.endpoint
    requires PeerWork(m, p.requester) < m.config.maxPerPeer && PeerWork(m, p.endpoint) < m.config.maxPerPeer
    requires p.ticket == tickets(p.ticket.reservation) && ReservationWork(m, p.ticket.reservation) < p.ticket.maxActive
    requires r.destination == p.endpoint
    ensures Inv(Queue(Opens(m, cid, p), cid, r, IsIncoming).relay, tickets)
  {
    hide InvExcept, PeerWork, ReservationWork;
    assert OnlyCloses(m.inflight, cid) by {
      InvShape(m, tickets);
      UnusedOnlyCloses(m, cid);
    }
    OpensKeeps(m, cid, p, tickets);
    QueueKeeps(Opens(m, cid, p), cid, r, IsIncoming, {}, tickets);
  }

  lemma SameWork(m: Relay, n: Relay, p: Peer, r: Id)
    requires n.pending == m.pending && n.circuits == m.circuits
    ensures PeerWork(n, p) == PeerWork(m, p) && ReservationWork(n, r) == ReservationWork(m, r)
  {
  }

  lemma HandleOpenKeeps(m: Relay, source: Peer, p: Packet, admission: Option<Admission>, cid: Id, now: nat, tickets: Tickets)
    requires Inv(m, tickets) && p.Open? && m.enabled && Unused(m, cid)
    requires admission.Some? ==> admission.value.ticket == tickets(p.reservation) && admission.value.ticket.reservation == p.reservation
    ensures Inv(HandleOpen(m, source, p, admission, cid, now).relay, tickets)
  {
    hide InvExcept, Queue, Opens, PeerWork, ReservationWork, HasRoom;
    if !OpenBlocked(m, source, p.context) && p.WellFormed() && admission.Some? {
      var t := admission.value.ticket;
      var endpoint := admission.value.endpoint;
      var live := m.(usage := LiveUsage(m.usage, now));
      var u := if t.reservation in live.usage then live.usage[t.reservation] else Usage(0, t.expires);
      var charged := live.(usage := live.usage[t.reservation := u]);
      FrameKeeps(m, live, tickets);
      FrameKeeps(m, charged, tickets);
      if endpoint != source && PeerWork(m, endpoint) < m.config.maxPerPeer && ReservationWork(m, p.reservation) < t.maxActive {
        var q := Pending(source, endpoint, p.context, t, p.window, Min(now + m.config.acceptTimeout, t.expires));
        SameWork(m, charged, source, p.reservation);
        SameWork(m, charged, endpoint, p.reservation);
        OpenQueued(charged, cid, q, Route(endpoint, Incoming(cid, p.context, p.window)), tickets);
      }
    }
  }

  lemma PromotedSameWork(m: Relay, cid: Id, window: nat, p: Peer, r: Id)
    requires cid in m.pending && cid !in m.circuits
    ensures PeerWork(Promoted(m, cid, window), p) == PeerWork(m, p)
    ensures ReservationWork(Promoted(m, cid, window), r) == ReservationWork(m, r)
  {
    hide PendingWith, CircuitsWith, PendingOn, CircuitsOn;
    var q := m.pending[cid];
    var rest := m.pending - {cid};
    assert m.pending == rest[cid := q];
    PendingWithAdd(rest, cid, q, p);
    CircuitsWithAdd(m.circuits, cid, Established(m, q, window), p);
    PendingOnAdd(rest, cid, q, r);
    CircuitsOnAdd(m.circuits, cid, Established(m, q, window), r);
  }

  lemma PromotedWork(m: Relay, cid: Id, window: nat, tickets: Tickets)
    requires WorkCaps(m, tickets) && cid in m.pending && cid !in m.circuits && |m.circuits| < m.config.maxCircuits
    ensures WorkCaps(Promoted(m, cid, window), tickets)
  {
    hide PeerWork, ReservationWork;
    var n := Promoted(m, cid, window);
    RemoveSize(m.pending, cid);
    UpdateSize(m.circuits, cid, n.circuits[cid]);
    forall p ensures PeerWork(n, p) <= m.config.maxPerPeer {
      assert PeerWork(m, p) <= m.config.maxPerPeer;
      PromotedSameWork(m, cid, window, p, 0);
    }
    forall r ensures ReservationWork(n, r) <= tickets(r).maxActive {
      assert ReservationWork(m, r) <= tickets(r).maxActive;
      PromotedSameWork(m, cid, window, 0, r);
    }
  }

  lemma PromotedAccounted(m: Relay, cid: Id, window: nat)
    requires Accounted(m, {}) && cid in m.pending && cid !in m.circuits
    ensures Accounted(Promoted(m, cid, window), {})
  {
    var n := Promoted(m, cid, window);
    forall c | c in n.circuits ensures CircuitAccounted(n, c) {
      if c == cid {
        NoBytes(n.inflight, c, RequesterSide);
        NoBytes(n.inflight, c, EndpointSide);
      } else {
        assert CircuitAccounted(m, c);
        BytesKeep(m.inflight, n.inflight, c, RequesterSide);
        BytesKeep(m.inflight, n.inflight, c, EndpointSide);
      }
    }
  }

  lemma PromotedShape(m: Relay, cid: Id, window: nat)
    requires Shape(m) && cid in m.pending && m.enabled
    ensures Shape(Promoted(m, cid, window))
  {
  }

  lemma PromotedKeeps(m: Relay, cid: Id, window: nat, tickets: Tickets)
    requires Inv(m, tickets) && cid in m.pending && m.enabled && |m.circuits| < m.config.maxCircuits && window <= MAX_WINDOW
    ensures Inv(Promoted(m, cid, window), tickets)
  {
    hide WorkCaps, ActionCaps;
    PromotedShape(m, cid, window);
    PromotedWork(m, cid, window, tickets);
    PromotedAccounted(m, cid, window);
    ActionCapsShrink(m, Without(m.inflight, cid));
    SameActionCaps(m.(inflight := Without(m.inflight, cid)), Promoted(m, cid, window));
    RemoveSize(m.pending, cid);
    UpdateSize(m.circuits, cid, Promoted(m, cid, window).circuits[cid]);
  }

  lemma SameActionCaps(m: Relay, n: Relay)
    requires ActionCaps(m) && m.config == n.config && m.inflight == n.inflight
    ensures ActionCaps(n)
  {
  }

  lemma HandleAcceptKeeps(m: Relay, source: Peer, p: Packet, now: nat, tickets: Tickets)
    requires Inv(m, tickets) && p.Accept? && m.enabled
    ensures Inv(HandleAccept(m, source, p, now).relay, tickets)
  {
    hide InvExcept;
    if p.circuit in m.pending && p.WellFormed() && |m.circuits| < m.config.maxCircuits {
      PromotedKeeps(m, p.circuit, p.window, tickets);
      var q := m.pending[p.circuit];
      QueueKeeps(Promoted(m, p.circuit, p.window), p.circuit, Route(q.requester, Opened(q.context, p.circuit, p.window)), IsOpened, {}, tickets);
    }
  }

  /** One circuit's numbers change, its peers do not. */
  lemma UpdateShape(m: Relay, cid: Id, c: Circuit)
    requires Shape(m) && cid in m.circuits && c.requester == m.circuits[cid].requester && c.endpoint == m.circuits[cid].endpoint
    ensures Shape(m.(circuits := m.circuits[cid := c]))
  {
  }

  lemma UpdateWork(m: Relay, cid: Id, c: Circuit, tickets: Tickets)
    requires WorkCaps(m, tickets) && cid in m.circuits && c.requester == m.circuits[cid].requester && c.endpoint == m.circuits[cid].endpoint
    requires c.reservation == m.circuits[cid].reservation
    ensures WorkCaps(m.(circuits := m.circuits[cid := c]), tickets)
  {
    var n := m.(circuits := m.circuits[cid := c]);
    UpdateSize(m.circuits, cid, c);
    forall p ensures PeerWork(n, p) <= m.config.maxPerPeer {
      assert PeerWork(m, p) <= m.config.maxPerPeer;
      assert CircuitsWith(n.circuits, p) == CircuitsWith(m.circuits, p);
    }
    forall r ensures ReservationWork(n, r) <= tickets(r).maxActive {
      assert ReservationWork(m, r) <= tickets(r).maxActive;
      assert CircuitsOn(n.circuits, r) == CircuitsOn(m.circuits, r);
    }
  }

  /** A circuit's numbers change while its own accounting is suspended. */
  lemma UpdateKeeps(m: Relay, cid: Id, c: Circuit, exempt: set<Id>, tickets: Tickets)
    requires InvExcept(m, exempt, tickets) && cid in m.circuits && c.requester == m.circuits[cid].requester && c.endpoint == m.circuits[cid].endpoint
    requires c.reservation == m.circuits[cid].reservation
    requires c.requesterCredit <= MAX_WINDOW && c.endpointCredit <= MAX_WINDOW && c.forwarded <= c.maxBytes
    requires cid in exempt || (c.toRequester == m.circuits[cid].toRequester && c.toEndpoint == m.circuits[cid].toEndpoint)
    ensures InvExcept(m.(circuits := m.circuits[cid := c]), exempt, tickets)
  {
    hide WorkCaps, ActionCaps;
    var n := m.(circuits := m.circuits[cid := c]);
    UpdateShape(m, cid, c);
    UpdateWork(m, cid, c, tickets);
    SameActionCaps(m, n);
    UpdateSize(m.circuits, cid, c);
    forall d | d in n.circuits && d !in exempt ensures CircuitAccounted(n, d) {
      assert CircuitAccounted(m, d);
    }
  }

  lemma HandleWindowKeeps(m: Relay, source: Peer, p: Packet, tickets: Tickets)
    requires Inv(m, tickets) && p.Window?
    ensures Inv(HandleWindow(m, source, p).relay, tickets)
  {
    hide InvExcept, Queue, HasRoom;
    if p.circuit in m.circuits {
      var cid, c := p.circuit, m.circuits[p.circuit];
      var side := SideOf(c, source);
      if side.Some? && CreditOf(c, Other(side.value)) + p.delta <= MAX_WINDOW {
        var granted := Granted(c, side.value, p.delta);
        NotPending(m, cid, {}, tickets);
        CreditBounds(m, cid, tickets);
        UpdateKeeps(m, cid, granted, {}, tickets);
        QueueKeeps(m.(circuits := m.circuits[cid := granted]), cid, Route(PeerOn(c, Other(side.value)), p), IsControl, {}, tickets);
      }
    }
  }

  lemma CreditBounds(m: Relay, cid: Id, tickets: Tickets)
    requires Inv(m, tickets) && cid in m.circuits
    ensures m.circuits[cid].requesterCredit <= MAX_WINDOW && m.circuits[cid].endpointCredit <= MAX_WINDOW
    ensures m.circuits[cid].forwarded <= m.circuits[cid].maxBytes
  {
  }

  /** Forwarding DATA: the circuit's accounting is suspended until the action that carries the bytes is queued. */
  lemma ForwardedKeeps(m: Relay, cid: Id, from: Side, n: nat, tickets: Tickets)
    requires Inv(m, tickets) && cid in m.circuits && n <= CreditOf(m.circuits[cid], from) && m.circuits[cid].reservation in m.usage
    requires SaturatingAdd(m.circuits[cid].forwarded, n) <= m.circuits[cid].maxBytes
    ensures InvExcept(Forwarded(m, cid, from, n), {cid}, tickets)
  {
    var f := Forwarded(m, cid, from, n);
    assert CreditsOk(m);
    Suspend(m, cid, tickets);
    UpdateKeeps(m, cid, Spent(m.circuits[cid], from, n), {cid}, tickets);
    CountersKeep(m.(circuits := f.circuits), f, {cid}, tickets);
  }

  lemma Suspend(m: Relay, cid: Id, tickets: Tickets)
    requires Inv(m, tickets)
    ensures InvExcept(m, {cid}, tickets)
  {
  }

  lemma CountersKeep(m: Relay, n: Relay, exempt: set<Id>, tickets: Tickets)
    requires InvExcept(m, exempt, tickets) && n == m.(usage := n.usage, counters := n.counters)
    requires n.counters.admitted == m.counters.admitted && n.counters.revoked == m.counters.revoked
    ensures InvExcept(n, exempt, tickets)
  {
    hide WorkCaps, ActionCaps, Accounted;
    WorkSame(m, n, tickets);
    SameActionCaps(m, n);
    SameAccounts(m, n, exempt);
  }

  /** The action is queued, and the count is exact again. */
  lemma DataAccounted(m: Relay, cid: Id, from: Side, n: nat, tickets: Tickets)
    requires Inv(m, tickets) && cid in m.circuits && n <= CreditOf(m.circuits[cid], from) && m.circuits[cid].reservation in m.usage
    requires QueuedTo(m.circuits[cid], Other(from)) + n <= m.config.maxQueue
    ensures var f := Forwarded(m, cid, from, n);
            var a := Action(cid, PeerOn(m.circuits[cid], Other(from)), IsData(Other(from), n));
            CircuitAccounted(f.(inflight := f.inflight[f.next := a], next := f.next + 1), cid)
  {
    var a := Action(cid, PeerOn(m.circuits[cid], Other(from)), IsData(Other(from), n));
    assert CircuitAccounted(m, cid);
    BytesAdd(m.inflight, m.next, a, cid, RequesterSide);
    BytesAdd(m.inflight, m.next, a, cid, EndpointSide);
  }

  lemma ExemptionLifted(m: Relay, cid: Id, tickets: Tickets)
    requires InvExcept(m, {cid}, tickets) && cid in m.circuits && CircuitAccounted(m, cid)
    ensures Inv(m, tickets)
  {
  }

  /** DATA that passes every check, while sequence numbers are left. */
  lemma DataKeeps(m: Relay, cid: Id, from: Side, p: Packet, tickets: Tickets)
    requires Inv(m, tickets) && p.Data? && cid in m.circuits && p.bytes <= CreditOf(m.circuits[cid], from) && m.circuits[cid].reservation in m.usage
    requires SaturatingAdd(m.circuits[cid].forwarded, p.bytes) <= m.circuits[cid].maxBytes
    requires QueuedTo(m.circuits[cid], Other(from)) + p.bytes <= m.config.maxQueue
    requires HasRoom(m, m.inflight, PeerOn(m.circuits[cid], Other(from)), cid) && m.next < U64_MAX
    ensures Inv(Queue(Forwarded(m, cid, from, p.bytes), cid, Route(PeerOn(m.circuits[cid], Other(from)), p), IsData(Other(from), p.bytes)).relay, tickets)
  {
    hide InvExcept, CircuitAccounted;
    var f := Forwarded(m, cid, from, p.bytes);
    var r := Route(PeerOn(m.circuits[cid], Other(from)), p);
    ForwardedKeeps(m, cid, from, p.bytes, tickets);
    NotPending(f, cid, {cid}, tickets);
    QueueKeeps(f, cid, r, IsData(Other(from), p.bytes), {cid}, tickets);
    DataAccounted(m, cid, from, p.bytes, tickets);
    ExemptionLifted(Queue(f, cid, r, IsData(Other(from), p.bytes)).relay, cid, tickets);
  }

  lemma NotPending(m: Relay, cid: Id, exempt: set<Id>, tickets: Tickets)
    requires InvExcept(m, exempt, tickets) && cid in m.circuits
    ensures cid !in m.pending
  {
  }

  lemma HandleDataKeeps(m: Relay, source: Peer, p: Packet, tickets: Tickets)
    requires Inv(m, tickets) && p.Data? && m.next < U64_MAX
    ensures Inv(HandleData(m, source, p).relay, tickets)
  {
    hide InvExcept;
    if p.circuit in m.circuits && SideOf(m.circuits[p.circuit], source).Some? && HandleData(m, source, p).result.Ok? {
      DataKeeps(m, p.circuit, SideOf(m.circuits[p.circuit], source).value, p, tickets);
    }
  }

  lemma HandleCloseKeeps(m: Relay, source: Peer, p: Packet, tickets: Tickets)
    requires Inv(m, tickets) && p.Close?
    ensures Inv(HandleClose(m, source, p).relay, tickets)
  {
    hide InvExcept, Removed, Queue;
    forall cid, r: Route | cid in m.pending || cid in m.circuits ensures Inv(Queue(Removed(m, cid), cid, r, IsClose).relay, tickets) {
      ClosedKeeps(m, cid, r, tickets);
    }
  }

  lemma ClosedKeeps(m: Relay, cid: Id, r: Route, tickets: Tickets)
    requires Inv(m, tickets) && (cid in m.pending || cid in m.circuits)
    ensures Inv(Queue(Removed(m, cid), cid, r, IsClose).relay, tickets)
  {
    hide InvExcept;
    RemovedKeeps(m, cid, {}, tickets);
    QueueKeeps(Removed(m, cid), cid, r, IsClose, {}, tickets);
  }

  /** What the environment guarantees of an open: a fresh identifier, and the reservation's one ticket. */
  ghost predicate Sane(m: Relay, p: Packet, admission: Option<Admission>, cid: Id, tickets: Tickets) {
    p.Open? ==>
      && Unused(m, cid)
      && (admission.Some? ==> admission.value.ticket == tickets(p.reservation) && admission.value.ticket.reservation == p.reservation)
  }

  lemma HandleKeeps(m: Relay, source: Peer, p: Packet, now: nat, admission: Option<Admission>, cid: Id, tickets: Tickets)
    requires Inv(m, tickets) && Sane(m, p, admission, cid, tickets) && m.next < U64_MAX
    ensures Inv(Handle(m, source, p, now, admission, cid).relay, tickets)
  {
    hide InvExcept, HandleOpen, HandleAccept, HandleData, HandleWindow, HandleClose;
    if now >= m.time {
      var t := m.(time := now);
      FrameKeeps(m, t, tickets);
      if m.enabled {
        match p
        case Open(_, _, _) => HandleOpenKeeps(t, source, p, admission, cid, now, tickets);
        case Accept(_, _) => HandleAcceptKeeps(t, source, p, now, tickets);
        case Data(_, _) => HandleDataKeeps(t, source, p, tickets);
        case Window(_, _) => HandleWindowKeeps(t, source, p, tickets);
        case Close(_) => HandleCloseKeeps(t, source, p, tickets);
        case _ =>
      }
    }
  }

  // ---- acknowledgements ----

  lemma AckShape(m: Relay, k: nat)
    requires Shape(m)
    ensures Shape(m.(inflight := m.inflight - {k}))
  {
  }

  lemma AckAccounted(m: Relay, k: nat)
    requires Accounted(m, {}) && k in m.inflight
    ensures Accounted(Released(m.(inflight := m.inflight - {k}), m.inflight[k]), {})
  {
    var r := Released(m.(inflight := m.inflight - {k}), m.inflight[k]);
    forall c | c in r.circuits ensures CircuitAccounted(r, c) {
      assert CircuitAccounted(m, c);
      BytesRemove(m.inflight, k, c, RequesterSide);
      BytesRemove(m.inflight, k, c, EndpointSide);
    }
  }

  lemma ReleasedKeeps(m: Relay, k: nat, tickets: Tickets)
    requires Inv(m, tickets) && k in m.inflight
    ensures Inv(Released(m.(inflight := m.inflight - {k}), m.inflight[k]), tickets)
  {
    hide WorkCaps, ActionCaps, Accounted;
    var a := m.inflight[k];
    var s := m.(inflight := m.inflight - {k});
    var r := Released(s, a);
    AckShape(m, k);
    AckAccounted(m, k);
    ActionCapsShrink(m, m.inflight - {k});
    WorkSame(m, s, tickets);
    if r != s {
      UpdateShape(s, a.circuit, r.circuits[a.circuit]);
      UpdateWork(s, a.circuit, r.circuits[a.circuit], tickets);
      UpdateSize(s.circuits, a.circuit, r.circuits[a.circuit]);
      SameActionCaps(s, r);
    }
  }

  lemma WithdrawnShape(m: Relay, cid: Id)
    requires Shape(m) && OnlyCloses(m.inflight, cid)
    ensures Shape(m.(pending := m.pending - {cid}, counters := Revoked(m.counters)))
  {
  }

  lemma Parts(m: Relay, exempt: set<Id>, tickets: Tickets)
    ensures InvExcept(m, exempt, tickets) <==>
            Shape(m) && Accounted(m, exempt) && ActionCaps(m) && WorkCaps(m, tickets) && Conserved(m) && CreditsOk(m)
  {
  }

  /** A pending open that has only closures in flight goes, and leaves them there. */
  lemma WithdrawnKeeps(m: Relay, cid: Id, tickets: Tickets)
    requires Inv(m, tickets) && cid in m.pending && OnlyCloses(m.inflight, cid)
    ensures Inv(m.(pending := m.pending - {cid}, counters := Revoked(m.counters)), tickets)
  {
    hide InvExcept, Shape, ActionCaps, WorkCaps, Accounted, Without, OnlyCloses, Conserved, CreditsOk;
    var n := m.(pending := m.pending - {cid}, counters := Revoked(m.counters));
    assert m.circuits - {cid} == m.circuits by {
      NotACircuit(m, cid, tickets);
    }
    RemovedKeeps(m, cid, {}, tickets);
    Parts(m, {}, tickets);
    Parts(Removed(m, cid), {}, tickets);
    Parts(n, {}, tickets);
    WithdrawnShape(m, cid);
    SameBooks(Removed(m, cid), n);
    WorkSame(Removed(m, cid), n, tickets);
    SameActionCaps(m, n);
    SameAccounts(m, n, {});
  }

  lemma SameBooks(m: Relay, n: Relay)
    requires n.pending == m.pending && n.circuits == m.circuits && n.counters == m.counters
    ensures Conserved(m) <==> Conserved(n)
    ensures CreditsOk(m) <==> CreditsOk(n)
  {
  }

  lemma NotACircuit(m: Relay, cid: Id, tickets: Tickets)
    requires Inv(m, tickets) && cid in m.pending
    ensures cid !in m.circuits
  {
  }

  /** The endpoint never saw its INCOMING, the one action of the pending open. */
  lemma IncomingLost(m: Relay, k: nat, tickets: Tickets)
    requires Inv(m, tickets) && k in m.inflight && m.inflight[k].kind.IsIncoming?
    ensures m.inflight[k].circuit in m.pending && OnlyCloses(m.inflight - {k}, m.inflight[k].circuit)
  {
    assert ActionOk(m, m.inflight[k]);
  }

  lemma NotDelivered(m: Relay, r: Relay, k: nat, tickets: Tickets)
    requires Inv(m, tickets) && k in m.inflight && m.inflight[k].kind.IsIncoming?
    requires r == m.(inflight := m.inflight - {k}) && Inv(r, tickets)
    ensures var cid := m.inflight[k].circuit;
            && cid in r.pending
            && forall route: Route :: Inv(Queue(r.(pending := r.pending - {cid}, counters := Revoked(r.counters)), cid, route, IsClose).relay, tickets)
  {
    hide InvExcept, Queue;
    IncomingLost(m, k, tickets);
    var cid := m.inflight[k].circuit;
    WithdrawnKeeps(r, cid, tickets);
    forall route: Route ensures Inv(Queue(r.(pending := r.pending - {cid}, counters := Revoked(r.counters)), cid, route, IsClose).relay, tickets) {
      QueueKeeps(r.(pending := r.pending - {cid}, counters := Revoked(r.counters)), cid, route, IsClose, {}, tickets);
    }
  }

  lemma LiveAction(m: Relay, k: nat, tickets: Tickets)
    requires Inv(m, tickets) && k in m.inflight && !m.inflight[k].kind.IsIncoming? && !m.inflight[k].kind.IsClose?
    ensures m.inflight[k].circuit in m.circuits && m.inflight[k].circuit !in m.pending
  {
    assert ActionOk(m, m.inflight[k]);
  }

  lemma AcknowledgeKeeps(m: Relay, generation: nat, k: nat, delivered: bool, tickets: Tickets)
    requires Inv(m, tickets)
    ensures Inv(Acknowledge(m, generation, k, delivered).relay, tickets)
  {
    hide InvExcept, Queue, RevokeCircuit;
    if k in m.inflight {
      ReleasedKeeps(m, k, tickets);
      var a := m.inflight[k];
      var r := Released(m.(inflight := m.inflight - {k}), a);
      if a.kind.IsIncoming? {
        NotDelivered(m, r, k, tickets);
      } else if !a.kind.IsClose? {
        LiveAction(m, k, tickets);
        RevokeCircuitKeeps(r, a.circuit, {}, tickets);
      }
    }
  }

  // ---- revoking many ----

  lemma DisconnectedAccounted(m: Relay, peer: Peer)
    requires Shape(m) && Accounted(m, {})
    ensures Accounted(m.(inflight := AwayFrom(m.inflight, peer)), CircuitsWith(m.circuits, peer))
  {
    var kept := AwayFrom(m.inflight, peer);
    var n := m.(inflight := kept);
    forall c | c in n.circuits && c !in CircuitsWith(m.circuits, peer) ensures CircuitAccounted(n, c) {
      assert CircuitAccounted(m, c);
      forall a | a in m.inflight && a !in kept ensures Weight(m.inflight[a], c, RequesterSide) == 0 && Weight(m.inflight[a], c, EndpointSide) == 0 {
        assert ActionOk(m, m.inflight[a]);
      }
      BytesKeep(m.inflight, kept, c, RequesterSide);
      BytesKeep(m.inflight, kept, c, EndpointSide);
    }
  }

  lemma DisconnectedKeeps(m: Relay, peer: Peer, tickets: Tickets)
    requires Inv(m, tickets)
    ensures InvExcept(m.(inflight := AwayFrom(m.inflight, peer)), CircuitsWith(m.circuits, peer), tickets)
  {
    hide WorkCaps, ActionCaps, Accounted, CircuitsWith;
    DisconnectedAccounted(m, peer);
    ActionCapsShrink(m, AwayFrom(m.inflight, peer));
    WorkSame(m, m.(inflight := AwayFrom(m.inflight, peer)), tickets);
  }

  lemma DisconnectKeeps(m: Relay, peer: Peer, pendings: seq<Id>, circuits: seq<Id>, tickets: Tickets)
    requires Inv(m, tickets) && Lists(pendings, PendingWith(m.pending, peer)) && Lists(circuits, CircuitsWith(m.circuits, peer))
    ensures Inv(Disconnect(m, peer, pendings, circuits).relay, tickets)
    ensures PeerWork(Disconnect(m, peer, pendings, circuits).relay, peer) == 0
  {
    hide InvExcept, RevokeEach;
    DisconnectedKeeps(m, peer, tickets);
    var n := m.(inflight := AwayFrom(m.inflight, peer));
    ListedPending(m, pendings, PendingWith(m.pending, peer), circuits, CircuitsWith(m.circuits, peer), tickets);
    RevokeEachKeeps(n, pendings, circuits, Abandon(peer), CircuitsWith(m.circuits, peer), tickets);
    var d := Disconnect(m, peer, pendings, circuits).relay;
    ExemptionEnds(d, CircuitsWith(m.circuits, peer), tickets);
    NoWorkLeft(m, d, peer, Elements(pendings) + Elements(circuits));
  }

  lemma ListedPending(m: Relay, pendings: seq<Id>, ps: set<Id>, circuits: seq<Id>, cs: set<Id>, tickets: Tickets)
    requires Inv(m, tickets) && Lists(pendings, ps) && ps <= m.pending.Keys && Lists(circuits, cs) && cs <= m.circuits.Keys
    ensures (forall c :: c in pendings ==> c !in m.circuits) && (forall c :: c in circuits ==> c !in m.pending)
    ensures Elements(pendings) == ps && Elements(circuits) == cs
  {
  }

  lemma NoWorkLeft(m: Relay, d: Relay, peer: Peer, gone: set<Id>)
    requires d.pending == m.pending - gone && d.circuits == m.circuits - gone
    requires PendingWith(m.pending, peer) <= gone && CircuitsWith(m.circuits, peer) <= gone
    ensures PeerWork(d, peer) == 0
  {
    assert PendingWith(d.pending, peer) <= PendingWith(m.pending, peer);
    assert CircuitsWith(d.circuits, peer) <= CircuitsWith(m.circuits, peer);
    assert PendingWith(d.pending, peer) == {} && CircuitsWith(d.circuits, peer) == {};
  }

  lemma RevokeReservationKeeps(m: Relay, reservation: Id, pendings: seq<Id>, circuits: seq<Id>, tickets: Tickets)
    requires Inv(m, tickets) && Lists(pendings, PendingOn(m.pending, reservation)) && Lists(circuits, CircuitsOn(m.circuits, reservation))
    ensures Inv(RevokeReservation(m, reservation, pendings, circuits).relay, tickets)
    ensures ReservationWork(RevokeReservation(m, reservation, pendings, circuits).relay, reservation) == 0
  {
    var n := m.(usage := m.usage - {reservation});
    FrameKeeps(m, n, tickets);
    assert forall c :: c in pendings ==> c in m.pending;
    assert forall c :: c in circuits ==> c in m.circuits;
    RevokeEachKeeps(n, pendings, circuits, Revoke, {}, tickets);
    var d := RevokeReservation(m, reservation, pendings, circuits).relay;
    assert PendingOn(d.pending, reservation) == {} && CircuitsOn(d.circuits, reservation) == {};
  }

  lemma ExpireKeeps(m: Relay, now: nat, pendings: seq<Id>, circuits: seq<Id>, tickets: Tickets)
    requires Inv(m, tickets) && Lists(pendings, ExpiredPending(m, now)) && Lists(circuits, ExpiredCircuits(m, now))
    ensures Inv(Expire(m, now, pendings, circuits).relay, tickets)
  {
    if now >= m.time {
      var n := m.(time := now, usage := LiveUsage(m.usage, now));
      FrameKeeps(m, n, tickets);
      assert forall c :: c in pendings ==> c in m.pending;
      assert forall c :: c in circuits ==> c in m.circuits;
      RevokeEachKeeps(n, pendings, circuits, Revoke, {}, tickets);
    }
  }

  lemma {:induction false} ClosesIgnoreEnabled(m: Relay, b: bool, cid: Id, routes: seq<Route>)
    ensures QueueCloses(m.(enabled := b), cid, routes).relay == QueueCloses(m, cid, routes).relay.(enabled := b)
    decreases |routes|
  {
    hide Queue;
    if routes != [] {
      ClosesIgnoreEnabled(Queue(m, cid, routes[0], IsClose).relay, b, cid, routes[1..]);
      QueueIgnoresEnabled(m, b, cid, routes[0]);
    }
  }

  lemma QueueIgnoresEnabled(m: Relay, b: bool, cid: Id, r: Route)
    ensures Queue(m.(enabled := b), cid, r, IsClose).relay == Queue(m, cid, r, IsClose).relay.(enabled := b)
  {
  }

  lemma OneIgnoresEnabled(m: Relay, b: bool, cid: Id)
    ensures RevokeCircuit(m.(enabled := b), cid).relay == RevokeCircuit(m, cid).relay.(enabled := b)
    ensures RevokePending(m.(enabled := b), cid).relay == RevokePending(m, cid).relay.(enabled := b)
  {
    if cid in m.circuits {
      var c := m.circuits[cid];
      ClosesIgnoreEnabled(Removed(m, cid), b, cid, [Route(c.requester, Close(cid)), Route(c.endpoint, Close(cid))]);
      assert Removed(m.(enabled := b), cid) == Removed(m, cid).(enabled := b);
    }
    if cid in m.pending {
      var p := m.pending[cid];
      ClosesIgnoreEnabled(Removed(m, cid), b, cid, [Route(p.requester, Close(p.context)), Route(p.endpoint, Close(cid))]);
      assert Removed(m.(enabled := b), cid) == Removed(m, cid).(enabled := b);
    }
  }

  /** Revocation does not depend on whether new work is admitted. */
  lemma {:induction false} RevokeIgnoresEnabled(m: Relay, b: bool, pendings: seq<Id>, circuits: seq<Id>)
    ensures RevokeEach(m.(enabled := b), pendings, circuits, Revoke).relay == RevokeEach(m, pendings, circuits, Revoke).relay.(enabled := b)
    decreases |pendings| + |circuits|
  {
    hide RevokeCircuit, RevokePending;
    if pendings != [] {
      OneIgnoresEnabled(m, b, pendings[0]);
      RevokeIgnoresEnabled(RevokePending(m, pendings[0]).relay, b, pendings[1..], circuits);
    } else if circuits != [] {
      OneIgnoresEnabled(m, b, circuits[0]);
      RevokeIgnoresEnabled(RevokeCircuit(m, circuits[0]).relay, b, [], circuits[1..]);
    }
  }

  /** A new generation starts with no actions in flight. */
  function Cleared(m: Relay, enabled: bool): Relay {
    m.(generation := m.generation + 1, enabled := enabled, inflight := map[], next := 1)
  }

  lemma ClearedKeeps(m: Relay, tickets: Tickets)
    requires Inv(m, tickets)
    ensures InvExcept(Cleared(m, true), m.circuits.Keys, tickets)
  {
    hide WorkCaps, ActionCaps;
    ActionCapsShrink(m, map[]);
    WorkSame(m, Cleared(m, true), tickets);
    SameActionCaps(m.(inflight := map[]), Cleared(m, true));
  }

  lemma DisabledKeeps(m: Relay, tickets: Tickets)
    requires Inv(m, tickets) && m.pending == map[] && m.circuits == map[]
    ensures Inv(m.(enabled := false), tickets)
  {
    WorkSame(m, m.(enabled := false), tickets);
  }

  lemma DisabledIsEmpty(m: Relay, tickets: Tickets)
    requires Inv(m, tickets) && !m.enabled
    ensures m.pending == map[] && m.circuits == map[]
  {
  }

  lemma ReplaceEnabledKeeps(m: Relay, expected: nat, enabled: bool, pendings: seq<Id>, circuits: seq<Id>, tickets: Tickets)
    requires Inv(m, tickets) && Lists(pendings, m.pending.Keys) && Lists(circuits, m.circuits.Keys)
    ensures Inv(ReplaceEnabled(m, expected, enabled, pendings, circuits).relay, tickets)
  {
    hide InvExcept, RevokeEach, Lists;
    ClearedKeeps(m, tickets);
    var n := Cleared(m, true);
    if enabled && !m.enabled {
      DisabledIsEmpty(m, tickets);
      ExemptionEnds(n, m.circuits.Keys, tickets);
    } else if m.enabled && !enabled {
      ListedPending(m, pendings, m.pending.Keys, circuits, m.circuits.Keys, tickets);
      RevokeEachKeeps(n, pendings, circuits, Revoke, m.circuits.Keys, tickets);
      var d := RevokeEach(n, pendings, circuits, Revoke).relay;
      assert d.pending == map[] && d.circuits == map[];
      ExemptionEnds(d, m.circuits.Keys, tickets);
      DisabledKeeps(d, tickets);
      RevokeIgnoresEnabled(n, false, pendings, circuits);
      assert Cleared(m, false) == n.(enabled := false);
    }
  }

  // ---- rejected packets ----

  /** The same relay with sequence numbers to spare. */
  function Refilled(m: Relay): Relay {
    m.(next := 1)
  }

  /** A rejected DATA that nevertheless changes the relay: exactly one that only lacked a sequence number. */
  lemma DataRejection(m: Relay, source: Peer, p: Packet)
    requires p.Data?
    ensures HandleData(m, source, p).result.Err? && HandleData(m, source, p).relay != m
            <==> m.next >= U64_MAX && HandleData(Refilled(m), source, p).result.Ok?
  {
  }

  lemma WindowRejection(m: Relay, source: Peer, p: Packet)
    requires p.Window?
    ensures HandleWindow(m, source, p).result.Err? && HandleWindow(m, source, p).relay != m
            <==> m.next >= U64_MAX && HandleWindow(Refilled(m), source, p).result.Ok?
  {
  }

  /** Every check an ACCEPT has to pass before the bookkeeping. */
  predicate Acceptable(m: Relay, source: Peer, p: Packet, now: nat)
    requires p.Accept?
  {
    && p.circuit in m.pending && p.WellFormed()
    && var q := m.pending[p.circuit];
       && q.endpoint == source && now < q.deadline && now < q.ticket.expires
       && p.window <= q.window && |m.circuits| < m.config.maxCircuits && ReservationWork(m, q.ticket.reservation) <= q.ticket.maxActive
       && HasRoom(m, Without(m.inflight, p.circuit), q.requester, p.circuit)
  }

  lemma AcceptOutcome(m: Relay, source: Peer, p: Packet, now: nat)
    requires p.Accept?
    ensures var d := HandleAccept(m, source, p, now);
            if !Acceptable(m, source, p, now) then d == Failed(m, d.result.error) && d.result.Err?
            else if m.next >= U64_MAX then d.result.Err? && d.relay != m
            else d.result.Ok?
  {
    hide HasRoom, Without, ReservationWork;
    if Acceptable(m, source, p, now) {
      var q := m.pending[p.circuit];
      RoomIgnoresNext(m, Promoted(m, p.circuit, p.window), Without(m.inflight, p.circuit), q.requester, p.circuit);
      assert p.circuit !in Promoted(m, p.circuit, p.window).pending;
    }
  }

  lemma AcceptRejection(m: Relay, source: Peer, p: Packet, now: nat)
    requires p.Accept?
    ensures HandleAccept(m, source, p, now).result.Err? && HandleAccept(m, source, p, now).relay != m
            <==> m.next >= U64_MAX && HandleAccept(Refilled(m), source, p, now).result.Ok?
  {
    hide HandleAccept, HasRoom, Without, PendingOn, CircuitsOn;
    AcceptOutcome(m, source, p, now);
    AcceptOutcome(Refilled(m), source, p, now);
    if p.circuit in m.pending {
      RoomIgnoresNext(m, Refilled(m), Without(m.inflight, p.circuit), m.pending[p.circuit].requester, p.circuit);
    }
  }

  /** Room for an action depends on the limits and the actions alone. */
  lemma RoomIgnoresNext(m: Relay, n: Relay, inflight: map<nat, Action>, destination: Peer, cid: Id)
    requires n.config == m.config
    ensures HasRoom(n, inflight, destination, cid) == HasRoom(m, inflight, destination, cid)
  {
  }

  /**
    A DATA, WINDOW or ACCEPT that is rejected changes nothing beyond the clock, exactly unless the generation has no
    sequence number left and the packet would otherwise have been accepted: that failure comes after the bookkeeping.
   */
  lemma RejectionChangesNothing(m: Relay, source: Peer, p: Packet, now: nat, admission: Option<Admission>, cid: Id)
    requires p.Data? || p.Window? || p.Accept?
    ensures var d := Handle(m, source, p, now, admission, cid);
            && d.relay.time == Max(m.time, now)
            && (d.result.Err? && d.relay != m.(time := Max(m.time, now))
                <==> m.next >= U64_MAX && Handle(Refilled(m), source, p, now, admission, cid).result.Ok?)
  {
    hide HandleData, HandleWindow, HandleAccept;
    if now >= m.time && m.enabled {
      var t := m.(time := now);
      HandlersKeepTime(t, source, p, now);
      match p
      case Data(_, _) => DataRejection(t, source, p);
      case Window(_, _) => WindowRejection(t, source, p);
      case Accept(_, _) => AcceptRejection(t, source, p, now);
    }
  }

  lemma HandlersKeepTime(m: Relay, source: Peer, p: Packet, now: nat)
    ensures p.Data? ==> HandleData(m, source, p).relay.time == m.time
    ensures p.Window? ==> HandleWindow(m, source, p).relay.time == m.time
    ensures p.Accept? ==> HandleAccept(m, source, p, now).relay.time == m.time
  {
    hide HasRoom, ReservationWork, Spent, Granted, Without, SideOf, PeerOn, CreditOf, QueuedTo;
  }

  /** The failure is out of reach while a sequence number is left. */
  lemma SequenceLeft(m: Relay, source: Peer, p: Packet, now: nat)
    requires m.next < U64_MAX
    ensures p.Data? ==> HandleData(m, source, p).result != Err(GenerationExhausted)
    ensures p.Window? ==> HandleWindow(m, source, p).result != Err(GenerationExhausted)
    ensures p.Accept? ==> HandleAccept(m, source, p, now).result != Err(GenerationExhausted)
  {
    hide HasRoom, ReservationWork, Spent, Granted, Without, SideOf, PeerOn, CreditOf, QueuedTo;
  }

  /** One circuit, 7, between peers 1 and 2 on reservation 5, in a generation that has used its last sequence number. */
  function Spentout(): Relay {
    Relay(Config(8, 8, 8, 65_536, 8, 8, 8, 1_000, 10), 1, true, 0, map[],
          map[7 := Circuit(1, 2, 5, 100, 1_000, 1_000, 50, 50, 0, 0, 0)], map[5 := Usage(0, 100)], map[], U64_MAX, Counters(1, 1, 0, 0, 0))
  }

  lemma SpentoutOk(tickets: Tickets)
    requires tickets(5).maxActive >= 1
    ensures Inv(Spentout(), tickets)
  {
    var m := Spentout();
    assert forall c :: ActionsOf(m.inflight, c) == {};
    assert forall p :: ActionsTo(m.inflight, p) == {};
    forall p ensures PeerWork(m, p) <= 1 {
      assert PendingWith(m.pending, p) == {} && CircuitsWith(m.circuits, p) <= {7};
      Subset(CircuitsWith(m.circuits, p), {7});
    }
    forall r ensures ReservationWork(m, r) <= tickets(r).maxActive {
      assert PendingOn(m.pending, r) == {} && CircuitsOn(m.circuits, r) == if r == 5 then {7} else {};
    }
    NoBytes(m.inflight, 7, RequesterSide);
    NoBytes(m.inflight, 7, EndpointSide);
  }

  /** There the requester's DATA is refused, yet its credit is spent and its bytes are counted as queued, with no action. */
  lemma ExhaustedDataSpendsCredit(tickets: Tickets, n: nat)
    requires tickets(5).maxActive >= 1 && 0 < n <= 50
    ensures var m := Spentout();
            var d := HandleData(m, 1, Data(7, n));
            && Inv(m, tickets) && d.result == Err(GenerationExhausted) && d.out == []
            && d.relay.circuits[7].requesterCredit == m.circuits[7].requesterCredit - n
            && d.relay.circuits[7].toEndpoint == m.circuits[7].toEndpoint + n
            && d.relay.inflight == m.inflight && !Inv(d.relay, tickets)
  {
    var m := Spentout();
    SpentoutOk(tickets);
    assert ActionsOf(m.inflight, 7) == {} && ActionsTo(m.inflight, 2) == {};
    var d := HandleData(m, 1, Data(7, n));
    NoBytes(d.relay.inflight, 7, EndpointSide);
    assert !CircuitAccounted(d.relay, 7);
  }

  // ---- restart ----

  /** A restart counts in-flight actions as revoked work, so conservation survives it exactly when there are none. */
  lemma RestartConservesIff(m: Relay, now: nat)
    requires Conserved(m) && m.counters.admitted < U64_MAX && |m.pending| + |m.circuits| + |m.inflight| <= U32_MAX
    ensures Conserved(Restored(m, now)) <==> m.inflight == map[]
  {
    assert |m.inflight| == 0 <==> m.inflight == map[];
  }

  /** One admitted OPEN on a fresh relay already leaves an action in flight, and a restart then loses the account. */
  lemma RestartAfterOneOpen(config: Config, generation: nat, now: nat, ticket: Ticket, window: nat, tickets: Tickets)
    requires config.maxPending > 0 && config.maxCircuits > 0 && config.maxPerPeer > 0
    requires config.maxActions > 0 && config.maxActionsPerCircuit > 0 && config.maxActionsPerPeer > 0
    requires now + config.acceptTimeout <= U64_MAX && ticket.maxActive > 0 && ticket.maxTotal > 0
    requires MIN_WINDOW <= window <= MAX_WINDOW && tickets(ticket.reservation) == ticket
    ensures var d := Handle(Fresh(config, generation, now), 1, Open(4, ticket.reservation, window), now, Some(Admission(ticket, 2)), 7);
            && d.result.Ok? && Inv(d.relay, tickets) && d.relay.inflight.Keys == {1}
            && !Conserved(Restored(d.relay, now))
  {
    hide InvExcept, HandleOpen, Restored;
    var m := Fresh(config, generation, now);
    var admission := Some(Admission(ticket, 2));
    var p := Open(4, ticket.reservation, window);
    FreshOk(config, generation, now, tickets);
    HandleKeeps(m, 1, p, now, admission, 7, tickets);
    OpenOnFresh(m, p, ticket, now);
    var d := HandleOpen(m, 1, p, admission, 7, now);
    InvConserves(d.relay, tickets);
    RestartConservesIff(d.relay, now);
  }

  lemma InvConserves(m: Relay, tickets: Tickets)
    requires Inv(m, tickets)
    ensures Conserved(m)
  {
  }

  lemma OpenOnFresh(m: Relay, p: Packet, ticket: Ticket, now: nat)
    requires m == Fresh(m.config, m.generation, now) && p.Open? && p.WellFormed() && p.reservation == ticket.reservation
    requires m.config.maxPending > 0 && m.config.maxCircuits > 0 && m.config.maxPerPeer > 0
    requires m.config.maxActions > 0 && m.config.maxActionsPerCircuit > 0 && m.config.maxActionsPerPeer > 0
    requires now + m.config.acceptTimeout <= U64_MAX && ticket.maxActive > 0 && ticket.maxTotal > 0
    ensures var d := HandleOpen(m, 1, p, Some(Admission(ticket, 2)), 7, now);
            && d.result.Ok? && d.relay.pending.Keys == {7} && d.relay.circuits == map[] && d.relay.inflight.Keys == {1}
            && d.relay.counters.admitted == 1
  {
    hide PeerWork, ReservationWork, ActionsOf, ActionsTo;
    FreshIsIdle(m, 1, 2, 7, ticket.reservation);
    assert !OpenBlocked(m, 1, p.context);
  }

  lemma FreshIsIdle(m: Relay, p: Peer, q: Peer, cid: Id, r: Id)
    requires m.pending == map[] && m.circuits == map[] && m.inflight == map[]
    ensures PeerWork(m, p) == 0 && PeerWork(m, q) == 0 && ReservationWork(m, r) == 0
    ensures ActionsOf(m.inflight, cid) == {} && ActionsTo(m.inflight, q) == {}
  {
    assert PendingWith(m.pending, p) == {} && CircuitsWith(m.circuits, p) == {};
    assert PendingWith(m.pending, q) == {} && CircuitsWith(m.circuits, q) == {};
    assert PendingOn(m.pending, r) == {} && CircuitsOn(m.circuits, r) == {};
  }
}
