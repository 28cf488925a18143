/**
  A requester and a relay joined by two channels that may lose and reorder packets but not duplicate them, among
  other peers that send what they like. The theorem is credit conservation: neither side ever refuses the other's
  DATA for want of credit, and no WINDOW between them overflows.
 */
module CircuitSystem {
  import opened Common
  import opened Paths
  import opened Tallies
  import opened CircuitRelays
  import Q = CircuitRequesters

  /** How the two know each other: the requester's connection at the relay, and the relay's at the requester. */
  datatype Names = Names(requester: Peer, relay: Peer)

  type Channel = map<nat, Packet>

  /**
    `windows` records the window each circuit was accepted with and `mine` which circuits were opened for our
    requester. They are history: no step reads them. Identifiers once drawn are not drawn again (`drawn`).
   */
  datatype Net = Net(
    q: Q.Requester, m: Relay, up: Channel, down: Channel, serial: nat,
    windows: map<Id, nat>, mine: set<Id>, drawn: set<Id>)

  // ---- sending ----

  function Sent(ch: Channel, serial: nat, p: Packet): Channel {
    ch[serial := p]
  }

  /** Put the routes for one destination on a channel. */
  function SendAll(ch: Channel, serial: nat, out: seq<Route>, to: Peer): (Channel, nat)
    decreases |out|
  {
    if out == [] then (ch, serial)
    else if out[0].destination == to then SendAll(Sent(ch, serial, out[0].packet), serial + 1, out[1..], to)
    else SendAll(ch, serial, out[1..], to)
  }

  // ---- steps ----

  datatype Event =
    | Opening(relay: Peer, ticket: Ticket, valid: bool, at: nat, deadline: nat, window: nat, context: Id)
    | Sending(link: Id, bytes: nat)
    | Taking(link: Id)
    | Closing(link: Id, detail: nat)
    | Cancelling(context: Id, detail: nat)
    | Leaving(relay: Peer)
    | Ageing(at: nat)
    | Switching(expected: nat, enabled: bool)
    | Restarting(snapshot: Q.Snapshot, minimum: nat, at: nat)
    | Receives(key: nat, at: nat)
    | Hears(from: Peer, packet: Packet, at: nat)
    | Relays(key: nat, at: nat, admission: Option<Admission>, id: Id)
    | RelayHears(from: Peer, packet: Packet, at: nat, admission: Option<Admission>, id: Id)
    | RelayDoes(what: Chore)
    | LosesUp(key: nat)
    | LosesDown(key: nat)

  /** What the relay does on its own account. It may restart from any state it, or any other relay, was ever in. */
  datatype Chore =
    | Acks(generation: nat, sequence: nat, delivered: bool)
    | Drops(peer: Peer, pendings: seq<Id>, circuits: seq<Id>)
    | Revokes(reservation: Id, pendings: seq<Id>, circuits: seq<Id>)
    | Expires(at: nat, pendings: seq<Id>, circuits: seq<Id>)
    | Replaces(expected: nat, enabled: bool, pendings: seq<Id>, circuits: seq<Id>)
    | Restarts(once: Relay, at: nat)

  function Did(m: Relay, c: Chore): Done {
    match c
    case Acks(generation, sequence, delivered) => Acknowledge(m, generation, sequence, delivered)
    case Drops(peer, pendings, circuits) => Disconnect(m, peer, pendings, circuits)
    case Revokes(reservation, pendings, circuits) => RevokeReservation(m, reservation, pendings, circuits)
    case Expires(at, pendings, circuits) => Expire(m, at, pendings, circuits)
    case Replaces(expected, enabled, pendings, circuits) => ReplaceEnabled(m, expected, enabled, pendings, circuits)
    case Restarts(once, at) => Done(Restored(once, at), [], Ok(()))
  }

  /** The requester moved: its state is replaced and its route, if it is for our relay, goes up. */
  function QMoved(n: Net, d: Q.Did, names: Names): Net {
    if d.route.Some? && d.route.value.destination == names.relay
    then n.(q := d.requester, up := Sent(n.up, n.serial, d.route.value.packet), serial := n.serial + 1)
    else n.(q := d.requester)
  }

  /** The relay moved. A newly established circuit enters the history. */
  function MMoved(n: Net, d: Done, names: Names): Net {
    var s := SendAll(n.down, n.serial, d.out, names.requester);
    n.(m := d.relay, down := s.0, serial := s.1,
       windows := (map c | c in d.relay.circuits :: d.relay.circuits[c].requesterCredit) + n.windows,
       mine := n.mine + (set c | c in d.relay.circuits && d.relay.circuits[c].requester == names.requester),
       drawn := n.drawn + d.relay.pending.Keys)
  }

  /** A requester that restarts, from whatever snapshot, keeps no circuit and sends nothing. */
  function Restarted(snapshot: Q.Snapshot, minimum: nat, at: nat): Q.Did
    requires Q.Restore(snapshot, minimum, at).Ok?
  {
    Q.Quietly(Q.Restore(snapshot, minimum, at).value)
  }

  function Drawn(n: Net, p: Packet, id: Id): bool {
    p.Open? ==> id !in n.drawn && id !in n.m.pending && id !in n.m.circuits
  }

  ghost predicate Step(n: Net, e: Event, t: Net, names: Names) {
    match e
    case Opening(relay, ticket, valid, at, deadline, window, context) =>
      t == QMoved(n, Q.BeginOpen(n.q, relay, ticket, valid, at, deadline, window, context), names)
    case Sending(link, bytes) => t == QMoved(n, Q.SendData(n.q, link, bytes), names)
    case Taking(link) => t == QMoved(n, Q.TakeData(n.q, link), names)
    case Closing(link, detail) => t == QMoved(n, Q.CloseCircuit(n.q, link, detail), names)
    case Cancelling(context, detail) => t == QMoved(n, Q.CancelOpen(n.q, context, detail), names)
    case Leaving(relay) => t == QMoved(n, Q.Disconnect(n.q, relay), names)
    case Ageing(at) => t == QMoved(n, Q.Expire(n.q, at), names)
    case Switching(expected, enabled) => t == QMoved(n, Q.ReplaceEnabled(n.q, expected, enabled), names)
    case Restarting(snapshot, minimum, at) => Q.Restore(snapshot, minimum, at).Ok? && t == QMoved(n, Restarted(snapshot, minimum, at), names)
    case Receives(key, at) => key in n.down && t == QMoved(n.(down := n.down - {key}), Q.Handle(n.q, names.relay, n.down[key], at), names)
    case Hears(from, packet, at) => from != names.relay && t == QMoved(n, Q.Handle(n.q, from, packet, at), names)
    case Relays(key, at, admission, id) =>
      key in n.up && Drawn(n, n.up[key], id)
      && t == MMoved(n.(up := n.up - {key}), Handle(n.m, names.requester, n.up[key], at, admission, id), names)
    case RelayHears(from, packet, at, admission, id) =>
      from != names.requester && Drawn(n, packet, id) && t == MMoved(n, Handle(n.m, from, packet, at, admission, id), names)
    case RelayDoes(what) => t == MMoved(n, Did(n.m, what), names)
    case LosesUp(key) => t == n.(up := n.up - {key})
    case LosesDown(key) => t == n.(down := n.down - {key})
  }

  // ---- what is in flight ----

  function DataOf(p: Packet, cid: Id): nat { if p.Data? && p.circuit == cid then p.bytes else 0 }

  function WindowsOf(p: Packet, cid: Id): nat { if p.Window? && p.circuit == cid then p.delta else 0 }

  function OpenedOf(p: Packet, cid: Id): nat { if p.Opened? && p.circuit == cid then p.window else 0 }

  ghost function DataIn(ch: Channel, cid: Id): nat { Sum(ch, (p: Packet) => DataOf(p, cid)) }

  ghost function WindowIn(ch: Channel, cid: Id): nat { Sum(ch, (p: Packet) => WindowsOf(p, cid)) }

  ghost function OpenedIn(ch: Channel, cid: Id): nat { Sum(ch, (p: Packet) => OpenedOf(p, cid)) }

  /** Everything in flight on a channel that matters for one circuit. */
  datatype Flight = Flight(data: nat, window: nat, opening: nat)

  ghost function InFlight(ch: Channel, cid: Id): Flight {
    Flight(DataIn(ch, cid), WindowIn(ch, cid), OpenedIn(ch, cid))
  }

  lemma FlightAdd(ch: Channel, k: nat, p: Packet, cid: Id)
    requires k !in ch
    ensures InFlight(ch[k := p], cid)
            == Flight(DataIn(ch, cid) + DataOf(p, cid), WindowIn(ch, cid) + WindowsOf(p, cid), OpenedIn(ch, cid) + OpenedOf(p, cid))
  {
    SumAdd(ch, k, p, (x: Packet) => DataOf(x, cid));
    SumAdd(ch, k, p, (x: Packet) => WindowsOf(x, cid));
    SumAdd(ch, k, p, (x: Packet) => OpenedOf(x, cid));
  }

  lemma FlightRemove(ch: Channel, k: nat, cid: Id)
    requires k in ch
    ensures InFlight(ch, cid)
            == Flight(DataIn(ch - {k}, cid) + DataOf(ch[k], cid), WindowIn(ch - {k}, cid) + WindowsOf(ch[k], cid), OpenedIn(ch - {k}, cid) + OpenedOf(ch[k], cid))
  {
    SumRemove(ch, k, (x: Packet) => DataOf(x, cid));
    SumRemove(ch, k, (x: Packet) => WindowsOf(x, cid));
    SumRemove(ch, k, (x: Packet) => OpenedOf(x, cid));
  }

  /** The circuit a packet moves credit for, if any. */
  function About(p: Packet): Option<Id> {
    if p.Data? || p.Window? || p.Opened? then Some(p.circuit) else None
  }

  lemma FlightNone(ch: Channel, cid: Id)
    requires forall k :: k in ch ==> About(ch[k]) != Some(cid)
    ensures InFlight(ch, cid) == Flight(0, 0, 0)
  {
    SumKeep(ch, map[], (x: Packet) => DataOf(x, cid));
    SumKeep(ch, map[], (x: Packet) => WindowsOf(x, cid));
    SumKeep(ch, map[], (x: Packet) => OpenedOf(x, cid));
  }

  // ---- the invariant ----

  /** The requester's link over our relay. */
  function LinkOf(q: Q.Requester, cid: Id, names: Names): Option<Q.Link> {
    if cid in q.links && q.links[cid].relay == names.relay then Some(q.links[cid]) else None
  }

  function SendCredit(q: Q.Requester, cid: Id, names: Names): nat {
    var l := LinkOf(q, cid, names);
    if l.Some? then l.value.sendCredit else 0
  }

  function Buffered(q: Q.Requester, cid: Id, names: Names): nat {
    var l := LinkOf(q, cid, names);
    if l.Some? then l.value.queued else 0
  }

  /** What the relay still lets the requester send; anything up to the protocol bound once the circuit is gone. */
  function RequesterCredit(m: Relay, cid: Id): nat {
    if cid in m.circuits then m.circuits[cid].requesterCredit else MAX_WINDOW
  }

  function EndpointCredit(m: Relay, cid: Id): nat {
    if cid in m.circuits then m.circuits[cid].endpointCredit else 0
  }

  /** Credit, both ways, for one circuit. */
  ghost predicate CreditOk(n: Net, cid: Id, names: Names)
    requires cid in n.windows
  {
    && SendCredit(n.q, cid, names) + DataIn(n.up, cid) + WindowIn(n.down, cid) + OpenedIn(n.down, cid) <= RequesterCredit(n.m, cid)
    && EndpointCredit(n.m, cid) + DataIn(n.down, cid) + Buffered(n.q, cid, names) + WindowIn(n.up, cid) <= n.windows[cid]
  }

  ghost predicate RelayOk(n: Net, names: Names) {
    && (forall c :: c in n.m.pending ==> c !in n.windows && c in n.drawn && n.m.pending[c].requester != n.m.pending[c].endpoint)
    && (forall c :: c in n.m.circuits ==>
          && c in n.windows && n.m.circuits[c].requester != n.m.circuits[c].endpoint
          && n.m.circuits[c].requesterCredit <= MAX_WINDOW
          && (c in n.mine <==> n.m.circuits[c].requester == names.requester))
    && (forall c :: c in n.mine ==> c in n.windows)
    && forall c :: c in n.windows ==> c in n.drawn && n.windows[c] <= MAX_WINDOW
  }

  ghost predicate ChannelsOk(n: Net) {
    && (forall k :: k in n.up ==> k < n.serial && (About(n.up[k]).Some? ==> About(n.up[k]).value in n.mine))
    && (forall k :: k in n.down ==> k < n.serial && (About(n.down[k]).Some? ==> About(n.down[k]).value in n.windows))
    && forall k :: k in n.down && n.down[k].Opened? ==> n.down[k].circuit in n.mine && n.down[k].window == n.windows[n.down[k].circuit]
  }

  ghost predicate LinksOk(n: Net, names: Names) {
    forall c :: LinkOf(n.q, c, names).Some? ==>
      c in n.mine && c in n.windows && Q.WindowOf(LinkOf(n.q, c, names).value) == n.windows[c] && Q.LinkOk(LinkOf(n.q, c, names).value)
  }

  ghost predicate Inv(n: Net, names: Names) {
    && RelayOk(n, names) && ChannelsOk(n) && LinksOk(n, names)
    && forall c :: c in n.mine ==> CreditOk(n, c, names)
  }

  lemma InitialOk(q: Q.Requester, m: Relay, names: Names)
    requires q.links == map[] && m.pending == map[] && m.circuits == map[]
    ensures Inv(Net(q, m, map[], map[], 0, map[], {}, {}), names)
  {
  }

  // ---- losing packets ----

  lemma LoseUpKeeps(n: Net, key: nat, names: Names)
    requires Inv(n, names)
    ensures Inv(n.(up := n.up - {key}), names)
  {
    var t := n.(up := n.up - {key});
    forall c | c in t.mine ensures CreditOk(t, c, names) {
      assert CreditOk(n, c, names);
      if key in n.up {
        FlightRemove(n.up, key, c);
      } else {
        assert t.up == n.up;
      }
    }
  }

  lemma LoseDownKeeps(n: Net, key: nat, names: Names)
    requires Inv(n, names)
    ensures Inv(n.(down := n.down - {key}), names)
  {
    var t := n.(down := n.down - {key});
    forall c | c in t.mine ensures CreditOk(t, c, names) {
      assert CreditOk(n, c, names);
      if key in n.down {
        FlightRemove(n.down, key, c);
      } else {
        assert t.down == n.down;
      }
    }
  }

  // ---- the relay does something that moves no credit ----

  ghost predicate SameCredits(a: Circuit, b: Circuit) {
    a.requester == b.requester && a.endpoint == b.endpoint && a.requesterCredit == b.requesterCredit && a.endpointCredit == b.endpointCredit
  }

  ghost predicate Silent(out: seq<Route>) {
    forall i :: 0 <= i < |out| ==> About(out[i].packet).None?
  }

  /** No circuit appears or changes credit, at most one fresh pending open appears, and nothing sent is about credit. */
  ghost predicate Quiet(m: Relay, d: Done, id: Option<Id>) {
    && (forall c :: c in d.relay.circuits ==> c in m.circuits && SameCredits(m.circuits[c], d.relay.circuits[c]))
    && (forall c :: c in d.relay.pending ==>
          || (c in m.pending && m.pending[c] == d.relay.pending[c])
          || (Some(c) == id && c !in m.pending && d.relay.pending[c].requester != d.relay.pending[c].endpoint))
    && Silent(d.out)
  }

  lemma {:induction false} SendSilently(ch: Channel, serial: nat, out: seq<Route>, to: Peer, cid: Id)
    requires Silent(out) && forall k :: k in ch ==> k < serial
    ensures var s := SendAll(ch, serial, out, to);
            && serial <= s.1 && InFlight(s.0, cid) == InFlight(ch, cid)
            && forall k :: k in s.0 ==> k < s.1 && ((k in ch && s.0[k] == ch[k]) || About(s.0[k]).None?)
    decreases |out|
  {
    if out != [] {
      if out[0].destination == to {
        FlightAdd(ch, serial, out[0].packet, cid);
        SendSilently(Sent(ch, serial, out[0].packet), serial + 1, out[1..], to, cid);
      } else {
        SendSilently(ch, serial, out[1..], to, cid);
      }
    }
  }

  lemma QuietFrame(n: Net, d: Done, id: Option<Id>, names: Names)
    requires Inv(n, names) && Quiet(n.m, d, id) && (id.Some? ==> id.value !in n.drawn)
    ensures RelayOk(MMoved(n, d, names), names)
    ensures MMoved(n, d, names).windows == n.windows && MMoved(n, d, names).mine == n.mine
  {
    var t := MMoved(n, d, names);
    assert forall c :: c in d.relay.circuits ==> c in n.windows;
  }

  lemma QuietChannels(n: Net, d: Done, id: Option<Id>, names: Names)
    requires Inv(n, names) && Quiet(n.m, d, id) && (id.Some? ==> id.value !in n.drawn)
    ensures ChannelsOk(MMoved(n, d, names))
  {
    hide RelayOk, LinksOk, CreditOk, InFlight;
    QuietFrame(n, d, id, names);
    SendSilently(n.down, n.serial, d.out, names.requester, 0);
  }

  lemma QuietCredit(n: Net, d: Done, id: Option<Id>, c: Id, names: Names)
    requires Quiet(n.m, d, id) && c in n.windows && c in MMoved(n, d, names).windows && CreditOk(n, c, names) && RequesterCredit(n.m, c) <= MAX_WINDOW
    requires forall k :: k in n.down ==> k < n.serial
    ensures CreditOk(MMoved(n, d, names), c, names)
  {
    SendSilently(n.down, n.serial, d.out, names.requester, c);
  }

  lemma QuietKeeps(n: Net, d: Done, id: Option<Id>, names: Names)
    requires Inv(n, names) && Quiet(n.m, d, id) && (id.Some? ==> id.value !in n.drawn)
    ensures Inv(MMoved(n, d, names), names)
  {
    hide Quiet, CreditOk, SendAll;
    var t := MMoved(n, d, names);
    QuietFrame(n, d, id, names);
    QuietChannels(n, d, id, names);
    forall c | c in t.mine ensures CreditOk(t, c, names) {
      QuietCredit(n, d, id, c, names);
    }
  }

  // ---- the relay's chores are quiet ----

  lemma {:induction false} ClosesQuiet(m: Relay, cid: Id, routes: seq<Route>)
    requires Silent(routes)
    ensures Silent(QueueCloses(m, cid, routes).out)
    ensures QueueCloses(m, cid, routes).relay.circuits == m.circuits && QueueCloses(m, cid, routes).relay.pending == m.pending
    decreases |routes|
  {
    if routes != [] {
      ClosesQuiet(Queue(m, cid, routes[0], IsClose).relay, cid, routes[1..]);
    }
  }

  /** Work only leaves. */
  ghost predicate Ebbs(m: Relay, d: Done) {
    && (forall c :: c in d.relay.circuits ==> c in m.circuits && m.circuits[c] == d.relay.circuits[c])
    && (forall c :: c in d.relay.pending ==> c in m.pending && m.pending[c] == d.relay.pending[c])
    && Silent(d.out)
  }

  lemma RevokeOneEbbs(m: Relay, cid: Id, why: Reason)
    ensures Ebbs(m, RevokeCircuit(m, cid))
    ensures Ebbs(m, if why.Abandon? then AbandonPending(m, cid, why.peer) else RevokePending(m, cid))
  {
    hide QueueCloses;
    if cid in m.circuits {
      var c := m.circuits[cid];
      ClosesQuiet(Removed(m, cid), cid, [Route(c.requester, Close(cid)), Route(c.endpoint, Close(cid))]);
    }
    if cid in m.pending {
      var p := m.pending[cid];
      ClosesQuiet(Removed(m, cid), cid, [Route(p.requester, Close(p.context)), Route(p.endpoint, Close(cid))]);
      if why.Abandon? {
        ClosesQuiet(Removed(m, cid), cid, [if p.requester == why.peer then Route(p.endpoint, Close(cid)) else Route(p.requester, Close(p.context))]);
      }
    }
  }

  lemma {:induction false} RevokeEachEbbs(m: Relay, pendings: seq<Id>, circuits: seq<Id>, why: Reason)
    ensures Ebbs(m, RevokeEach(m, pendings, circuits, why))
    decreases |pendings| + |circuits|
  {
    hide RevokeCircuit, RevokePending, AbandonPending;
    if pendings != [] {
      var first := if why.Abandon? then AbandonPending(m, pendings[0], why.peer) else RevokePending(m, pendings[0]);
      RevokeOneEbbs(m, pendings[0], why);
      RevokeEachEbbs(first.relay, pendings[1..], circuits, why);
    } else if circuits != [] {
      RevokeOneEbbs(m, circuits[0], why);
      RevokeEachEbbs(RevokeCircuit(m, circuits[0]).relay, [], circuits[1..], why);
    }
  }

  lemma EbbsQuiet(m: Relay, n: Relay, d: Done, id: Option<Id>)
    requires Ebbs(n, d) && n.pending == m.pending && n.circuits.Keys == m.circuits.Keys
    requires forall c :: c in m.circuits ==> SameCredits(m.circuits[c], n.circuits[c])
    ensures Quiet(m, d, id)
  {
  }

  lemma QueueFrame(m: Relay, cid: Id, r: Route, kind: Kind)
    ensures var d := Queue(m, cid, r, kind);
            d.relay.circuits == m.circuits && d.relay.pending == m.pending && (d.out == [] || d.out == [r])
  {
  }

  lemma ReleasedFrame(m: Relay, a: Action)
    ensures Released(m, a).pending == m.pending && Released(m, a).circuits.Keys == m.circuits.Keys
    ensures forall c :: c in m.circuits ==> SameCredits(m.circuits[c], Released(m, a).circuits[c])
  {
  }

  lemma AckQuiet(m: Relay, generation: nat, k: nat, delivered: bool, id: Option<Id>)
    ensures Quiet(m, Acknowledge(m, generation, k, delivered), id)
  {
    hide RevokeCircuit, Queue, Released, Ebbs;
    if generation == m.generation && k in m.inflight {
      var a := m.inflight[k];
      var s := m.(inflight := m.inflight - {k});
      var r := Released(s, a);
      ReleasedFrame(s, a);
      RevokeOneEbbs(r, a.circuit, Revoke);
      EbbsQuiet(m, r, RevokeCircuit(r, a.circuit), id);
      if a.circuit in r.pending {
        var p := r.pending[a.circuit];
        QueueFrame(r.(pending := r.pending - {a.circuit}, counters := Revoked(r.counters)), a.circuit, Route(p.requester, Close(p.context)), IsClose);
      }
    }
  }

  lemma RevokingQuiet(m: Relay, n: Relay, pendings: seq<Id>, circuits: seq<Id>, why: Reason, id: Option<Id>)
    requires n.pending == m.pending && n.circuits == m.circuits
    ensures Quiet(m, RevokeEach(n, pendings, circuits, why), id)
  {
    hide RevokeEach;
    RevokeEachEbbs(n, pendings, circuits, why);
    EbbsQuiet(m, n, RevokeEach(n, pendings, circuits, why), id);
  }

  lemma ChoresQuiet(m: Relay, c: Chore, id: Option<Id>)
    ensures Quiet(m, Did(m, c), id)
  {
    hide RevokeEach, Acknowledge, Quiet;
    match c
    case Acks(generation, sequence, delivered) => AckQuiet(m, generation, sequence, delivered, id);
    case Drops(peer, pendings, circuits) => RevokingQuiet(m, m.(inflight := AwayFrom(m.inflight, peer)), pendings, circuits, Abandon(peer), id);
    case Revokes(reservation, pendings, circuits) => RevokingQuiet(m, m.(usage := m.usage - {reservation}), pendings, circuits, Revoke, id);
    case Expires(at, pendings, circuits) =>
      StillQuiet(m, Failed(m, ClockRollback), id);
      RevokingQuiet(m, m.(time := at, usage := LiveUsage(m.usage, at)), pendings, circuits, Revoke, id);
    case Replaces(expected, enabled, pendings, circuits) =>
      var n := m.(generation := m.generation + 1, enabled := enabled, inflight := map[], next := 1);
      StillQuiet(m, Failed(m, StaleGeneration), id);
      StillQuiet(m, Failed(m, GenerationExhausted), id);
      StillQuiet(m, Done(m, [], Ok(())), id);
      StillQuiet(m, Done(n, [], Ok(())), id);
      RevokingQuiet(m, n, pendings, circuits, Revoke, id);
    case Restarts(once, at) => EmptiedQuiet(m, Restored(once, at), id);
  }

  lemma EmptiedQuiet(m: Relay, n: Relay, id: Option<Id>)
    requires n.pending == map[] && n.circuits == map[]
    ensures Quiet(m, Done(n, [], Ok(())), id)
  {
  }

  // ---- the relay's handlers ----

  lemma StillQuiet(m: Relay, d: Done, id: Option<Id>)
    requires d.relay.circuits == m.circuits && d.relay.pending == m.pending && d.out == []
    ensures Quiet(m, d, id)
  {
  }

  lemma OpensQuiet(m: Relay, n: Relay, p: Pending, r: Route, id: Id)
    requires n.circuits == m.circuits && n.pending == m.pending && id !in m.pending && p.requester != p.endpoint && About(r.packet).None?
    ensures Quiet(m, Queue(Opens(n, id, p), id, r, IsIncoming), Some(id))
  {
    hide Queue;
    QueueFrame(Opens(n, id, p), id, r, IsIncoming);
  }

  lemma OpenQuiet(m: Relay, source: Peer, p: Packet, admission: Option<Admission>, id: Id, now: nat)
    requires p.Open? && id !in m.pending && id !in m.circuits
    ensures Quiet(m, HandleOpen(m, source, p, admission, id, now), Some(id))
  {
    hide Quiet, PeerWork, ReservationWork, HasRoom, Queue, Opens, OpenBlocked;
    var d := HandleOpen(m, source, p, admission, id, now);
    if !OpenBlocked(m, source, p.context) && admission.Some? && admission.value.endpoint != source {
      var t := admission.value.ticket;
      var live := m.(usage := LiveUsage(m.usage, now));
      var u := if t.reservation in live.usage then live.usage[t.reservation] else Usage(0, t.expires);
      var charged := live.(usage := live.usage[t.reservation := u]);
      var pending := Pending(source, admission.value.endpoint, p.context, t, p.window, Min(now + m.config.acceptTimeout, t.expires));
      var r := Route(admission.value.endpoint, Incoming(id, p.context, p.window));
      OpensQuiet(m, charged, pending, r, id);
      if d != Queue(Opens(charged, id, pending), id, r, IsIncoming) {
        StillQuiet(m, d, Some(id));
      }
    } else {
      StillQuiet(m, d, Some(id));
    }
  }

  lemma RemovedQuiet(m: Relay, c: Id, r: Route, id: Option<Id>)
    requires About(r.packet).None?
    ensures Quiet(m, Queue(Removed(m, c), c, r, IsClose), id)
  {
    hide Queue;
    QueueFrame(Removed(m, c), c, r, IsClose);
  }

  lemma CloseQuiet(m: Relay, source: Peer, p: Packet, id: Option<Id>)
    requires p.Close?
    ensures Quiet(m, HandleClose(m, source, p), id)
  {
    hide Queue, Quiet, Removed;
    forall c: Id, r: Route | About(r.packet).None? ensures Quiet(m, Queue(Removed(m, c), c, r, IsClose), id) {
      RemovedQuiet(m, c, r, id);
    }
    var d := HandleClose(m, source, p);
    if d == Failed(m, if d.result.Err? then d.result.error else Capacity) {
      StillQuiet(m, d, id);
    }
  }

  lemma SameQuiet(m: Relay, t: Relay, d: Done, id: Option<Id>)
    requires t.pending == m.pending && t.circuits == m.circuits && Quiet(t, d, id)
    ensures Quiet(m, d, id)
  {
  }

  /** Packets that move no credit at the relay. */
  lemma HandleQuiet(m: Relay, source: Peer, p: Packet, now: nat, admission: Option<Admission>, id: Id)
    requires !p.Data? && !p.Window? && !p.Accept? && (p.Open? ==> id !in m.pending && id !in m.circuits)
    ensures Quiet(m, Handle(m, source, p, now, admission, id), if p.Open? then Some(id) else None)
  {
    hide HandleOpen, HandleClose;
    var t := m.(time := now);
    if p.Open? {
      OpenQuiet(t, source, p, admission, id, now);
      SameQuiet(m, t, HandleOpen(t, source, p, admission, id, now), Some(id));
    } else if p.Close? {
      CloseQuiet(t, source, p, None);
      SameQuiet(m, t, HandleClose(t, source, p), None);
    }
  }

  /** What DATA does to the relay: it is refused and nothing moves, or one circuit spends credit and at most forwards it. */
  ghost predicate Relayed(m: Relay, d: Done, cid: Id, after: Circuit, route: Route) {
    && cid in m.circuits && d.relay.circuits == m.circuits[cid := after] && d.relay.pending == m.pending
    && (d.out == [] || d.out == [route])
  }

  lemma DataRelayed(m: Relay, source: Peer, p: Packet, now: nat, admission: Option<Admission>, id: Id)
    requires p.Data?
    ensures var d := Handle(m, source, p, now, admission, id);
            || Quiet(m, d, None)
            || (p.circuit in m.circuits && SideOf(m.circuits[p.circuit], source).Some?
                && var side := SideOf(m.circuits[p.circuit], source).value;
                   && p.bytes <= CreditOf(m.circuits[p.circuit], side)
                   && Relayed(m, d, p.circuit, Spent(m.circuits[p.circuit], side, p.bytes), Route(PeerOn(m.circuits[p.circuit], Other(side)), p)))
  {
    hide HasRoom;
  }

  lemma WindowRelayed(m: Relay, source: Peer, p: Packet, now: nat, admission: Option<Admission>, id: Id)
    requires p.Window?
    ensures var d := Handle(m, source, p, now, admission, id);
            || Quiet(m, d, None)
            || (p.circuit in m.circuits && SideOf(m.circuits[p.circuit], source).Some?
                && var side := SideOf(m.circuits[p.circuit], source).value;
                   && CreditOf(m.circuits[p.circuit], Other(side)) + p.delta <= MAX_WINDOW
                   && Relayed(m, d, p.circuit, Granted(m.circuits[p.circuit], side, p.delta), Route(PeerOn(m.circuits[p.circuit], Other(side)), p)))
  {
    hide HasRoom;
  }

  /** What ACCEPT does when it is not refused. */
  ghost predicate Promotes(m: Relay, d: Done, p: Packet) {
    && p.Accept? && p.circuit in m.pending && p.window <= MAX_WINDOW
    && d.relay.circuits == m.circuits[p.circuit := Established(m, m.pending[p.circuit], p.window)]
    && d.relay.pending == m.pending - {p.circuit}
    && (d.out == [] || d.out == [Route(m.pending[p.circuit].requester, Opened(m.pending[p.circuit].context, p.circuit, p.window))])
  }

  lemma PromotesQueued(m: Relay, p: Packet)
    requires p.Accept? && p.circuit in m.pending && p.window <= MAX_WINDOW
    ensures var q := m.pending[p.circuit];
            Promotes(m, Queue(Promoted(m, p.circuit, p.window), p.circuit, Route(q.requester, Opened(q.context, p.circuit, p.window)), IsOpened), p)
  {
    hide Queue;
    var q := m.pending[p.circuit];
    QueueFrame(Promoted(m, p.circuit, p.window), p.circuit, Route(q.requester, Opened(q.context, p.circuit, p.window)), IsOpened);
  }

  lemma AcceptEnds(m: Relay, source: Peer, p: Packet, now: nat)
    requires p.Accept?
    ensures var d := HandleAccept(m, source, p, now);
            || (d.relay == m && d.out == [])
            || (&& p.circuit in m.pending && p.window <= MAX_WINDOW
                && var q := m.pending[p.circuit];
                   d == Queue(Promoted(m, p.circuit, p.window), p.circuit, Route(q.requester, Opened(q.context, p.circuit, p.window)), IsOpened))
  {
    hide HasRoom, ReservationWork, Queue, Promoted;
  }

  lemma AcceptedQuietly(m: Relay, source: Peer, p: Packet, now: nat)
    requires p.Accept?
    ensures var d := HandleAccept(m, source, p, now); Quiet(m, d, None) || Promotes(m, d, p)
  {
    hide Queue, Promoted, Quiet, Promotes, HandleAccept;
    AcceptEnds(m, source, p, now);
    var d := HandleAccept(m, source, p, now);
    if d.relay == m && d.out == [] {
      StillQuiet(m, d, None);
    } else {
      PromotesQueued(m, p);
    }
  }

  lemma AcceptRelayed(m: Relay, source: Peer, p: Packet, now: nat, admission: Option<Admission>, id: Id)
    requires p.Accept?
    ensures var d := Handle(m, source, p, now, admission, id); Quiet(m, d, None) || Promotes(m, d, p)
  {
    hide HandleAccept;
    AcceptedQuietly(m.(time := now), source, p, now);
  }

  /** Sending one route, or none. */
  lemma SendOne(ch: Channel, serial: nat, r: Route, to: Peer)
    ensures SendAll(ch, serial, [], to) == (ch, serial)
    ensures SendAll(ch, serial, [r], to) == if r.destination == to then (Sent(ch, serial, r.packet), serial + 1) else (ch, serial)
  {
    assert [r][1..] == [];
    assert SendAll(ch, serial, [r][1..], to) == (ch, serial);
    assert SendAll(Sent(ch, serial, r.packet), serial + 1, [r][1..], to) == (Sent(ch, serial, r.packet), serial + 1);
  }

  // ---- the relay moves credit ----

  lemma AcceptHistory(n: Net, d: Done, p: Packet, names: Names)
    requires RelayOk(n, names) && Promotes(n.m, d, p)
    ensures var t := MMoved(n, d, names);
            && t.windows == n.windows[p.circuit := p.window]
            && t.mine == n.mine + (if n.m.pending[p.circuit].requester == names.requester then {p.circuit} else {})
  {
    var t := MMoved(n, d, names);
    assert forall c :: c in d.relay.circuits && c != p.circuit ==> c in n.windows;
  }

  lemma AcceptRelayOk(n: Net, d: Done, p: Packet, names: Names)
    requires RelayOk(n, names) && Promotes(n.m, d, p)
    ensures RelayOk(MMoved(n, d, names), names)
  {
    AcceptHistory(n, d, p, names);
  }

  lemma AcceptChannels(n: Net, d: Done, p: Packet, names: Names)
    requires RelayOk(n, names) && ChannelsOk(n) && LinksOk(n, names) && Promotes(n.m, d, p)
    ensures ChannelsOk(MMoved(n, d, names)) && LinksOk(MMoved(n, d, names), names)
  {
    AcceptHistory(n, d, p, names);
    SendOne(n.down, n.serial, Route(n.m.pending[p.circuit].requester, Opened(n.m.pending[p.circuit].context, p.circuit, p.window)), names.requester);
  }

  /** Nothing about the new circuit is in flight yet, except the OPENED it sends. */
  lemma AcceptCredit(n: Net, d: Done, p: Packet, c: Id, names: Names)
    requires Inv(n, names) && Promotes(n.m, d, p) && c in MMoved(n, d, names).mine && c in MMoved(n, d, names).windows
    ensures CreditOk(MMoved(n, d, names), c, names)
  {
    var cid := p.circuit;
    var r := Route(n.m.pending[cid].requester, Opened(n.m.pending[cid].context, cid, p.window));
    AcceptHistory(n, d, p, names);
    SendOne(n.down, n.serial, r, names.requester);
    SerialUnused(n, names);
    FlightAdd(n.down, n.serial, r.packet, c);
    if c == cid {
      FlightNone(n.up, c);
      FlightNone(n.down, c);
    } else {
      assert CreditOk(n, c, names);
    }
  }

  lemma AcceptKeeps(n: Net, d: Done, p: Packet, names: Names)
    requires Inv(n, names) && Promotes(n.m, d, p)
    ensures Inv(MMoved(n, d, names), names)
  {
    hide CreditOk, ChannelsOk, LinksOk, Promotes, MMoved;
    AcceptRelayOk(n, d, p, names);
    AcceptChannels(n, d, p, names);
    forall c | c in MMoved(n, d, names).mine ensures CreditOk(MMoved(n, d, names), c, names) {
      AcceptCredit(n, d, p, c, names);
    }
  }

  /** One circuit changes credit, within the bound, and at most one packet about it is sent. */
  ghost predicate Moves(n: Net, d: Done, cid: Id, after: Circuit, route: Route) {
    && Relayed(n.m, d, cid, after, route) && About(route.packet) == Some(cid) && !route.packet.Opened?
    && after.requester == n.m.circuits[cid].requester && after.endpoint == n.m.circuits[cid].endpoint && after.requesterCredit <= MAX_WINDOW
  }

  lemma MovesHistory(n: Net, d: Done, cid: Id, after: Circuit, route: Route, names: Names)
    requires RelayOk(n, names) && Moves(n, d, cid, after, route)
    ensures var t := MMoved(n, d, names);
            && t.windows == n.windows && t.mine == n.mine
            && t.down == (if d.out != [] && route.destination == names.requester then Sent(n.down, n.serial, route.packet) else n.down)
  {
    SendOne(n.down, n.serial, route, names.requester);
    assert forall c :: c in d.relay.circuits ==> c in n.windows;
  }

  lemma MovesRelayOk(n: Net, d: Done, cid: Id, after: Circuit, route: Route, names: Names)
    requires RelayOk(n, names) && Moves(n, d, cid, after, route)
    ensures RelayOk(MMoved(n, d, names), names)
  {
    MovesHistory(n, d, cid, after, route, names);
  }

  lemma MovesChannels(n: Net, d: Done, cid: Id, after: Circuit, route: Route, names: Names)
    requires RelayOk(n, names) && ChannelsOk(n) && LinksOk(n, names) && Moves(n, d, cid, after, route)
    ensures ChannelsOk(MMoved(n, d, names)) && LinksOk(MMoved(n, d, names), names)
  {
    MovesHistory(n, d, cid, after, route, names);
    SendOne(n.down, n.serial, route, names.requester);
  }

  /** The other circuits do not notice. */
  lemma MovesOthers(n: Net, d: Done, cid: Id, after: Circuit, route: Route, c: Id, names: Names)
    requires Inv(n, names) && Moves(n, d, cid, after, route) && c in n.mine && c != cid
    ensures c in MMoved(n, d, names).windows && CreditOk(MMoved(n, d, names), c, names)
  {
    MovesHistory(n, d, cid, after, route, names);
    assert CreditOk(n, c, names);
    SerialUnused(n, names);
    FlightAdd(n.down, n.serial, route.packet, c);
  }

  /** So it is enough to look at the circuit itself. */
  lemma MovesKeep(n: Net, d: Done, cid: Id, after: Circuit, route: Route, names: Names)
    requires Inv(n, names) && Moves(n, d, cid, after, route)
    requires cid in n.mine && cid in MMoved(n, d, names).windows ==> CreditOk(MMoved(n, d, names), cid, names)
    ensures Inv(MMoved(n, d, names), names)
  {
    hide CreditOk, ChannelsOk, LinksOk, Moves;
    var t := MMoved(n, d, names);
    MovesHistory(n, d, cid, after, route, names);
    MovesRelayOk(n, d, cid, after, route, names);
    MovesChannels(n, d, cid, after, route, names);
    forall c | c in t.mine ensures CreditOk(t, c, names) {
      if c != cid {
        MovesOthers(n, d, cid, after, route, c, names);
      }
    }
  }

  lemma MineRecorded(n: Net, c: Id, names: Names)
    requires Inv(n, names) && c in n.mine
    ensures c in n.windows && CreditOk(n, c, names)
  {
  }

  lemma SerialUnused(n: Net, names: Names)
    requires Inv(n, names)
    ensures n.serial !in n.down && n.serial !in n.up
  {
  }

  // ---- packets at the relay ----

  /** DATA or WINDOW from the other end of one of our circuits. */
  lemma OtherEndKeeps(n: Net, from: Peer, p: Packet, at: nat, admission: Option<Admission>, id: Id, names: Names)
    requires Inv(n, names) && from != names.requester && (p.Data? || p.Window?)
    ensures Inv(MMoved(n, Handle(n.m, from, p, at, admission, id), names), names)
  {
    hide Handle, SendAll, CreditOk, MMoved;
    var d := Handle(n.m, from, p, at, admission, id);
    var cid := p.circuit;
    if Quiet(n.m, d, None) {
      QuietKeeps(n, d, None, names);
    } else {
      if p.Data? { DataRelayed(n.m, from, p, at, admission, id); } else { WindowRelayed(n.m, from, p, at, admission, id); }
      var c := n.m.circuits[cid];
      var side := SideOf(c, from).value;
      var after := if p.Data? then Spent(c, side, p.bytes) else Granted(c, side, p.delta);
      var route := Route(PeerOn(c, Other(side)), p);
      if cid in n.mine {
        OtherEndCredit(n, d, cid, after, route, p, names);
      }
      MovesKeep(n, d, cid, after, route, names);
    }
  }

  lemma OtherEndCredit(n: Net, d: Done, cid: Id, after: Circuit, route: Route, p: Packet, names: Names)
    requires Inv(n, names) && Moves(n, d, cid, after, route) && cid in n.mine && route == Route(names.requester, p)
    requires p.Data? ==> p.bytes <= n.m.circuits[cid].endpointCredit && after == Spent(n.m.circuits[cid], EndpointSide, p.bytes)
    requires p.Window? ==> after == Granted(n.m.circuits[cid], EndpointSide, p.delta)
    ensures cid in MMoved(n, d, names).windows && CreditOk(MMoved(n, d, names), cid, names)
  {
    MovesHistory(n, d, cid, after, route, names);
    MineRecorded(n, cid, names);
    SerialUnused(n, names);
    FlightAdd(n.down, n.serial, p, cid);
  }

  /** DATA or WINDOW from our requester: what it frees on the way up it takes from, or gives to, the relay's credit. */
  lemma OwnPacketKeeps(n: Net, key: nat, at: nat, admission: Option<Admission>, id: Id, names: Names)
    requires Inv(n, names) && key in n.up && (n.up[key].Data? || n.up[key].Window?)
    ensures Inv(MMoved(n.(up := n.up - {key}), Handle(n.m, names.requester, n.up[key], at, admission, id), names), names)
  {
    hide Handle, SendAll;
    var p := n.up[key];
    var r := n.(up := n.up - {key});
    var d := Handle(n.m, names.requester, p, at, admission, id);
    var cid := p.circuit;
    LoseUpKeeps(n, key, names);
    if Quiet(n.m, d, None) {
      QuietKeeps(r, d, None, names);
    } else {
      if p.Data? { DataRelayed(n.m, names.requester, p, at, admission, id); } else { WindowRelayed(n.m, names.requester, p, at, admission, id); }
      assert cid in n.mine;
      var c := n.m.circuits[cid];
      var after := if p.Data? then Spent(c, RequesterSide, p.bytes) else Granted(c, RequesterSide, p.delta);
      var route := Route(c.endpoint, p);
      MovesHistory(r, d, cid, after, route, names);
      assert CreditOk(n, cid, names);
      FlightRemove(n.up, key, cid);
      MovesKeep(r, d, cid, after, route, names);
    }
  }

  lemma RelayPacketKeeps(n: Net, from: Peer, p: Packet, at: nat, admission: Option<Admission>, id: Id, names: Names)
    requires Inv(n, names) && Drawn(n, p, id) && !p.Data? && !p.Window?
    ensures Inv(MMoved(n, Handle(n.m, from, p, at, admission, id), names), names)
  {
    hide Handle, MMoved, Inv, Quiet;
    var d := Handle(n.m, from, p, at, admission, id);
    if p.Accept? {
      AcceptRelayed(n.m, from, p, at, admission, id);
      if Quiet(n.m, d, None) {
        QuietKeeps(n, d, None, names);
      } else {
        AcceptKeeps(n, d, p, names);
      }
    } else {
      HandleQuiet(n.m, from, p, at, admission, id);
      QuietKeeps(n, d, if p.Open? then Some(id) else None, names);
    }
  }

  // ---- the requester moves no credit ----

  /** No link over our relay appears or changes, and nothing sent is about credit. */
  ghost predicate Idle(q: Q.Requester, d: Q.Did, names: Names) {
    && (forall c :: LinkOf(d.requester, c, names).Some? ==> LinkOf(d.requester, c, names) == LinkOf(q, c, names))
    && (d.route.Some? && d.route.value.destination == names.relay ==> About(d.route.value.packet).None?)
  }

  /** The requester's moves leave the relay's side of the invariant alone. */
  lemma RelaySame(n: Net, t: Net, names: Names)
    requires RelayOk(n, names) && t.m == n.m && t.windows == n.windows && t.mine == n.mine && t.drawn == n.drawn
    ensures RelayOk(t, names)
  {
  }

  lemma IdleCredit(n: Net, d: Q.Did, c: Id, names: Names)
    requires Idle(n.q, d, names) && c in n.windows && CreditOk(n, c, names) && n.serial !in n.up
    ensures CreditOk(QMoved(n, d, names), c, names)
  {
    if d.route.Some? {
      FlightAdd(n.up, n.serial, d.route.value.packet, c);
    }
  }

  lemma IdleKeeps(n: Net, d: Q.Did, names: Names)
    requires Inv(n, names) && Idle(n.q, d, names)
    ensures Inv(QMoved(n, d, names), names)
  {
    hide RelayOk, CreditOk;
    var t := QMoved(n, d, names);
    SerialUnused(n, names);
    RelaySame(n, t, names);
    forall c | c in t.mine ensures c in t.windows && CreditOk(t, c, names) {
      MineRecorded(n, c, names);
      IdleCredit(n, d, c, names);
    }
  }

  lemma RefusedIdle(q: Q.Requester, d: Q.Did, names: Names)
    requires d.requester.links == q.links && d.route.None?
    ensures Idle(q, d, names)
  {
  }

  lemma DroppedIdle(q: Q.Requester, waiting: set<Id>, links: set<Id>, route: Option<Route>, names: Names)
    requires route.Some? ==> About(route.value.packet).None?
    ensures Idle(q, Q.Did(Q.Dropped(q, waiting, links), route, Ok(())), names)
  {
  }

  lemma OpeningIdle(q: Q.Requester, relay: Peer, ticket: Ticket, valid: bool, at: nat, deadline: nat, window: nat, context: Id, names: Names)
    ensures Idle(q, Q.BeginOpen(q, relay, ticket, valid, at, deadline, window, context), names)
  {
  }

  lemma ClosingIdle(q: Q.Requester, id: Id, detail: nat, relay: Peer, names: Names)
    ensures Idle(q, Q.CloseCircuit(q, id, detail), names) && Idle(q, Q.CancelOpen(q, id, detail), names) && Idle(q, Q.Disconnect(q, relay), names)
  {
    hide Q.Dropped, Idle;
    RefusedIdle(q, Q.Refused(q, UnknownCircuit), names);
    RefusedIdle(q, Q.Refused(q, UnknownRequest), names);
    RefusedIdle(q, Q.Refused(q.(waiting := q.waiting - {id}), TooLarge), names);
    if id in q.links {
      DroppedIdle(q, {}, {id}, Some(Route(q.links[id].relay, Close(id))), names);
      FewerLinksIdle(q, Q.Refused(q.(links := q.links - {id}), TooLarge), names);
    }
    if id in q.waiting {
      DroppedIdle(q, {id}, {}, Some(Route(q.waiting[id].relay, Close(id))), names);
    }
    DroppedIdle(q, (set c | c in q.waiting && q.waiting[c].relay == relay), (set c | c in q.links && q.links[c].relay == relay), None, names);
  }

  lemma FewerLinksIdle(q: Q.Requester, d: Q.Did, names: Names)
    requires d.route.None? && forall c :: c in d.requester.links ==> c in q.links && d.requester.links[c] == q.links[c]
    ensures Idle(q, d, names)
  {
  }

  lemma SameLinksIdle(q: Q.Requester, r: Q.Requester, d: Q.Did, names: Names)
    requires q.links == r.links && Idle(r, d, names)
    ensures Idle(q, d, names)
  {
  }

  lemma AgeingIdle(q: Q.Requester, at: nat, expected: nat, enabled: bool, names: Names)
    ensures Idle(q, Q.Expire(q, at), names) && Idle(q, Q.ReplaceEnabled(q, expected, enabled), names)
  {
    hide Q.Dropped, Idle;
    var t := q.(time := at, usage := LiveUsage(q.usage, at));
    var ws := set c | c in q.waiting && (q.waiting[c].deadline <= at || q.waiting[c].ticket.expires <= at);
    var ls := set c | c in q.links && q.links[c].ticket.expires <= at;
    DroppedIdle(t, ws, ls, None, names);
    SameLinksIdle(q, t, Q.Quietly(Q.Dropped(t, ws, ls)), names);
    RefusedIdle(q, Q.Refused(q, ClockRollback), names);
    var n := q.(generation := q.generation + 1, enabled := enabled);
    DroppedIdle(n, n.waiting.Keys, n.links.Keys, None, names);
    SameLinksIdle(q, n, Q.Quietly(Q.Dropped(n, n.waiting.Keys, n.links.Keys)), names);
    RefusedIdle(q, Q.Quietly(n), names);
    RefusedIdle(q, Q.Quietly(q), names);
    RefusedIdle(q, Q.Refused(q, StaleGeneration), names);
    RefusedIdle(q, Q.Refused(q, GenerationExhausted), names);
  }

  lemma ForeignIdle(q: Q.Requester, from: Peer, p: Packet, at: nat, names: Names)
    requires from != names.relay
    ensures Idle(q, Q.Handle(q, from, p, at), names)
  {
  }

  // ---- the requester moves credit ----

  /** One link over our relay changes, keeping its window, and at most one packet about it goes up. */
  ghost predicate LinkMoves(n: Net, d: Q.Did, cid: Id, after: Q.Link, names: Names) {
    && LinkOf(d.requester, cid, names) == Some(after)
    && (forall c :: c != cid ==> LinkOf(d.requester, c, names) == LinkOf(n.q, c, names))
    && cid in n.mine && cid in n.windows && Q.WindowOf(after) == n.windows[cid] && Q.LinkOk(after)
    && (d.route.Some? && d.route.value.destination == names.relay ==> About(d.route.value.packet) == Some(cid) && !d.route.value.packet.Opened?)
  }

  lemma LinkMovesOthers(n: Net, d: Q.Did, cid: Id, after: Q.Link, c: Id, names: Names)
    requires Inv(n, names) && LinkMoves(n, d, cid, after, names) && c in n.mine && c != cid
    ensures c in n.windows && CreditOk(QMoved(n, d, names), c, names)
  {
    assert CreditOk(n, c, names);
    SerialUnused(n, names);
    if d.route.Some? {
      FlightAdd(n.up, n.serial, d.route.value.packet, c);
    }
  }

  lemma LinkMovesKeep(n: Net, d: Q.Did, cid: Id, after: Q.Link, names: Names)
    requires Inv(n, names) && LinkMoves(n, d, cid, after, names) && CreditOk(QMoved(n, d, names), cid, names)
    ensures Inv(QMoved(n, d, names), names)
  {
    hide CreditOk, RelayOk;
    var t := QMoved(n, d, names);
    RelaySame(n, t, names);
    forall c | c in t.mine ensures c in t.windows && CreditOk(t, c, names) {
      MineRecorded(n, c, names);
      if c != cid {
        LinkMovesOthers(n, d, cid, after, c, names);
      }
    }
  }

  lemma SendingKeeps(n: Net, cid: Id, bytes: nat, names: Names)
    requires Inv(n, names)
    ensures Inv(QMoved(n, Q.SendData(n.q, cid, bytes), names), names)
  {
    var d := Q.SendData(n.q, cid, bytes);
    if d.result.Err? {
      RefusedIdle(n.q, d, names);
      IdleKeeps(n, d, names);
    } else if n.q.links[cid].relay != names.relay {
      IdleKeeps(n, d, names);
    } else {
      assert LinkOf(n.q, cid, names).Some?;
      assert CreditOk(n, cid, names);
      SerialUnused(n, names);
      FlightAdd(n.up, n.serial, Data(cid, bytes), cid);
      LinkMovesKeep(n, d, cid, d.requester.links[cid], names);
    }
  }

  lemma TakingKeeps(n: Net, cid: Id, names: Names)
    requires Inv(n, names)
    ensures Inv(QMoved(n, Q.TakeData(n.q, cid), names), names)
  {
    var d := Q.TakeData(n.q, cid);
    if !n.q.enabled || cid !in n.q.links || n.q.links[cid].inbound == [] {
      RefusedIdle(n.q, d, names);
      IdleKeeps(n, d, names);
    } else if n.q.links[cid].relay != names.relay {
      IdleKeeps(n, d, names);
    } else {
      assert LinkOf(n.q, cid, names).Some?;
      var l := n.q.links[cid];
      TakeLink(l);
      assert CreditOk(n, cid, names);
      SerialUnused(n, names);
      FlightAdd(n.up, n.serial, Window(cid, l.inbound[0]), cid);
      LinkMovesKeep(n, d, cid, d.requester.links[cid], names);
    }
  }

  /** A buffered frame is covered by the window, so its credit can always be returned. */
  lemma TakeLink(l: Q.Link)
    requires Q.LinkOk(l) && l.inbound != []
    ensures l.inbound[0] <= l.queued && l.receiveCredit + l.inbound[0] <= MAX_WINDOW
    ensures Q.LinkOk(l.(inbound := l.inbound[1..], queued := l.queued - l.inbound[0], receiveCredit := l.receiveCredit + l.inbound[0]))
  {
  }

  // ---- packets at the requester ----

  /** What an admitted DATA, WINDOW or OPENED does to the requester's links. */
  function After(q: Q.Requester, p: Packet): Q.Link
    requires About(p).Some? && (p.Opened? || p.circuit in q.links)
    requires p.Data? ==> p.bytes <= q.links[p.circuit].receiveCredit
    requires p.Opened? ==> p.context in q.waiting
  {
    match p
    case Data(cid, n) =>
      var l := q.links[cid];
      l.(receiveCredit := l.receiveCredit - n, total := SaturatingAdd(l.total, n), queued := l.queued + n, inbound := l.inbound + [n])
    case Window(cid, delta) => q.links[cid].(sendCredit := q.links[cid].sendCredit + delta)
    case Opened(context, cid, w) => Q.Link(q.waiting[context].relay, q.waiting[context].ticket, w, w, 0, 0, [])
  }

  lemma Admitted(q: Q.Requester, p: Packet, at: nat, names: Names)
    requires About(p).Some?
    ensures var d := Q.Handle(q, names.relay, p, at);
            && d.route.None? && (d.result.Err? ==> d.requester.links == q.links)
            && (d.result.Ok? ==>
                  && p.WellFormed() && (p.Opened? <==> p.circuit !in q.links)
                  && (p.Data? ==> p.bytes <= q.links[p.circuit].receiveCredit)
                  && (p.Window? ==> q.links[p.circuit].sendCredit + p.delta <= MAX_WINDOW)
                  && (p.Opened? ==> p.context in q.waiting) && (!p.Opened? ==> q.links[p.circuit].relay == names.relay)
                  && d.requester.links == q.links[p.circuit := After(q, p)] && After(q, p).relay == names.relay)
  {
  }

  lemma AdmittedMoves(n: Net, p: Packet, d: Q.Did, names: Names)
    requires LinksOk(n, names) && About(p).Some? && p.WellFormed() && d.route.None? && (p.Opened? <==> p.circuit !in n.q.links)
    requires p.Data? ==> p.bytes <= n.q.links[p.circuit].receiveCredit
    requires p.Window? ==> n.q.links[p.circuit].sendCredit + p.delta <= MAX_WINDOW
    requires p.Opened? ==> p.context in n.q.waiting && p.circuit in n.mine && p.circuit in n.windows && p.window == n.windows[p.circuit]
    requires d.requester.links == n.q.links[p.circuit := After(n.q, p)] && After(n.q, p).relay == names.relay
    ensures LinkMoves(n, d, p.circuit, After(n.q, p), names)
  {
    assert p.Data? || p.Window? ==> LinkOf(n.q, p.circuit, names).Some?;
    if p.Data? {
      Q.TotalAppend(n.q.links[p.circuit].inbound, p.bytes);
    }
  }

  lemma AdmittedCredit(n: Net, key: nat, d: Q.Did, names: Names)
    requires key in n.down && About(n.down[key]).Some? && n.down[key].circuit in n.windows && CreditOk(n, n.down[key].circuit, names)
    requires var p := n.down[key];
             && (p.Opened? <==> p.circuit !in n.q.links) && (p.Data? ==> p.bytes <= n.q.links[p.circuit].receiveCredit) && (p.Opened? ==> p.context in n.q.waiting)
             && d.requester.links == n.q.links[p.circuit := After(n.q, p)] && After(n.q, p).relay == names.relay && d.route.None?
    ensures CreditOk(QMoved(n.(down := n.down - {key}), d, names), n.down[key].circuit, names)
  {
    FlightRemove(n.down, key, n.down[key].circuit);
  }

  lemma ReceivedKeeps(n: Net, key: nat, at: nat, names: Names)
    requires Inv(n, names) && key in n.down && About(n.down[key]).Some?
    ensures Inv(QMoved(n.(down := n.down - {key}), Q.Handle(n.q, names.relay, n.down[key], at), names), names)
  {
    hide Q.Handle, CreditOk, RelayOk, After;
    var p := n.down[key];
    var r := n.(down := n.down - {key});
    var d := Q.Handle(n.q, names.relay, p, at);
    LoseDownKeeps(n, key, names);
    Admitted(n.q, p, at, names);
    if d.result.Err? {
      RefusedIdle(n.q, d, names);
      IdleKeeps(r, d, names);
    } else {
      Recorded(n, key, names);
      assert p.Data? || p.Window? ==> LinkOf(n.q, p.circuit, names).Some?;
      AdmittedMoves(r, p, d, names);
      AdmittedCredit(n, key, d, names);
      LinkMovesKeep(r, d, p.circuit, After(n.q, p), names);
    }
  }

  lemma Recorded(n: Net, key: nat, names: Names)
    requires Inv(n, names) && key in n.down && About(n.down[key]).Some?
    ensures var cid := n.down[key].circuit; cid in n.windows && (cid in n.mine ==> CreditOk(n, cid, names))
    ensures n.down[key].Opened? ==> n.down[key].circuit in n.mine
  {
  }

  lemma OtherReceivedIdle(q: Q.Requester, p: Packet, at: nat, names: Names)
    requires About(p).None?
    ensures Idle(q, Q.Handle(q, names.relay, p, at), names)
  {
  }

  // ---- every step ----

  lemma StepKeeps(n: Net, e: Event, t: Net, names: Names)
    requires Inv(n, names) && Step(n, e, t, names)
    ensures Inv(t, names)
  {
    hide Inv, MMoved, QMoved, Handle, Did, Idle, Q.Handle, Q.BeginOpen, Q.SendData, Q.TakeData, Q.CloseCircuit, Q.CancelOpen, Q.Disconnect, Q.Expire, Q.ReplaceEnabled;
    match e
    case Opening(relay, ticket, valid, at, deadline, window, context) =>
      OpeningIdle(n.q, relay, ticket, valid, at, deadline, window, context, names);
      IdleKeeps(n, Q.BeginOpen(n.q, relay, ticket, valid, at, deadline, window, context), names);
    case Sending(link, bytes) => SendingKeeps(n, link, bytes, names);
    case Taking(link) => TakingKeeps(n, link, names);
    case Closing(link, detail) =>
      ClosingIdle(n.q, link, detail, 0, names);
      IdleKeeps(n, Q.CloseCircuit(n.q, link, detail), names);
    case Cancelling(context, detail) =>
      ClosingIdle(n.q, context, detail, 0, names);
      IdleKeeps(n, Q.CancelOpen(n.q, context, detail), names);
    case Leaving(relay) =>
      ClosingIdle(n.q, 0, 0, relay, names);
      IdleKeeps(n, Q.Disconnect(n.q, relay), names);
    case Ageing(at) =>
      AgeingIdle(n.q, at, 0, true, names);
      IdleKeeps(n, Q.Expire(n.q, at), names);
    case Switching(expected, enabled) =>
      AgeingIdle(n.q, 0, expected, enabled, names);
      IdleKeeps(n, Q.ReplaceEnabled(n.q, expected, enabled), names);
    case Restarting(snapshot, minimum, at) =>
      FewerLinksIdle(n.q, Restarted(snapshot, minimum, at), names);
      IdleKeeps(n, Restarted(snapshot, minimum, at), names);
    case Receives(key, at) =>
      if About(n.down[key]).Some? {
        ReceivedKeeps(n, key, at, names);
      } else {
        LoseDownKeeps(n, key, names);
        OtherReceivedIdle(n.q, n.down[key], at, names);
        IdleKeeps(n.(down := n.down - {key}), Q.Handle(n.q, names.relay, n.down[key], at), names);
      }
    case Hears(from, packet, at) =>
      ForeignIdle(n.q, from, packet, at, names);
      IdleKeeps(n, Q.Handle(n.q, from, packet, at), names);
    case Relays(key, at, admission, id) =>
      if n.up[key].Data? || n.up[key].Window? {
        OwnPacketKeeps(n, key, at, admission, id, names);
      } else {
        LoseUpKeeps(n, key, names);
        RelayPacketKeeps(n.(up := n.up - {key}), names.requester, n.up[key], at, admission, id, names);
      }
    case RelayHears(from, packet, at, admission, id) =>
      if packet.Data? || packet.Window? {
        OtherEndKeeps(n, from, packet, at, admission, id, names);
      } else {
        RelayPacketKeeps(n, from, packet, at, admission, id, names);
      }
    case RelayDoes(what) =>
      ChoresQuiet(n.m, what, None);
      QuietKeeps(n, Did(n.m, what), None, names);
    case LosesUp(key) => LoseUpKeeps(n, key, names);
    case LosesDown(key) => LoseDownKeeps(n, key, names);
  }

  ghost function Steps(names: Names): (Net, Net) -> bool {
    (n, t) => exists e :: Step(n, e, t, names)
  }

  ghost function Invariant(names: Names): Net -> bool {
    n => Inv(n, names)
  }

  /** A run starts with no circuits on either side and empty channels. */
  ghost predicate Run(states: seq<Net>, names: Names) {
    && Trace(Steps(names), states)
    && exists q: Q.Requester, m: Relay ::
         q.links == map[] && m.pending == map[] && m.circuits == map[] && states[0] == Net(q, m, map[], map[], 0, map[], {}, {})
  }

  lemma RunKeeps(states: seq<Net>, names: Names, i: nat)
    requires Run(states, names) && i < |states|
    ensures Inv(states[i], names)
  {
    hide Inv, Step;
    var q: Q.Requester, m: Relay :|
      q.links == map[] && m.pending == map[] && m.circuits == map[] && states[0] == Net(q, m, map[], map[], 0, map[], {}, {});
    InitialOk(q, m, names);
    forall n, t | Invariant(names)(n) && Steps(names)(n, t) ensures Invariant(names)(t) {
      var e :| Step(n, e, t, names);
      StepKeeps(n, e, t, names);
    }
    Always(Steps(names), Invariant(names), states, i);
  }

  // ---- the theorems ----

  /** The relay refuses our requester's DATA for flow control only when its own queue is full, never for credit. */
  lemma RelayNeverShortOfCredit(states: seq<Net>, names: Names, i: nat, key: nat)
    requires Run(states, names) && i < |states| && key in states[i].up && states[i].up[key].Data?
    ensures var n := states[i];
            var p := n.up[key];
            p.circuit in n.m.circuits ==>
              && n.m.circuits[p.circuit].requester == names.requester && p.bytes <= n.m.circuits[p.circuit].requesterCredit
              && (HandleData(n.m, names.requester, p).result == Err(FlowControl) ==> n.m.circuits[p.circuit].toEndpoint + p.bytes > n.m.config.maxQueue)
  {
    RunKeeps(states, names, i);
    var n := states[i];
    var p := n.up[key];
    if p.circuit in n.m.circuits {
      assert CreditOk(n, p.circuit, names);
      FlightRemove(n.up, key, p.circuit);
    }
  }

  /** And the requester never refuses the relay's DATA for want of receive credit. */
  lemma RequesterNeverShortOfCredit(states: seq<Net>, names: Names, i: nat, key: nat)
    requires Run(states, names) && i < |states| && key in states[i].down && states[i].down[key].Data?
    ensures var n := states[i];
            var p := n.down[key];
            LinkOf(n.q, p.circuit, names).Some? ==>
              && p.bytes <= n.q.links[p.circuit].receiveCredit
              && (Q.HandleData(n.q, names.relay, p).result == Err(FlowControl) ==> n.q.links[p.circuit].queued + p.bytes > n.q.limits.maxQueue)
  {
    RunKeeps(states, names, i);
    var n := states[i];
    var p := n.down[key];
    if LinkOf(n.q, p.circuit, names).Some? {
      assert CreditOk(n, p.circuit, names);
      FlightRemove(n.down, key, p.circuit);
    }
  }

  /** No WINDOW between the two overflows the protocol bound, in either direction. */
  lemma WindowsNeverOverflow(states: seq<Net>, names: Names, i: nat, key: nat)
    requires Run(states, names) && i < |states|
    ensures var n := states[i];
            key in n.up && n.up[key].Window? && n.up[key].circuit in n.m.circuits ==>
              && n.up[key].circuit in n.windows
              && n.m.circuits[n.up[key].circuit].endpointCredit + n.up[key].delta <= n.windows[n.up[key].circuit] <= MAX_WINDOW
    ensures var n := states[i];
            key in n.down && n.down[key].Window? && LinkOf(n.q, n.down[key].circuit, names).Some? ==>
              n.q.links[n.down[key].circuit].sendCredit + n.down[key].delta <= MAX_WINDOW
  {
    RunKeeps(states, names, i);
    var n := states[i];
    if key in n.up && n.up[key].Window? && n.up[key].circuit in n.m.circuits {
      assert CreditOk(n, n.up[key].circuit, names);
      FlightRemove(n.up, key, n.up[key].circuit);
    }
    if key in n.down && n.down[key].Window? && LinkOf(n.q, n.down[key].circuit, names).Some? {
      assert CreditOk(n, n.down[key].circuit, names);
      FlightRemove(n.down, key, n.down[key].circuit);
    }
  }

  /** A link's receive credit and buffered bytes always make up the window it was accepted with, so a buffered frame can be taken. */
  lemma WindowsAreKept(states: seq<Net>, names: Names, i: nat, cid: Id)
    requires Run(states, names) && i < |states| && LinkOf(states[i].q, cid, names).Some?
    ensures var n := states[i];
            && cid in n.windows && Q.WindowOf(n.q.links[cid]) == n.windows[cid]
            && (n.q.enabled && n.q.links[cid].inbound != [] ==> Q.TakeData(n.q, cid).result.Ok?)
  {
    RunKeeps(states, names, i);
    var l := states[i].q.links[cid];
    assert LinkOf(states[i].q, cid, names) == Some(l);
    if l.inbound != [] {
      TakeLink(l);
    }
  }
}
