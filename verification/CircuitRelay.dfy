/**
  The opaque circuit relay: pending opens, established circuits, directional credit, and the in-flight actions that
  stay counted against their circuit until the adapter acknowledges the write.

  The relay is a value here and each handler a function. An order in which the program happens to walk a hash map
  is a parameter, as is the random identifier it draws.
 */
module CircuitRelays {
  import opened Common
  import opened Tallies

  const MAX_WINDOW: nat := 1_048_576
  const MIN_WINDOW: nat := 16_384
  const MAX_DATA_SIZE: nat := 16_384

  type Id = nat
  type Peer = nat

  // ---- packets ----

  /** The circuit plane. Opaque payloads are represented by their length; CLOSE stands for ERROR as well. */
  datatype Packet =
    | Open(context: Id, reservation: Id, window: nat)
    | Incoming(circuit: Id, request: Id, window: nat)
    | Accept(circuit: Id, window: nat)
    | Opened(context: Id, circuit: Id, window: nat)
    | Data(circuit: Id, bytes: nat)
    | Window(circuit: Id, delta: nat)
    | Close(context: Id)
  {
    /** What decoding a body checks. */
    predicate WellFormed() {
      match this
      case Open(_, _, w) => MIN_WINDOW <= w <= MAX_WINDOW
      case Incoming(_, _, w) => MIN_WINDOW <= w <= MAX_WINDOW
      case Accept(_, w) => MIN_WINDOW <= w <= MAX_WINDOW
      case Opened(_, _, w) => MIN_WINDOW <= w <= MAX_WINDOW
      case Data(_, n) => 0 < n <= MAX_DATA_SIZE
      case Window(_, d) => 0 < d <= MAX_WINDOW
      case Close(_) => true
    }
  }

  datatype Route = Route(destination: Peer, packet: Packet)

  // ---- state ----

  datatype Ticket = Ticket(reservation: Id, maxActive: nat, maxBytes: nat, maxTotal: nat, expires: nat)

  datatype Pending = Pending(requester: Peer, endpoint: Peer, context: Id, ticket: Ticket, window: nat, deadline: nat)

  datatype Circuit = Circuit(
    requester: Peer, endpoint: Peer, reservation: Id, expires: nat, maxBytes: nat, maxTotal: nat,
    requesterCredit: nat, endpointCredit: nat, forwarded: nat, toRequester: nat, toEndpoint: nat)

  datatype Side = RequesterSide | EndpointSide

  datatype Kind = IsIncoming | IsOpened | IsData(side: Side, bytes: nat) | IsControl | IsClose

  datatype Action = Action(circuit: Id, destination: Peer, kind: Kind)

  datatype Usage = Usage(bytes: nat, expires: nat)

  datatype Counters = Counters(admitted: nat, accepted: nat, sent: nat, received: nat, revoked: nat)

  datatype Config = Config(
    maxPending: nat, maxCircuits: nat, maxPerPeer: nat, maxQueue: nat,
    maxActions: nat, maxActionsPerCircuit: nat, maxActionsPerPeer: nat, maxBytes: nat, acceptTimeout: nat)

  /** In-flight actions are keyed by their sequence number within the current generation. */
  datatype Relay = Relay(
    config: Config, generation: nat, enabled: bool, time: nat,
    pending: map<Id, Pending>, circuits: map<Id, Circuit>, usage: map<Id, Usage>,
    inflight: map<nat, Action>, next: nat, counters: Counters)

  datatype Error =
    | ClockRollback | Disabled | Malformed | UnexpectedOpcode | Capacity | NotAdmitted | ByteLimit | Deadline | UnknownRequest
    | UnknownCircuit | WrongPeer | InvalidAdmission | FlowControl | GenerationExhausted | StaleGeneration | UnknownAction | NoQueuedData | TooLarge

  datatype Done = Done(relay: Relay, out: seq<Route>, result: Result<(), Error>)

  function Fresh(config: Config, generation: nat, now: nat): Relay {
    Relay(config, generation, true, now, map[], map[], map[], map[], 1, Counters(0, 0, 0, 0, 0))
  }

  function Failed(m: Relay, e: Error): Done {
    Done(m, [], Err(e))
  }

  // ---- counting ----

  function ActionsOf(inflight: map<nat, Action>, cid: Id): set<nat> {
    set a | a in inflight && inflight[a].circuit == cid
  }

  function ActionsTo(inflight: map<nat, Action>, peer: Peer): set<nat> {
    set a | a in inflight && inflight[a].destination == peer
  }

  predicate Involves(requester: Peer, endpoint: Peer, peer: Peer) {
    requester == peer || endpoint == peer
  }

  function PendingWith(pending: map<Id, Pending>, peer: Peer): set<Id> {
    set c | c in pending && Involves(pending[c].requester, pending[c].endpoint, peer)
  }

  function CircuitsWith(circuits: map<Id, Circuit>, peer: Peer): set<Id> {
    set c | c in circuits && Involves(circuits[c].requester, circuits[c].endpoint, peer)
  }

  function PeerWork(m: Relay, peer: Peer): nat {
    |PendingWith(m.pending, peer)| + |CircuitsWith(m.circuits, peer)|
  }

  function PendingOn(pending: map<Id, Pending>, reservation: Id): set<Id> {
    set c | c in pending && pending[c].ticket.reservation == reservation
  }

  function CircuitsOn(circuits: map<Id, Circuit>, reservation: Id): set<Id> {
    set c | c in circuits && circuits[c].reservation == reservation
  }

  function ReservationWork(m: Relay, reservation: Id): nat {
    |PendingOn(m.pending, reservation)| + |CircuitsOn(m.circuits, reservation)|
  }

  // ---- actions ----

  function Without(inflight: map<nat, Action>, cid: Id): map<nat, Action> {
    map a | a in inflight && inflight[a].circuit != cid :: inflight[a]
  }

  predicate HasRoom(m: Relay, inflight: map<nat, Action>, destination: Peer, cid: Id) {
    && |inflight| < m.config.maxActions
    && |ActionsOf(inflight, cid)| < m.config.maxActionsPerCircuit
    && |ActionsTo(inflight, destination)| < m.config.maxActionsPerPeer
  }

  /** Queue one action under the next sequence number. */
  function Queue(m: Relay, cid: Id, r: Route, kind: Kind): Done {
    if !HasRoom(m, m.inflight, r.destination, cid) then Failed(m, Capacity)
    else if m.next >= U64_MAX then Failed(m, GenerationExhausted)
    else Done(m.(inflight := m.inflight[m.next := Action(cid, r.destination, kind)], next := m.next + 1), [r], Ok(()))
  }

  /** Best-effort closures: those that find no room are skipped. */
  function QueueCloses(m: Relay, cid: Id, routes: seq<Route>): Done
    decreases |routes|
  {
    if routes == [] then Done(m, [], Ok(()))
    else
      var first := Queue(m, cid, routes[0], IsClose);
      var rest := QueueCloses(first.relay, cid, routes[1..]);
      Done(rest.relay, first.out + rest.out, Ok(()))
  }

  // ---- revocation ----

  function Revoked(c: Counters): Counters {
    c.(revoked := SaturatingAdd(c.revoked, 1))
  }

  /** A pending open or a circuit leaves, and its in-flight actions with it. */
  function Removed(m: Relay, cid: Id): Relay {
    m.(pending := m.pending - {cid}, circuits := m.circuits - {cid}, inflight := Without(m.inflight, cid), counters := Revoked(m.counters))
  }

  function RevokeCircuit(m: Relay, cid: Id): Done {
    if cid !in m.circuits then Done(m, [], Ok(()))
    else
      var c := m.circuits[cid];
      QueueCloses(Removed(m, cid), cid, [Route(c.requester, Close(cid)), Route(c.endpoint, Close(cid))])
  }

  function RevokePending(m: Relay, cid: Id): Done {
    if cid !in m.pending then Done(m, [], Ok(()))
    else
      var p := m.pending[cid];
      QueueCloses(Removed(m, cid), cid, [Route(p.requester, Close(p.context)), Route(p.endpoint, Close(cid))])
  }

  /** A pending open that loses one of its peers is closed towards the other only. */
  function AbandonPending(m: Relay, cid: Id, peer: Peer): Done {
    if cid !in m.pending then Done(m, [], Ok(()))
    else
      var p := m.pending[cid];
      QueueCloses(Removed(m, cid), cid, [if p.requester == peer then Route(p.endpoint, Close(cid)) else Route(p.requester, Close(p.context))])
  }

  datatype Reason = Abandon(peer: Peer) | Revoke

  function RevokeEach(m: Relay, pendings: seq<Id>, circuits: seq<Id>, why: Reason): Done
    decreases |pendings| + |circuits|
  {
    if pendings != [] then
      var first := if why.Abandon? then AbandonPending(m, pendings[0], why.peer) else RevokePending(m, pendings[0]);
      var rest := RevokeEach(first.relay, pendings[1..], circuits, why);
      Done(rest.relay, first.out + rest.out, Ok(()))
    else if circuits != [] then
      var first := RevokeCircuit(m, circuits[0]);
      var rest := RevokeEach(first.relay, [], circuits[1..], why);
      Done(rest.relay, first.out + rest.out, Ok(()))
    else Done(m, [], Ok(()))
  }

  // ---- handlers ----

  /** Time is observed before anything else, and only moves forward. */
  function Admit(m: Relay, now: nat): Result<Relay, Error> {
    if now < m.time then Err(ClockRollback) else Ok(m.(time := now))
  }

  /** The confirmed reservation behind an open: its ticket and the endpoint's connection. */
  datatype Admission = Admission(ticket: Ticket, endpoint: Peer)

  function LiveUsage(usage: map<Id, Usage>, now: nat): map<Id, Usage> {
    map r | r in usage && usage[r].expires > now :: usage[r]
  }

  predicate OpenBlocked(m: Relay, source: Peer, context: Id) {
    || |m.pending| >= m.config.maxPending || |m.circuits| >= m.config.maxCircuits || PeerWork(m, source) >= m.config.maxPerPeer
    || exists c :: c in m.pending && m.pending[c].requester == source && m.pending[c].context == context
  }

  function HandleOpen(m: Relay, source: Peer, p: Packet, admission: Option<Admission>, cid: Id, now: nat): Done
    requires p.Open?
  {
    if OpenBlocked(m, source, p.context) then Failed(m, Capacity)
    else if !p.WellFormed() then Failed(m, Malformed)
    else if admission.None? then Failed(m, NotAdmitted)
    else
      var t := admission.value.ticket;
      var endpoint := admission.value.endpoint;
      var live := m.(usage := LiveUsage(m.usage, now));
      if endpoint == source || PeerWork(m, endpoint) >= m.config.maxPerPeer || ReservationWork(m, p.reservation) >= t.maxActive then
        Failed(live, Capacity)
      else if !HasRoom(m, m.inflight, endpoint, cid) then Failed(live, Capacity)
      else if now + m.config.acceptTimeout > U64_MAX then Failed(live, Deadline)
      else
        var u := if t.reservation in live.usage then live.usage[t.reservation] else Usage(0, t.expires);
        var charged := live.(usage := live.usage[t.reservation := u]);
        if u.expires != t.expires || u.bytes >= t.maxTotal then Failed(charged, ByteLimit)
        else
          var pending := Pending(source, endpoint, p.context, t, p.window, Min(now + m.config.acceptTimeout, t.expires));
          Queue(Opens(charged, cid, pending), cid, Route(endpoint, Incoming(cid, p.context, p.window)), IsIncoming)
  }

  function Opens(m: Relay, cid: Id, p: Pending): Relay {
    m.(pending := m.pending[cid := p], counters := m.counters.(admitted := SaturatingAdd(m.counters.admitted, 1)))
  }

  function Established(m: Relay, p: Pending, window: nat): Circuit {
    Circuit(p.requester, p.endpoint, p.ticket.reservation, p.ticket.expires, Min(p.ticket.maxBytes, m.config.maxBytes), p.ticket.maxTotal,
            window, window, 0, 0, 0)
  }

  /** A pending open becomes a circuit; the INCOMING action, if still in flight, is dropped. */
  function Promoted(m: Relay, cid: Id, window: nat): Relay
    requires cid in m.pending
  {
    m.(pending := m.pending - {cid},
       circuits := m.circuits[cid := Established(m, m.pending[cid], window)],
       inflight := Without(m.inflight, cid),
       counters := m.counters.(accepted := SaturatingAdd(m.counters.accepted, 1)))
  }

  function HandleAccept(m: Relay, source: Peer, p: Packet, now: nat): Done
    requires p.Accept?
  {
    var cid := p.circuit;
    if cid !in m.pending then Failed(m, UnknownRequest)
    else
      var q := m.pending[cid];
      if q.endpoint != source then Failed(m, WrongPeer)
      else if q.deadline <= now || q.ticket.expires <= now then Failed(m, InvalidAdmission)
      else if !p.WellFormed() then Failed(m, Malformed)
      else if p.window > q.window || |m.circuits| >= m.config.maxCircuits || ReservationWork(m, q.ticket.reservation) > q.ticket.maxActive then
        Failed(m, Capacity)
      else if !HasRoom(m, Without(m.inflight, cid), q.requester, cid) then Failed(m, Capacity)
      else Queue(Promoted(m, cid, p.window), cid, Route(q.requester, Opened(q.context, cid, p.window)), IsOpened)
  }

  function SideOf(c: Circuit, source: Peer): Option<Side> {
    if c.requester == source then Some(RequesterSide) else if c.endpoint == source then Some(EndpointSide) else None
  }

  function Other(side: Side): Side {
    if side.RequesterSide? then EndpointSide else RequesterSide
  }

  function PeerOn(c: Circuit, side: Side): Peer {
    if side.RequesterSide? then c.requester else c.endpoint
  }

  function CreditOf(c: Circuit, side: Side): nat {
    if side.RequesterSide? then c.requesterCredit else c.endpointCredit
  }

  function QueuedTo(c: Circuit, side: Side): nat {
    if side.RequesterSide? then c.toRequester else c.toEndpoint
  }

  /** DATA from one side: its credit is spent and the bytes are queued towards the other. */
  function Spent(c: Circuit, from: Side, n: nat): Circuit
    requires n <= CreditOf(c, from)
  {
    if from.RequesterSide?
    then c.(requesterCredit := c.requesterCredit - n, forwarded := SaturatingAdd(c.forwarded, n), toEndpoint := c.toEndpoint + n)
    else c.(endpointCredit := c.endpointCredit - n, forwarded := SaturatingAdd(c.forwarded, n), toRequester := c.toRequester + n)
  }

  /** WINDOW from one side grants credit to the other. */
  function Granted(c: Circuit, from: Side, delta: nat): Circuit {
    if from.RequesterSide? then c.(endpointCredit := c.endpointCredit + delta) else c.(requesterCredit := c.requesterCredit + delta)
  }

  function Forwarded(m: Relay, cid: Id, from: Side, n: nat): Relay
    requires cid in m.circuits && n <= CreditOf(m.circuits[cid], from) && m.circuits[cid].reservation in m.usage
  {
    var c := m.circuits[cid];
    var u := m.usage[c.reservation];
    m.(circuits := m.circuits[cid := Spent(c, from, n)],
       usage := m.usage[c.reservation := u.(bytes := SaturatingAdd(u.bytes, n))],
       counters := m.counters.(sent := SaturatingAdd(m.counters.sent, n), received := SaturatingAdd(m.counters.received, n)))
  }

  function HandleData(m: Relay, source: Peer, p: Packet): Done
    requires p.Data?
  {
    var n := p.bytes;
    if !p.WellFormed() then Failed(m, Malformed)
    else if p.circuit !in m.circuits then Failed(m, UnknownCircuit)
    else
      var c := m.circuits[p.circuit];
      var side := SideOf(c, source);
      if side.None? then Failed(m, WrongPeer)
      else
        var to := Other(side.value);
        if !HasRoom(m, m.inflight, PeerOn(c, to), p.circuit) then Failed(m, Capacity)
        else if c.reservation !in m.usage then Failed(m, InvalidAdmission)
        else if SaturatingAdd(c.forwarded, n) > c.maxBytes || SaturatingAdd(m.usage[c.reservation].bytes, n) > c.maxTotal then Failed(m, ByteLimit)
        else if n > CreditOf(c, side.value) || QueuedTo(c, to) + n > m.config.maxQueue then Failed(m, FlowControl)
        else Queue(Forwarded(m, p.circuit, side.value, n), p.circuit, Route(PeerOn(c, to), p), IsData(to, n))
  }

  function HandleWindow(m: Relay, source: Peer, p: Packet): Done
    requires p.Window?
  {
    if !p.WellFormed() then Failed(m, Malformed)
    else if p.circuit !in m.circuits then Failed(m, UnknownCircuit)
    else
      var c := m.circuits[p.circuit];
      var side := SideOf(c, source);
      if side.None? then Failed(m, WrongPeer)
      else
        var to := Other(side.value);
        if !HasRoom(m, m.inflight, PeerOn(c, to), p.circuit) then Failed(m, Capacity)
        else if CreditOf(c, to) + p.delta > MAX_WINDOW then Failed(m, FlowControl)
        else Queue(m.(circuits := m.circuits[p.circuit := Granted(c, side.value, p.delta)]), p.circuit, Route(PeerOn(c, to), p), IsControl)
  }

  /** The pending opens a wire context may mean for a source: the requester's own context, or the endpoint's circuit. */
  function Matching(m: Relay, source: Peer, context: Id): set<Id> {
    set c | c in m.pending && ((m.pending[c].requester == source && m.pending[c].context == context) || (m.pending[c].endpoint == source && c == context))
  }

  lemma OnlyOne<T>(s: set<T>)
    requires s != {} && |s| <= 1
    ensures exists c :: c in s && forall d :: d in s ==> d == c
  {
    var c :| c in s;
    assert s == {c} + (s - {c});
  }

  function HandleClose(m: Relay, source: Peer, p: Packet): Done
    requires p.Close?
  {
    var matched := Matching(m, source, p.context);
    if |matched| > 1 then Failed(m, InvalidAdmission)
    else if matched != {} then
      OnlyOne(matched);
      var cid :| cid in matched && (forall d :: d in matched ==> d == cid);
      var q := m.pending[cid];
      Queue(Removed(m, cid), cid, if q.requester == source then Route(q.endpoint, Close(cid)) else Route(q.requester, Close(q.context)), IsClose)
    else if p.context !in m.circuits then Failed(m, UnknownCircuit)
    else
      var c := m.circuits[p.context];
      var side := SideOf(c, source);
      if side.None? then Failed(m, WrongPeer)
      else Queue(Removed(m, p.context), p.context, Route(PeerOn(c, Other(side.value)), p), IsClose)
  }

  function Handle(m: Relay, source: Peer, p: Packet, now: nat, admission: Option<Admission>, cid: Id): Done {
    var t := Admit(m, now);
    if t.Err? then Failed(m, t.error)
    else if !m.enabled then Failed(t.value, Disabled)
    else
      match p
      case Open(_, _, _) => HandleOpen(t.value, source, p, admission, cid, now)
      case Accept(_, _) => HandleAccept(t.value, source, p, now)
      case Data(_, _) => HandleData(t.value, source, p)
      case Window(_, _) => HandleWindow(t.value, source, p)
      case Close(_) => HandleClose(t.value, source, p)
      case _ => Failed(t.value, UnexpectedOpcode)
  }

  /** A finished write releases its bytes; a failed one revokes the work it belonged to. */
  function Released(m: Relay, a: Action): Relay {
    if a.kind.IsData? && a.circuit in m.circuits then
      var c := m.circuits[a.circuit];
      var n := a.kind.bytes;
      m.(circuits := m.circuits[a.circuit :=
        if a.kind.side.RequesterSide? then c.(toRequester := if n <= c.toRequester then c.toRequester - n else 0)
        else c.(toEndpoint := if n <= c.toEndpoint then c.toEndpoint - n else 0)])
    else m
  }

  function Acknowledge(m: Relay, generation: nat, sequence: nat, delivered: bool): Done {
    if generation != m.generation then Failed(m, StaleGeneration)
    else if sequence !in m.inflight then Failed(m, UnknownAction)
    else
      var a := m.inflight[sequence];
      var r := Released(m.(inflight := m.inflight - {sequence}), a);
      if delivered then Done(r, [], Ok(()))
      else
        match a.kind
        case IsIncoming =>
          if a.circuit !in r.pending then Done(r, [], Ok(()))
          else
            var p := r.pending[a.circuit];
            Queue(r.(pending := r.pending - {a.circuit}, counters := Revoked(r.counters)), a.circuit, Route(p.requester, Close(p.context)), IsClose)
        case IsClose => Done(r, [], Ok(()))
        case _ => RevokeCircuit(r, a.circuit)
  }

  // ---- revoking many ----

  /** `ids` lists a set, in the order a hash map happened to give. */
  ghost predicate Lists(ids: seq<Id>, s: set<Id>) {
    && (forall c :: c in s <==> c in ids)
    && forall i, j :: 0 <= i < j < |ids| ==> ids[i] != ids[j]
  }

  function AwayFrom(inflight: map<nat, Action>, peer: Peer): map<nat, Action> {
    map a | a in inflight && inflight[a].destination != peer :: inflight[a]
  }

  function Disconnect(m: Relay, peer: Peer, pendings: seq<Id>, circuits: seq<Id>): Done {
    RevokeEach(m.(inflight := AwayFrom(m.inflight, peer)), pendings, circuits, Abandon(peer))
  }

  function RevokeReservation(m: Relay, reservation: Id, pendings: seq<Id>, circuits: seq<Id>): Done {
    RevokeEach(m.(usage := m.usage - {reservation}), pendings, circuits, Revoke)
  }

  function ExpiredPending(m: Relay, now: nat): set<Id> {
    set c | c in m.pending && (m.pending[c].deadline <= now || m.pending[c].ticket.expires <= now)
  }

  function ExpiredCircuits(m: Relay, now: nat): set<Id> {
    set c | c in m.circuits && m.circuits[c].expires <= now
  }

  function Expire(m: Relay, now: nat, pendings: seq<Id>, circuits: seq<Id>): Done {
    var t := Admit(m, now);
    if t.Err? then Failed(m, t.error)
    else RevokeEach(t.value.(usage := LiveUsage(m.usage, now)), pendings, circuits, Revoke)
  }

  /** Every policy change starts a new generation with no actions; disabling revokes all work. */
  function ReplaceEnabled(m: Relay, expected: nat, enabled: bool, pendings: seq<Id>, circuits: seq<Id>): Done {
    if expected != m.generation then Failed(m, StaleGeneration)
    else if m.enabled == enabled then Done(m, [], Ok(()))
    else if m.generation + 1 > U64_MAX then Failed(m, GenerationExhausted)
    else
      var n := m.(generation := m.generation + 1, enabled := enabled, inflight := map[], next := 1);
      if enabled then Done(n, [], Ok(())) else RevokeEach(n, pendings, circuits, Revoke)
  }

  // ---- restart ----

  /** A restart counts live work and in-flight actions alike as revoked. */
  function Restored(m: Relay, now: nat): Relay {
    var live := |m.pending| + |m.circuits| + |m.inflight|;
    Relay(m.config, m.generation + 1, m.enabled, now, map[], map[], map[], map[], 1,
          m.counters.(revoked := SaturatingAdd(m.counters.revoked, Min(live, U32_MAX))))
  }
}
