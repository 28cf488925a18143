/** Byte budgets over whole runs of the requester. */
module CircuitRequesterBudgets {
  import opened Common
  import R = CircuitRelays
  import opened CircuitRequesters
  import opened CircuitRequesterRuns

  // ---- one event ----

  /** The link whose DATA an event sends or receives, with success. */
  function DataLink(q: Requester, e: Event): Option<R.Id> {
    if !Do(q, e).1 then None
    else if e.Sends? then Some(e.link)
    else if e.Hears? && e.packet.Data? then Some(e.packet.circuit)
    else None
  }

  function DataBytes(e: Event): nat {
    if e.Sends? then e.bytes else if e.Hears? && e.packet.Data? then e.packet.bytes else 0
  }

  /** The bytes an event carries on one link. */
  function CarriedBy(q: Requester, e: Event, cid: R.Id): nat {
    if DataLink(q, e) == Some(cid) then DataBytes(e) else 0
  }

  /** And on one reservation. */
  function CarriedOn(q: Requester, e: Event, r: R.Id): nat {
    var l := DataLink(q, e);
    if l.Some? && l.value in q.links && q.links[l.value].ticket.reservation == r then DataBytes(e) else 0
  }

  /** Charged, byte for byte, to one link and its reservation within their limits, and to nothing else. */
  ghost predicate Charges(q: Requester, n: Requester, cid: R.Id, bytes: nat) {
    && cid in q.links && q.links[cid].ticket.reservation in q.usage && n.links.Keys == q.links.Keys && n.usage.Keys == q.usage.Keys
    && var l := q.links[cid];
       var r := l.ticket.reservation;
       && n.usage[r].expires == q.usage[r].expires && n.usage[r].bytes == SaturatingAdd(q.usage[r].bytes, bytes) <= l.ticket.maxTotal
       && n.links[cid].ticket == l.ticket
       && n.links[cid].total == SaturatingAdd(l.total, bytes) && n.links[cid].total <= l.ticket.maxBytes && n.links[cid].total <= q.limits.maxBytes
       && (forall k :: k in q.usage && k != r ==> n.usage[k] == q.usage[k])
       && (forall k :: k in q.links && k != cid ==> n.links[k] == q.links[k])
  }

  lemma SendCharges(q: Requester, cid: R.Id, bytes: nat)
    ensures SendData(q, cid, bytes).result.Ok? ==> Charges(q, SendData(q, cid, bytes).requester, cid, bytes)
    ensures SendData(q, cid, bytes).result.Ok? ==>
              SendData(q, cid, bytes).requester.counters == q.counters.(sent := SaturatingAdd(q.counters.sent, bytes))
  {
  }

  lemma ReceiveCharges(q: Requester, source: R.Peer, p: R.Packet)
    requires p.Data?
    ensures HandleData(q, source, p).result.Ok? ==> Charges(q, HandleData(q, source, p).requester, p.circuit, p.bytes)
    ensures HandleData(q, source, p).result.Ok? ==>
              HandleData(q, source, p).requester.counters == q.counters.(received := SaturatingAdd(q.counters.received, p.bytes))
  {
  }

  /** No link is new or charged, and usage only goes. */
  ghost predicate Idle(q: Requester, n: Requester) {
    && (forall c :: c in n.links ==> c in q.links && n.links[c].ticket == q.links[c].ticket && n.links[c].total == q.links[c].total)
    && forall r :: r in n.usage ==> r in q.usage && n.usage[r] == q.usage[r]
  }

  /** A reservation's usage after an event: what it was and what the event carried, or newly entered at nothing. */
  ghost predicate UsageMoves(q: Requester, n: Requester, r: R.Id, carried: nat) {
    r in n.usage ==>
      || (r in q.usage && n.usage[r].expires == q.usage[r].expires && n.usage[r].bytes == SaturatingAdd(q.usage[r].bytes, carried))
      || (n.usage[r].bytes == 0 && carried == 0 && (r in q.usage ==> n.usage[r].expires != q.usage[r].expires))
  }

  ghost predicate LinkMoves(q: Requester, n: Requester, cid: R.Id, carried: nat) {
    cid in n.links ==>
      || (cid in q.links && n.links[cid].ticket == q.links[cid].ticket && n.links[cid].total == SaturatingAdd(q.links[cid].total, carried))
      || (cid !in q.links && n.links[cid].total == 0 && carried == 0)
  }

  /** Counters are 64 bits wide. */
  ghost predicate Wide(q: Requester) {
    && (forall r :: r in q.usage ==> q.usage[r].bytes <= U64_MAX)
    && forall c :: c in q.links ==> q.links[c].total <= U64_MAX
  }

  ghost predicate Moves(q: Requester, e: Event, n: Requester) {
    && (forall r :: UsageMoves(q, n, r, CarriedOn(q, e, r)))
    && (forall c :: LinkMoves(q, n, c, CarriedBy(q, e, c)))
    && Wide(n)
  }

  lemma IdleMoves(q: Requester, e: Event, n: Requester)
    requires Wide(q) && Idle(q, n) && DataLink(q, e).None?
    ensures Moves(q, e, n)
  {
    hide Do;
  }

  lemma ChargeMoves(q: Requester, e: Event, n: Requester, cid: R.Id)
    requires Wide(q) && Charges(q, n, cid, DataBytes(e)) && DataLink(q, e) == Some(cid)
    ensures Moves(q, e, n)
  {
    hide Do;
  }

  lemma SameIdle(q: Requester, time: nat)
    ensures Idle(q, q.(time := time))
  {
  }

  lemma DroppedIdle(q: Requester, t: Requester, waiting: set<R.Id>, links: set<R.Id>)
    requires t.links == q.links && forall r :: r in t.usage ==> r in q.usage && t.usage[r] == q.usage[r]
    ensures Idle(q, Dropped(t, waiting, links))
  {
  }

  /** A refusal of DATA charges nothing. */
  lemma RefusedData(q: Requester, source: R.Peer, p: R.Packet, cid: R.Id, bytes: nat)
    ensures SendData(q, cid, bytes).result.Err? ==> SendData(q, cid, bytes).requester == q
    ensures p.Data? && HandleData(q, source, p).result.Err? ==> HandleData(q, source, p).requester == q
  {
  }

  lemma TakeIdle(q: Requester, cid: R.Id)
    ensures Idle(q, TakeData(q, cid).requester)
  {
  }

  /** Nothing is charged; a link that is new has carried nothing. */
  ghost predicate Uncharged(q: Requester, n: Requester) {
    && (forall r :: r in n.usage ==> r in q.usage && n.usage[r] == q.usage[r])
    && forall c :: c in n.links ==>
         || (c in q.links && n.links[c].ticket == q.links[c].ticket && n.links[c].total == q.links[c].total)
         || (c !in q.links && n.links[c].total == 0)
  }

  lemma OpenedUncharged(q: Requester, source: R.Peer, p: R.Packet, now: nat)
    requires p.Opened?
    ensures Uncharged(q, HandleOpened(q, source, p, now).requester)
  {
  }

  lemma WindowUncharged(q: Requester, source: R.Peer, p: R.Packet)
    requires p.Window?
    ensures Uncharged(q, HandleWindow(q, source, p).requester)
  {
  }

  lemma CloseUncharged(q: Requester, source: R.Peer, p: R.Packet)
    requires p.Close?
    ensures Uncharged(q, HandleClose(q, source, p).requester)
  {
    hide Dropped;
    DroppedIdle(q, q, {p.context}, {});
    DroppedIdle(q, q, {}, {p.context});
  }

  lemma OtherPacketMoves(q: Requester, source: R.Peer, p: R.Packet, now: nat)
    requires !p.Data?
    ensures Uncharged(q, Handle(q, source, p, now).requester)
  {
    hide HandleOpened, HandleWindow, HandleClose;
    var t := q.(time := now);
    match p
    case Opened(_, _, _) => OpenedUncharged(t, source, p, now);
    case Window(_, _) => WindowUncharged(t, source, p);
    case Close(_) => CloseUncharged(t, source, p);
    case _ =>
  }

  lemma BeginMoves(q: Requester, relay: R.Peer, ticket: R.Ticket, valid: bool, at: nat, deadline: nat, window: nat, context: R.Id, r: R.Id)
    requires Wide(q)
    ensures var n := BeginOpen(q, relay, ticket, valid, at, deadline, window, context).requester;
            n.links == q.links && UsageMoves(q, n, r, 0) && (r in n.usage ==> n.usage[r].bytes == 0 || (r in q.usage && n.usage[r] == q.usage[r]))
  {
  }

  lemma HearsMoves(q: Requester, e: Event)
    requires Wide(q) && e.Hears?
    ensures Moves(q, e, Do(q, e).0)
  {
    var t := q.(time := e.at);
    var n := Do(q, e).0;
    SameIdle(q, e.at);
    if e.packet.Data? {
      hide HandleData, Moves;
      ReceiveCharges(t, e.source, e.packet);
      RefusedData(t, e.source, e.packet, 0, 0);
      if Do(q, e).1 {
        ChargeMoves(q, e, n, e.packet.circuit);
      } else {
        IdleMoves(q, e, n);
      }
    } else {
      hide Handle;
      OtherPacketMoves(q, e.source, e.packet, e.at);
    }
  }

  lemma DoMoves(q: Requester, e: Event)
    requires Wide(q)
    ensures Moves(q, e, Do(q, e).0)
  {
    hide Moves, SendData, TakeData, Handle, Dropped, BeginOpen, Wide, Idle, R.LiveUsage;
    SameIdle(q, q.time);
    var n := Do(q, e).0;
    match e
    case Begins(relay, ticket, valid, at, deadline, window, context) => OpeningMoves(q, e);
    case Sends(link, bytes) =>
      SendCharges(q, link, bytes);
      RefusedData(q, 0, R.Close(0), link, bytes);
      if Do(q, e).1 {
        ChargeMoves(q, e, n, link);
      } else {
        IdleMoves(q, e, n);
      }
    case Takes(link) =>
      TakeIdle(q, link);
      IdleMoves(q, e, n);
    case Hears(_, _, _) => HearsMoves(q, e);
    case Closes(link, detail) => ClosingIdle(q, e);
    case Cancels(context, detail) => ClosingIdle(q, e);
    case Disconnects(relay) => ClosingIdle(q, e);
    case Ages(at) => AgeingIdle(q, e);
    case Switches(expected, enabled) => ClosingIdle(q, e);
    case Restarts(minimumGeneration, at) => AgeingIdle(q, e);
  }

  lemma OpeningMoves(q: Requester, e: Event)
    requires Wide(q) && e.Begins?
    ensures Moves(q, e, Do(q, e).0)
  {
    hide BeginOpen;
    forall r ensures UsageMoves(q, Do(q, e).0, r, 0) && (r in Do(q, e).0.usage ==> Do(q, e).0.usage[r].bytes <= U64_MAX) {
      BeginMoves(q, e.relay, e.ticket, e.valid, e.at, e.deadline, e.window, e.context, r);
    }
    BeginMoves(q, e.relay, e.ticket, e.valid, e.at, e.deadline, e.window, e.context, 0);
  }

  lemma ClosedIdle(q: Requester, cid: R.Id, detail: nat, relay: R.Peer)
    ensures Idle(q, CloseCircuit(q, cid, detail).requester) && Idle(q, CancelOpen(q, cid, detail).requester) && Idle(q, Disconnect(q, relay).requester)
  {
    hide Dropped;
    DroppedIdle(q, q, {}, {cid});
    DroppedIdle(q, q, {cid}, {});
    DroppedIdle(q, q, (set c | c in q.waiting && q.waiting[c].relay == relay), (set c | c in q.links && q.links[c].relay == relay));
  }

  lemma SwitchedIdle(q: Requester, expected: nat, enabled: bool)
    ensures Idle(q, ReplaceEnabled(q, expected, enabled).requester)
  {
    hide Dropped;
    DroppedIdle(q, q.(generation := q.generation + 1, enabled := enabled), q.waiting.Keys, q.links.Keys);
  }

  lemma ClosingIdle(q: Requester, e: Event)
    requires Wide(q) && (e.Closes? || e.Cancels? || e.Disconnects? || e.Switches?)
    ensures Moves(q, e, Do(q, e).0)
  {
    hide Moves, Wide, Idle, CloseCircuit, CancelOpen, Disconnect, ReplaceEnabled;
    match e {
      case Closes(link, detail) => ClosedIdle(q, link, detail, 0);
      case Cancels(context, detail) => ClosedIdle(q, context, detail, 0);
      case Disconnects(relay) => ClosedIdle(q, 0, 0, relay);
      case Switches(expected, enabled) => SwitchedIdle(q, expected, enabled);
    }
    IdleMoves(q, e, Do(q, e).0);
  }

  lemma AgeingIdle(q: Requester, e: Event)
    requires Wide(q) && (e.Ages? || e.Restarts?)
    ensures Moves(q, e, Do(q, e).0)
  {
    hide Moves, Wide;
    IdleMoves(q, e, Do(q, e).0);
  }

  // ---- whole runs ----

  lemma {:induction false} RunIsWide(states: seq<Requester>, events: seq<Event>, n: nat)
    requires Run(states, events) && n < |states|
    ensures Wide(states[n])
  {
    hide Do;
    if n > 0 {
      RunIsWide(states, events, n - 1);
      DoMoves(states[n - 1], events[n - 1]);
    }
  }

  /** The DATA bytes sent and received on a reservation since its usage was entered. */
  ghost function Carried(states: seq<Requester>, events: seq<Event>, r: R.Id, n: nat): nat
    requires n <= |events| && |states| == |events| + 1
  {
    if n == 0 || r !in states[n].usage then 0
    else if r in states[n - 1].usage && states[n - 1].usage[r].expires == states[n].usage[r].expires
    then Carried(states, events, r, n - 1) + CarriedOn(states[n - 1], events[n - 1], r)
    else 0
  }

  lemma {:induction false} UsageCounts(states: seq<Requester>, events: seq<Event>, r: R.Id, n: nat)
    requires Run(states, events) && n < |states| && r in states[n].usage
    ensures states[n].usage[r].bytes == Min(Carried(states, events, r, n), U64_MAX)
    decreases n
  {
    hide Do;
    if n > 0 {
      var q := states[n - 1];
      RunIsWide(states, events, n - 1);
      DoMoves(q, events[n - 1]);
      assert UsageMoves(q, states[n], r, CarriedOn(q, events[n - 1], r));
      if r in q.usage {
        UsageCounts(states, events, r, n - 1);
      }
    }
  }

  lemma DataIsCharged(q: Requester, e: Event)
    requires DataLink(q, e).Some?
    ensures Charges(q, Do(q, e).0, DataLink(q, e).value, DataBytes(e))
  {
    hide SendData, HandleData;
    if e.Sends? {
      SendCharges(q, e.link, e.bytes);
    } else {
      ReceiveCharges(q.(time := e.at), e.source, e.packet);
    }
  }

  /**
    A reservation's budget ends. In every run, with every DATA sent or received, the bytes carried on its reservation in
    both directions since its usage was entered are within what the link's ticket allows.
   */
  lemma ReservationBudget(states: seq<Requester>, events: seq<Event>, n: nat)
    requires Run(states, events) && n < |events| && DataLink(states[n], events[n]).Some?
    ensures var cid := DataLink(states[n], events[n]).value;
            && cid in states[n].links
            && var t := states[n].links[cid].ticket;
               t.maxTotal < U64_MAX ==> Carried(states, events, t.reservation, n + 1) <= t.maxTotal
  {
    hide Do;
    DataIsCharged(states[n], events[n]);
    UsageCounts(states, events, states[n].links[DataLink(states[n], events[n]).value].ticket.reservation, n + 1);
  }
}
