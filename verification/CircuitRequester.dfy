/**
  The circuit requester: the other end of a relay's circuits. It spends send credit, buffers inbound frames within
  receive credit, and gives credit back only when a frame is consumed.
 */
module CircuitRequesters {
  import opened Common
  import opened Tallies
  import opened CircuitRelays

  const MAX_OPEN_DEADLINE: nat := 10
  const MAX_CIRCUITS: nat := 32
  const MAX_DETAIL: nat := 128

  // ---- state ----

  datatype Waiting = Waiting(relay: Peer, ticket: Ticket, window: nat, deadline: nat)

  /** An established circuit; `inbound` holds the lengths of the buffered frames. */
  datatype Link = Link(relay: Peer, ticket: Ticket, sendCredit: nat, receiveCredit: nat, total: nat, queued: nat, inbound: seq<nat>)

  datatype Limits = Limits(maxCircuits: nat, maxQueue: nat, maxBytes: nat)

  datatype Requester = Requester(
    limits: Limits, generation: nat, enabled: bool, time: nat,
    waiting: map<Id, Waiting>, links: map<Id, Link>, usage: map<Id, Usage>, counters: Counters)

  /** `route` is what must be sent. */
  datatype Did = Did(requester: Requester, route: Option<Route>, result: Result<(), Error>)

  function New(limits: Limits, generation: nat, now: nat): Requester {
    Requester(limits, generation, true, now, map[], map[], map[], Counters(0, 0, 0, 0, 0))
  }

  function Refused(q: Requester, e: Error): Did {
    Did(q, None, Err(e))
  }

  function Quietly(q: Requester): Did {
    Did(q, None, Ok(()))
  }

  // ---- opening ----

  /** `valid` is the outcome of the ticket's own checks; `context` the random identifier drawn. */
  function BeginOpen(q: Requester, relay: Peer, ticket: Ticket, valid: bool, now: nat, deadline: nat, window: nat, context: Id): Did {
    if now < q.time then Refused(q, ClockRollback)
    else
      var t := q.(time := now);
      if !q.enabled then Refused(t, Disabled)
      else if |q.waiting| + |q.links| >= q.limits.maxCircuits then Refused(t, Capacity)
      else if deadline <= now || deadline - now > MAX_OPEN_DEADLINE then Refused(t, Deadline)
      else if !(MIN_WINDOW <= window <= MAX_WINDOW) || !valid || ticket.expires <= deadline then Refused(t, InvalidAdmission)
      else
        var live := LiveUsage(q.usage, now);
        var u := if ticket.reservation in live then live[ticket.reservation] else Usage(0, ticket.expires);
        var charged := t.(usage := live[ticket.reservation := u]);
        if u.expires != ticket.expires || u.bytes >= ticket.maxTotal then Refused(charged, ByteLimit)
        else
          Did(charged.(waiting := q.waiting[context := Waiting(relay, ticket, window, deadline)],
                       counters := q.counters.(admitted := SaturatingAdd(q.counters.admitted, 1))),
              Some(Route(relay, Open(context, ticket.reservation, window))), Ok(()))
  }

  function HandleOpened(q: Requester, source: Peer, p: Packet, now: nat): Did
    requires p.Opened?
  {
    if p.context !in q.waiting then Refused(q, UnknownRequest)
    else
      var w := q.waiting[p.context];
      if w.relay != source then Refused(q, WrongPeer)
      else if w.deadline <= now || w.ticket.expires <= now then Refused(q, InvalidAdmission)
      else if !p.WellFormed() then Refused(q, Malformed)
      else if p.window > w.window || p.circuit in q.links then Refused(q, InvalidAdmission)
      else
        Quietly(q.(waiting := q.waiting - {p.context},
                   links := q.links[p.circuit := Link(w.relay, w.ticket, p.window, p.window, 0, 0, [])],
                   counters := q.counters.(accepted := SaturatingAdd(q.counters.accepted, 1))))
  }

  // ---- data and credit ----

  predicate OverBudget(q: Requester, l: Link, n: nat) {
    || SaturatingAdd(l.total, n) > Min(l.ticket.maxBytes, q.limits.maxBytes)
    || (l.ticket.reservation in q.usage && SaturatingAdd(q.usage[l.ticket.reservation].bytes, n) > l.ticket.maxTotal)
  }

  function Charged(usage: map<Id, Usage>, reservation: Id, n: nat): map<Id, Usage>
    requires reservation in usage
  {
    usage[reservation := usage[reservation].(bytes := SaturatingAdd(usage[reservation].bytes, n))]
  }

  function SendData(q: Requester, cid: Id, n: nat): Did {
    if !q.enabled then Refused(q, Disabled)
    else if cid !in q.links then Refused(q, UnknownCircuit)
    else
      var l := q.links[cid];
      if n > U32_MAX then Refused(q, ByteLimit)
      else if l.ticket.reservation !in q.usage then Refused(q, InvalidAdmission)
      else if n == 0 || n > MAX_DATA_SIZE || OverBudget(q, l, n) then Refused(q, ByteLimit)
      else if n > l.sendCredit then Refused(q, FlowControl)
      else
        Did(q.(links := q.links[cid := l.(sendCredit := l.sendCredit - n, total := SaturatingAdd(l.total, n))],
               usage := Charged(q.usage, l.ticket.reservation, n),
               counters := q.counters.(sent := SaturatingAdd(q.counters.sent, n))),
            Some(Route(l.relay, Data(cid, n))), Ok(()))
  }

  /** A frame is popped before its credit is returned. */
  function TakeData(q: Requester, cid: Id): Did {
    if !q.enabled then Refused(q, Disabled)
    else if cid !in q.links then Refused(q, UnknownCircuit)
    else
      var l := q.links[cid];
      if l.inbound == [] then Refused(q, NoQueuedData)
      else
        var n := l.inbound[0];
        var popped := l.(inbound := l.inbound[1..], queued := if n <= l.queued then l.queued - n else 0);
        if n > U32_MAX || l.receiveCredit + n > MAX_WINDOW then Refused(q.(links := q.links[cid := popped]), FlowControl)
        else Did(q.(links := q.links[cid := popped.(receiveCredit := l.receiveCredit + n)]), Some(Route(l.relay, Window(cid, n))), Ok(()))
  }

  function HandleData(q: Requester, source: Peer, p: Packet): Did
    requires p.Data?
  {
    var n := p.bytes;
    if p.circuit !in q.links then Refused(q, UnknownCircuit)
    else
      var l := q.links[p.circuit];
      if l.relay != source then Refused(q, WrongPeer)
      else if !p.WellFormed() then Refused(q, Malformed)
      else if l.ticket.reservation !in q.usage then Refused(q, InvalidAdmission)
      else if OverBudget(q, l, n) then Refused(q, ByteLimit)
      else if n > l.receiveCredit || l.queued + n > q.limits.maxQueue then Refused(q, FlowControl)
      else
        Quietly(q.(links := q.links[p.circuit := l.(receiveCredit := l.receiveCredit - n, total := SaturatingAdd(l.total, n),
                                                    queued := l.queued + n, inbound := l.inbound + [n])],
                   usage := Charged(q.usage, l.ticket.reservation, n),
                   counters := q.counters.(received := SaturatingAdd(q.counters.received, n))))
  }

  function HandleWindow(q: Requester, source: Peer, p: Packet): Did
    requires p.Window?
  {
    if p.circuit !in q.links then Refused(q, UnknownCircuit)
    else
      var l := q.links[p.circuit];
      if l.relay != source then Refused(q, WrongPeer)
      else if !p.WellFormed() then Refused(q, Malformed)
      else if l.sendCredit + p.delta > MAX_WINDOW then Refused(q, FlowControl)
      else Quietly(q.(links := q.links[p.circuit := l.(sendCredit := l.sendCredit + p.delta)]))
  }

  // ---- closing ----

  function Dropped(q: Requester, waiting: set<Id>, links: set<Id>): Requester {
    var w, l := q.waiting - waiting, q.links - links;
    q.(waiting := w, links := l, counters := q.counters.(revoked := SaturatingAdd(q.counters.revoked, |q.waiting| - |w| + |q.links| - |l|)))
  }

  function HandleClose(q: Requester, source: Peer, p: Packet): Did
    requires p.Close?
  {
    if p.context in q.waiting then
      (if q.waiting[p.context].relay != source then Refused(q, WrongPeer) else Quietly(Dropped(q, {p.context}, {})))
    else if p.context !in q.links then Refused(q, UnknownCircuit)
    else if q.links[p.context].relay != source then Refused(q, WrongPeer)
    else Quietly(Dropped(q, {}, {p.context}))
  }

  /**
    Closing and cancelling take the work out, then encode a CLOSE with the caller's detail, and only then count the work
    as revoked. A detail of too many bytes fails in between.
   */
  function CloseCircuit(q: Requester, cid: Id, detail: nat): Did {
    if cid !in q.links then Refused(q, UnknownCircuit)
    else if detail > MAX_DETAIL then Refused(q.(links := q.links - {cid}), TooLarge)
    else Did(Dropped(q, {}, {cid}), Some(Route(q.links[cid].relay, Close(cid))), Ok(()))
  }

  function CancelOpen(q: Requester, context: Id, detail: nat): Did {
    if context !in q.waiting then Refused(q, UnknownRequest)
    else if detail > MAX_DETAIL then Refused(q.(waiting := q.waiting - {context}), TooLarge)
    else Did(Dropped(q, {context}, {}), Some(Route(q.waiting[context].relay, Close(context))), Ok(()))
  }

  function Disconnect(q: Requester, relay: Peer): Did {
    Quietly(Dropped(q, (set c | c in q.waiting && q.waiting[c].relay == relay), (set c | c in q.links && q.links[c].relay == relay)))
  }

  function Expire(q: Requester, now: nat): Did {
    if now < q.time then Refused(q, ClockRollback)
    else
      Quietly(Dropped(q.(time := now, usage := LiveUsage(q.usage, now)),
                      set c | c in q.waiting && (q.waiting[c].deadline <= now || q.waiting[c].ticket.expires <= now),
                      set c | c in q.links && q.links[c].ticket.expires <= now))
  }

  /** The best-effort CLOSE routes of a disable are left to the adapter; authority is dropped at once. */
  function ReplaceEnabled(q: Requester, expected: nat, enabled: bool): Did {
    if expected != q.generation then Refused(q, StaleGeneration)
    else if q.enabled == enabled then Quietly(q)
    else if q.generation + 1 > U64_MAX then Refused(q, GenerationExhausted)
    else
      var n := q.(generation := q.generation + 1, enabled := enabled);
      Quietly(if enabled then n else Dropped(n, n.waiting.Keys, n.links.Keys))
  }

  function Handle(q: Requester, source: Peer, p: Packet, now: nat): Did {
    if now < q.time then Refused(q, ClockRollback)
    else
      var t := q.(time := now);
      if !q.enabled then Refused(t, Disabled)
      else
        match p
        case Opened(_, _, _) => HandleOpened(t, source, p, now)
        case Data(_, _) => HandleData(t, source, p)
        case Window(_, _) => HandleWindow(t, source, p)
        case Close(_) => HandleClose(t, source, p)
        case _ => Refused(t, UnexpectedOpcode)
  }

  // ---- snapshot and restore ----

  datatype Snapshot = Snapshot(generation: nat, enabled: bool, time: nat, limits: Limits, counters: Counters, waiting: nat, links: nat)

  function Capture(q: Requester): Snapshot {
    Snapshot(q.generation, q.enabled, q.time, q.limits, q.counters, Min(|q.waiting|, U32_MAX), Min(|q.links|, U32_MAX))
  }

  function Restore(s: Snapshot, minimumGeneration: nat, now: nat): Result<Requester, Error> {
    if minimumGeneration == 0 || s.generation < minimumGeneration then Err(StaleGeneration)
    else if now < s.time then Err(ClockRollback)
    else if s.generation + 1 > U64_MAX then Err(GenerationExhausted)
    else
      var live := Min(s.waiting + s.links, U32_MAX);
      Ok(Requester(s.limits, s.generation + 1, s.enabled, now, map[], map[], map[],
                   s.counters.(revoked := SaturatingAdd(s.counters.revoked, live))))
  }

  // ---- invariant ----

  function Total(frames: seq<nat>): nat {
    if frames == [] then 0 else frames[0] + Total(frames[1..])
  }

  lemma {:induction false} TotalAppend(frames: seq<nat>, n: nat)
    ensures Total(frames + [n]) == Total(frames) + n
  {
    if frames != [] {
      TotalAppend(frames[1..], n);
      assert (frames + [n])[1..] == frames[1..] + [n];
    }
  }

  /** The window a link was accepted with, as far as the link itself can tell. */
  function WindowOf(l: Link): nat {
    l.receiveCredit + l.queued
  }

  ghost predicate LinkOk(l: Link) {
    && l.queued == Total(l.inbound)
    && WindowOf(l) <= MAX_WINDOW && l.sendCredit <= MAX_WINDOW
    && forall i :: 0 <= i < |l.inbound| ==> 0 < l.inbound[i] <= MAX_DATA_SIZE
  }

  /** Every admitted open is pending, active or revoked, or one of the `lost`, unless the counter has saturated. */
  predicate Accounts(q: Requester, lost: nat) {
    q.counters.admitted < U64_MAX ==> q.counters.admitted == |q.waiting| + |q.links| + q.counters.revoked + lost
  }

  predicate Conserved(q: Requester) {
    Accounts(q, 0)
  }

  ghost predicate Sound(q: Requester) {
    && (forall c :: c in q.links ==> LinkOk(q.links[c]))
    && q.limits.maxCircuits <= MAX_CIRCUITS && |q.waiting| + |q.links| <= q.limits.maxCircuits
  }

  ghost predicate Inv(q: Requester, lost: nat) {
    Sound(q) && Accounts(q, lost)
  }

  /** With a frame buffered, consuming it always succeeds, returns its credit, and keeps the window. */
  lemma TakeNeverFails(q: Requester, cid: Id)
    requires Sound(q) && q.enabled && cid in q.links && q.links[cid].inbound != []
    ensures var d := TakeData(q, cid);
            var n := q.links[cid].inbound[0];
            && d.result.Ok? && d.route == Some(Route(q.links[cid].relay, Window(cid, n)))
            && d.requester.links[cid].inbound == q.links[cid].inbound[1..]
            && WindowOf(d.requester.links[cid]) == WindowOf(q.links[cid])
            && d.requester.links[cid].receiveCredit == q.links[cid].receiveCredit + n
  {
    assert Total(q.links[cid].inbound) == q.links[cid].inbound[0] + Total(q.links[cid].inbound[1..]);
  }

  lemma DroppedKeeps(q: Requester, waiting: set<Id>, links: set<Id>, lost: nat)
    requires Inv(q, lost)
    ensures Inv(Dropped(q, waiting, links), lost)
  {
    DifferenceSize(q.waiting, waiting);
    DifferenceSize(q.links, links);
  }

  /** One link changes. */
  lemma LinkKeeps(q: Requester, cid: Id, l: Link, usage: map<Id, Usage>, counters: Counters, lost: nat)
    requires Inv(q, lost) && cid in q.links && LinkOk(l)
    requires counters.admitted == q.counters.admitted && counters.revoked == q.counters.revoked
    ensures Inv(q.(links := q.links[cid := l], usage := usage, counters := counters), lost)
  {
    UpdateSize(q.links, cid, l);
  }

  lemma WaitingKeeps(q: Requester, context: Id, w: Waiting, usage: map<Id, Usage>, now: nat, lost: nat)
    requires Inv(q, lost) && context !in q.waiting && |q.waiting| + |q.links| < q.limits.maxCircuits
    ensures Inv(q.(time := now, usage := usage, waiting := q.waiting[context := w],
                   counters := q.counters.(admitted := SaturatingAdd(q.counters.admitted, 1))), lost)
  {
    UpdateSize(q.waiting, context, w);
  }

  lemma BeginOpenKeeps(q: Requester, relay: Peer, ticket: Ticket, valid: bool, now: nat, deadline: nat, window: nat, context: Id, lost: nat)
    requires Inv(q, lost) && context !in q.waiting && context !in q.links
    ensures Inv(BeginOpen(q, relay, ticket, valid, now, deadline, window, context).requester, lost)
  {
    hide Inv;
    var n := BeginOpen(q, relay, ticket, valid, now, deadline, window, context).requester;
    TimeKeeps(q, n.time, n.usage, lost);
    if |q.waiting| + |q.links| < q.limits.maxCircuits {
      WaitingKeeps(q, context, Waiting(relay, ticket, window, deadline), n.usage, now, lost);
    }
  }

  lemma SendDataKeeps(q: Requester, cid: Id, n: nat, lost: nat)
    requires Inv(q, lost)
    ensures Inv(SendData(q, cid, n).requester, lost)
  {
    var d := SendData(q, cid, n);
    if d.result.Ok? {
      var l := q.links[cid];
      LinkKeeps(q, cid, l.(sendCredit := l.sendCredit - n, total := SaturatingAdd(l.total, n)), d.requester.usage, d.requester.counters, lost);
    }
  }

  lemma TakeDataKeeps(q: Requester, cid: Id, lost: nat)
    requires Inv(q, lost)
    ensures Inv(TakeData(q, cid).requester, lost)
  {
    if q.enabled && cid in q.links && q.links[cid].inbound != [] {
      TakeNeverFails(q, cid);
      LinkKeeps(q, cid, TakeData(q, cid).requester.links[cid], q.usage, q.counters, lost);
    }
  }

  /** An OPENED moves one open from waiting to active. */
  lemma OpenedMoves(q: Requester, source: Peer, p: Packet, now: nat)
    requires p.Opened?
    ensures var n := HandleOpened(q, source, p, now).requester;
            |n.waiting| + |n.links| == |q.waiting| + |q.links|
  {
    var d := HandleOpened(q, source, p, now);
    if d.result.Ok? {
      UpdateSize(q.links, p.circuit, d.requester.links[p.circuit]);
      UpdateSize(q.waiting - {p.context}, p.context, q.waiting[p.context]);
      assert (q.waiting - {p.context})[p.context := q.waiting[p.context]] == q.waiting;
    }
  }

  lemma HandleOpenedKeeps(q: Requester, source: Peer, p: Packet, now: nat, lost: nat)
    requires Inv(q, lost) && p.Opened?
    ensures Inv(HandleOpened(q, source, p, now).requester, lost)
  {
    OpenedMoves(q, source, p, now);
  }

  lemma HandleDataKeeps(q: Requester, source: Peer, p: Packet, lost: nat)
    requires Inv(q, lost) && p.Data?
    ensures Inv(HandleData(q, source, p).requester, lost)
  {
    var d := HandleData(q, source, p);
    if d.result.Ok? {
      TotalAppend(q.links[p.circuit].inbound, p.bytes);
      LinkKeeps(q, p.circuit, d.requester.links[p.circuit], d.requester.usage, d.requester.counters, lost);
    }
  }

  lemma HandleWindowKeeps(q: Requester, source: Peer, p: Packet, lost: nat)
    requires Inv(q, lost) && p.Window?
    ensures Inv(HandleWindow(q, source, p).requester, lost)
  {
    var d := HandleWindow(q, source, p);
    if d.result.Ok? {
      LinkKeeps(q, p.circuit, d.requester.links[p.circuit], q.usage, q.counters, lost);
    }
  }

  lemma HandleCloseKeeps(q: Requester, source: Peer, p: Packet, lost: nat)
    requires Inv(q, lost) && p.Close?
    ensures Inv(HandleClose(q, source, p).requester, lost)
  {
    hide Dropped;
    DroppedKeeps(q, {p.context}, {}, lost);
    DroppedKeeps(q, {}, {p.context}, lost);
  }

  lemma TimeKeeps(q: Requester, now: nat, usage: map<Id, Usage>, lost: nat)
    requires Inv(q, lost)
    ensures Inv(q.(time := now, usage := usage), lost)
  {
  }

  lemma HandleKeeps(q: Requester, source: Peer, p: Packet, now: nat, lost: nat)
    requires Inv(q, lost)
    ensures Inv(Handle(q, source, p, now).requester, lost)
  {
    hide Inv, HandleOpened, HandleData, HandleWindow, HandleClose;
    if now >= q.time {
      var t := q.(time := now);
      TimeKeeps(q, now, q.usage, lost);
      match p
      case Opened(_, _, _) => HandleOpenedKeeps(t, source, p, now, lost);
      case Data(_, _) => HandleDataKeeps(t, source, p, lost);
      case Window(_, _) => HandleWindowKeeps(t, source, p, lost);
      case Close(_) => HandleCloseKeeps(t, source, p, lost);
      case _ =>
    }
  }

  /** Work that is live when a close or a cancel fails on its detail is lost to the account. */
  function LostClosing(q: Requester, cid: Id, detail: nat): nat {
    if cid in q.links && detail > MAX_DETAIL then 1 else 0
  }

  function LostCancelling(q: Requester, context: Id, detail: nat): nat {
    if context in q.waiting && detail > MAX_DETAIL then 1 else 0
  }

  lemma RemovedUncounted(q: Requester, waiting: map<Id, Waiting>, links: map<Id, Link>, lost: nat)
    requires Inv(q, lost) && (forall c :: c in links ==> c in q.links && links[c] == q.links[c])
    requires |waiting| + |links| + 1 == |q.waiting| + |q.links|
    ensures Inv(q.(waiting := waiting, links := links), lost + 1)
  {
  }

  lemma CloseCircuitKeeps(q: Requester, cid: Id, detail: nat, lost: nat)
    requires Inv(q, lost)
    ensures Inv(CloseCircuit(q, cid, detail).requester, lost + LostClosing(q, cid, detail))
  {
    hide Inv, Dropped;
    if cid in q.links && detail > MAX_DETAIL {
      RemoveSize(q.links, cid);
      RemovedUncounted(q, q.waiting, q.links - {cid}, lost);
    } else if cid in q.links {
      DroppedKeeps(q, {}, {cid}, lost);
    }
  }

  lemma CancelOpenKeeps(q: Requester, context: Id, detail: nat, lost: nat)
    requires Inv(q, lost)
    ensures Inv(CancelOpen(q, context, detail).requester, lost + LostCancelling(q, context, detail))
  {
    hide Inv, Dropped;
    if context in q.waiting && detail > MAX_DETAIL {
      RemoveSize(q.waiting, context);
      RemovedUncounted(q, q.waiting - {context}, q.links, lost);
    } else if context in q.waiting {
      DroppedKeeps(q, {context}, {}, lost);
    }
  }

  /** So a close keeps the account exactly when it names no live circuit or its detail fits; and so does a cancel. */
  lemma CloseConservesIff(q: Requester, cid: Id, detail: nat)
    requires Inv(q, 0) && q.counters.admitted < U64_MAX
    ensures Conserved(CloseCircuit(q, cid, detail).requester) <==> cid !in q.links || detail <= MAX_DETAIL
  {
    CloseCircuitKeeps(q, cid, detail, 0);
  }

  lemma CancelConservesIff(q: Requester, context: Id, detail: nat)
    requires Inv(q, 0) && q.counters.admitted < U64_MAX
    ensures Conserved(CancelOpen(q, context, detail).requester) <==> context !in q.waiting || detail <= MAX_DETAIL
  {
    CancelOpenKeeps(q, context, detail, 0);
  }

  lemma DisconnectKeeps(q: Requester, relay: Peer, lost: nat)
    requires Inv(q, lost)
    ensures Inv(Disconnect(q, relay).requester, lost)
  {
    hide Inv, Dropped;
    DroppedKeeps(q, (set c | c in q.waiting && q.waiting[c].relay == relay), (set c | c in q.links && q.links[c].relay == relay), lost);
  }

  lemma ExpireKeeps(q: Requester, now: nat, lost: nat)
    requires Inv(q, lost)
    ensures Inv(Expire(q, now).requester, lost)
  {
    hide Inv, Dropped;
    if now >= q.time {
      var t := q.(time := now, usage := LiveUsage(q.usage, now));
      TimeKeeps(q, now, LiveUsage(q.usage, now), lost);
      DroppedKeeps(t, set c | c in q.waiting && (q.waiting[c].deadline <= now || q.waiting[c].ticket.expires <= now),
                   (set c | c in q.links && q.links[c].ticket.expires <= now), lost);
    }
  }

  lemma GenerationKeeps(q: Requester, generation: nat, enabled: bool, lost: nat)
    requires Inv(q, lost)
    ensures Inv(q.(generation := generation, enabled := enabled), lost)
  {
  }

  lemma ReplaceEnabledKeeps(q: Requester, expected: nat, enabled: bool, lost: nat)
    requires Inv(q, lost)
    ensures Inv(ReplaceEnabled(q, expected, enabled).requester, lost)
  {
    hide Inv, Dropped;
    var n := q.(generation := q.generation + 1, enabled := enabled);
    GenerationKeeps(q, q.generation + 1, enabled, lost);
    DroppedKeeps(n, n.waiting.Keys, n.links.Keys, lost);
  }

  /** Conservation survives a restart: what was live is counted as revoked. */
  lemma RestoreConserves(q: Requester, minimumGeneration: nat, now: nat, lost: nat)
    requires Inv(q, lost) && Restore(Capture(q), minimumGeneration, now).Ok?
    ensures Inv(Restore(Capture(q), minimumGeneration, now).value, lost)
  {
  }
}
