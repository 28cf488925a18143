/** The two circuit machines as the program keeps them: fields updated in place, one method per packet and event. */
module CircuitObjects {
  import opened Common
  import opened CircuitRelays
  import opened CircuitRelayInvariants
  import B = CircuitBudgets
  import QB = CircuitRequesterBudgets
  import opened Tallies
  import Q = CircuitRequesters

  // ---- loops over the in-flight actions ----

  /** The actions looked at so far. */
  ghost function Seen(inflight: map<nat, Action>, todo: set<nat>): map<nat, Action> {
    map k | k in inflight && k !in todo :: inflight[k]
  }

  ghost predicate Counted(inflight: map<nat, Action>, destination: Peer, cid: Id, total: nat, forCircuit: nat, forPeer: nat) {
    total == |inflight| && forCircuit == |ActionsOf(inflight, cid)| && forPeer == |ActionsTo(inflight, destination)|
  }

  lemma CountNone(inflight: map<nat, Action>, destination: Peer, cid: Id)
    ensures Counted(Seen(inflight, inflight.Keys), destination, cid, 0, 0, 0)
  {
    var none := Seen(inflight, inflight.Keys);
    assert none == map[];
    assert ActionsOf(none, cid) == {} && ActionsTo(none, destination) == {};
  }

  lemma CountOne(inflight: map<nat, Action>, todo: set<nat>, k: nat, destination: Peer, cid: Id, total: nat, forCircuit: nat, forPeer: nat)
    requires k in inflight && k in todo && Counted(Seen(inflight, todo), destination, cid, total, forCircuit, forPeer)
    ensures Counted(Seen(inflight, todo - {k}), destination, cid, total + 1,
                    forCircuit + (if inflight[k].circuit == cid then 1 else 0), forPeer + if inflight[k].destination == destination then 1 else 0)
  {
    hide ActionsOf, ActionsTo;
    var seen := Seen(inflight, todo);
    assert Seen(inflight, todo - {k}) == seen[k := inflight[k]];
    UpdateSize(seen, k, inflight[k]);
    ActionsOfAdd(seen, k, inflight[k], cid);
    ActionsToAdd(seen, k, inflight[k], destination);
  }

  /** Count the retained actions in all, for one circuit, and for one peer. */
  method CountActions(inflight: map<nat, Action>, destination: Peer, cid: Id) returns (total: nat, forCircuit: nat, forPeer: nat)
    ensures total == |inflight| && forCircuit == |ActionsOf(inflight, cid)| && forPeer == |ActionsTo(inflight, destination)|
  {
    hide ActionsOf, ActionsTo;
    total, forCircuit, forPeer := 0, 0, 0;
    var todo := inflight.Keys;
    CountNone(inflight, destination, cid);
    while todo != {}
      invariant todo <= inflight.Keys && Counted(Seen(inflight, todo), destination, cid, total, forCircuit, forPeer)
    {
      var k :| k in todo;
      CountOne(inflight, todo, k, destination, cid, total, forCircuit, forPeer);
      todo := todo - {k};
      total := total + 1;
      if inflight[k].circuit == cid {
        forCircuit := forCircuit + 1;
      }
      if inflight[k].destination == destination {
        forPeer := forPeer + 1;
      }
    }
    assert Seen(inflight, todo) == inflight;
  }

  /** Remove the actions of one circuit. */
  method DropFor(inflight: map<nat, Action>, cid: Id) returns (kept: map<nat, Action>)
    ensures kept == Without(inflight, cid)
  {
    kept := inflight;
    var actions := ActionsOf(inflight, cid);
    while actions != {}
      invariant actions <= ActionsOf(inflight, cid)
      invariant kept == inflight - (ActionsOf(inflight, cid) - actions)
    {
      var k :| k in actions;
      kept := kept - {k};
      actions := actions - {k};
    }
    assert kept == Without(inflight, cid);
  }

  /** What was sent already, in front of what a step sends. */
  function Then(out: seq<Route>, d: Done): Done {
    Done(d.relay, out + d.out, d.result)
  }

  /** One more pending open, or one more circuit, taken off the lists. */
  lemma NextPending(whole: Done, out: seq<Route>, m: Relay, d: Done, pendings: seq<Id>, listed: seq<Id>, why: Reason)
    requires pendings != [] && whole == Then(out, RevokeEach(m, pendings, listed, why))
    requires d == if why.Abandon? then AbandonPending(m, pendings[0], why.peer) else RevokePending(m, pendings[0])
    ensures whole == Then(out + d.out, RevokeEach(d.relay, pendings[1..], listed, why))
  {
    hide AbandonPending, RevokePending, RevokeCircuit;
    var rest := RevokeEach(d.relay, pendings[1..], listed, why);
    assert out + (d.out + rest.out) == (out + d.out) + rest.out;
    RevokeSucceeds(d.relay, pendings[1..], listed, why);
  }

  lemma NextCircuit(whole: Done, out: seq<Route>, m: Relay, d: Done, listed: seq<Id>, why: Reason)
    requires listed != [] && whole == Then(out, RevokeEach(m, [], listed, why)) && d == RevokeCircuit(m, listed[0])
    ensures whole == Then(out + d.out, RevokeEach(d.relay, [], listed[1..], why))
  {
    hide AbandonPending, RevokePending, RevokeCircuit;
    var rest := RevokeEach(d.relay, [], listed[1..], why);
    assert out + (d.out + rest.out) == (out + d.out) + rest.out;
    RevokeSucceeds(d.relay, [], listed[1..], why);
  }

  lemma NothingToRevoke(m: Relay, why: Reason)
    ensures RevokeEach(m, [], [], why) == Done(m, [], Ok(()))
  {
  }

  lemma RevokeSucceeds(m: Relay, pendings: seq<Id>, listed: seq<Id>, why: Reason)
    ensures RevokeEach(m, pendings, listed, why).result == Ok(())
  {
  }

  // ---- the relay ----

  lemma SaneOpenKeeps(m: Relay, source: Peer, p: Packet, admission: Option<Admission>, cid: Id, now: nat, tickets: Tickets)
    requires Inv(m, tickets) && p.Open? && m.enabled
    ensures Sane(m, p, admission, cid, tickets) ==> Inv(HandleOpen(m, source, p, admission, cid, now).relay, tickets)
  {
    hide Inv, HandleOpen;
    if Sane(m, p, admission, cid, tickets) {
      HandleOpenKeeps(m, source, p, admission, cid, now, tickets);
    }
  }

  /** A pending open of the source under `cid`, and the INCOMING that tells its endpoint, someone else. */
  predicate Announced(m: Relay, out: seq<Route>, source: Peer, p: Packet, cid: Id)
    requires p.Open?
  {
    && cid in m.pending && m.pending[cid].requester == source && m.pending[cid].context == p.context && m.pending[cid].window == p.window
    && m.pending[cid].endpoint != source
    && out == [Route(m.pending[cid].endpoint, Incoming(cid, p.context, p.window))]
  }

  lemma OpenAnnounces(m: Relay, source: Peer, p: Packet, admission: Option<Admission>, cid: Id, now: nat)
    requires p.Open?
    ensures var d := HandleOpen(m, source, p, admission, cid, now);
            d.result.Ok? ==> Announced(d.relay, d.out, source, p, cid)
  {
    hide HasRoom, PeerWork, ReservationWork, OpenBlocked, LiveUsage;
  }

  /** `n` bytes of credit on the source's side became `n` queued bytes towards the other; the other direction is as it was. */
  predicate Moved(before: Circuit, after: Circuit, source: Peer, n: nat) {
    var side := SideOf(before, source);
    && side.Some?
    && CreditOf(after, side.value) + n == CreditOf(before, side.value)
    && QueuedTo(after, Other(side.value)) == QueuedTo(before, Other(side.value)) + n
    && CreditOf(after, Other(side.value)) == CreditOf(before, Other(side.value))
    && QueuedTo(after, side.value) == QueuedTo(before, side.value)
  }

  /** The other side may send `n` more bytes, within the greatest window; nothing else on the circuit changed. */
  predicate Lent(before: Circuit, after: Circuit, source: Peer, n: nat) {
    var side := SideOf(before, source);
    && side.Some?
    && CreditOf(after, Other(side.value)) == CreditOf(before, Other(side.value)) + n <= MAX_WINDOW
    && CreditOf(after, side.value) == CreditOf(before, side.value)
    && after.toRequester == before.toRequester && after.toEndpoint == before.toEndpoint && after.forwarded == before.forwarded
  }

  class RelayMachine {
    const config: Config
    ghost const tickets: Tickets
    var generation: nat
    var enabled: bool
    var time: nat
    var pending: map<Id, Pending>
    var circuits: map<Id, Circuit>
    var usage: map<Id, Usage>
    var inflight: map<nat, Action>
    var next: nat
    var counters: Counters

    function View(): Relay
      reads this
    {
      Relay(config, generation, enabled, time, pending, circuits, usage, inflight, next, counters)
    }

    /** Queue counters exact, caps kept, actions naming live work, every admitted open accounted for. */
    ghost predicate Valid()
      reads this
    {
      Inv(View(), tickets)
    }

    constructor(config: Config, generation: nat, now: nat, ghost tickets: Tickets)
      ensures View() == Fresh(config, generation, now) && this.tickets == tickets && Valid()
    {
      this.config, this.generation, enabled, time := config, generation, true, now;
      pending, circuits, usage, inflight, next, counters := map[], map[], map[], map[], 1, Counters(0, 0, 0, 0, 0);
      this.tickets := tickets;
      FreshOk(config, generation, now, tickets);
    }

    method EnsureActionCapacity(destination: Peer, cid: Id, replacing: bool) returns (ok: bool)
      ensures ok == HasRoom(View(), if replacing then Without(inflight, cid) else inflight, destination, cid)
    {
      var retained := inflight;
      if replacing {
        retained := DropFor(inflight, cid);
      }
      var total, forCircuit, forPeer := CountActions(retained, destination, cid);
      return total < config.maxActions && forCircuit < config.maxActionsPerCircuit && forPeer < config.maxActionsPerPeer;
    }

    method QueueControl(cid: Id, r: Route, kind: Kind) returns (out: seq<Route>, result: Result<(), Error>)
      modifies this
      ensures Done(View(), out, result) == Queue(old(View()), cid, r, kind)
      ensures pending == old(pending) && circuits == old(circuits) && (result.Ok? ==> out == [r])
    {
      var room := EnsureActionCapacity(r.destination, cid, false);
      if !room {
        return [], Err(Capacity);
      }
      if next >= U64_MAX {
        return [], Err(GenerationExhausted);
      }
      inflight := inflight[next := Action(cid, r.destination, kind)];
      next := next + 1;
      return [r], Ok(());
    }

    method QueueEach(cid: Id, routes: seq<Route>) returns (out: seq<Route>)
      modifies this
      ensures Done(View(), out, Ok(())) == QueueCloses(old(View()), cid, routes)
      decreases |routes|
    {
      out := [];
      if routes != [] {
        var first, _ := QueueControl(cid, routes[0], IsClose);
        var rest := QueueEach(cid, routes[1..]);
        out := first + rest;
      }
    }

    /** A pending open or a circuit leaves, with its actions. */
    method Remove(cid: Id)
      modifies this
      ensures View() == Removed(old(View()), cid)
    {
      pending := pending - {cid};
      circuits := circuits - {cid};
      inflight := DropFor(inflight, cid);
      counters := counters.(revoked := SaturatingAdd(counters.revoked, 1));
    }

    method RevokeOne(cid: Id) returns (out: seq<Route>)
      modifies this
      ensures Done(View(), out, Ok(())) == RevokeCircuit(old(View()), cid)
    {
      if cid !in circuits {
        return [];
      }
      var c := circuits[cid];
      Remove(cid);
      out := QueueEach(cid, [Route(c.requester, Close(cid)), Route(c.endpoint, Close(cid))]);
    }

    method RevokeWaiting(cid: Id, why: Reason) returns (out: seq<Route>)
      modifies this
      ensures Done(View(), out, Ok(()))
              == if why.Abandon? then AbandonPending(old(View()), cid, why.peer) else RevokePending(old(View()), cid)
    {
      if cid !in pending {
        return [];
      }
      var p := pending[cid];
      Remove(cid);
      if why.Abandon? {
        out := QueueEach(cid, [if p.requester == why.peer then Route(p.endpoint, Close(cid)) else Route(p.requester, Close(p.context))]);
      } else {
        out := QueueEach(cid, [Route(p.requester, Close(p.context)), Route(p.endpoint, Close(cid))]);
      }
    }

    /** Revoke every listed pending open, then every listed circuit. */
    method RevokeListed(pendings: seq<Id>, listed: seq<Id>, why: Reason) returns (out: seq<Route>)
      modifies this
      ensures Done(View(), out, Ok(())) == RevokeEach(old(View()), pendings, listed, why)
    {
      hide RevokePending, AbandonPending, RevokeCircuit, RevokeEach;
      out := [];
      ghost var whole := RevokeEach(View(), pendings, listed, why);
      assert pendings[0..] == pendings && [] + whole.out == whole.out;
      for i := 0 to |pendings|
        invariant whole == Then(out, RevokeEach(View(), pendings[i..], listed, why))
      {
        ghost var m := View();
        var closed := RevokeWaiting(pendings[i], why);
        NextPending(whole, out, m, Done(View(), closed, Ok(())), pendings[i..], listed, why);
        assert pendings[i..][1..] == pendings[i + 1..];
        out := out + closed;
      }
      assert pendings[|pendings|..] == [] && listed[0..] == listed;
      for i := 0 to |listed|
        invariant whole == Then(out, RevokeEach(View(), [], listed[i..], why))
      {
        ghost var m := View();
        var closed := RevokeOne(listed[i]);
        NextCircuit(whole, out, m, Done(View(), closed, Ok(())), listed[i..], why);
        assert listed[i..][1..] == listed[i + 1..];
        out := out + closed;
      }
      assert listed[|listed|..] == [];
      NothingToRevoke(View(), why);
      assert out + [] == out;
    }

    method DisconnectPeer(peer: Peer, pendings: seq<Id>, listed: seq<Id>) returns (out: seq<Route>)
      requires Valid() && Lists(pendings, PendingWith(pending, peer)) && Lists(listed, CircuitsWith(circuits, peer))
      modifies this
      ensures Done(View(), out, Ok(())) == Disconnect(old(View()), peer, pendings, listed)
      ensures Valid() && PeerWork(View(), peer) == 0
    {
      hide Inv, InvExcept, Lists, RevokeEach;
      DisconnectKeeps(View(), peer, pendings, listed, tickets);
      inflight := AwayFrom(inflight, peer);
      out := RevokeListed(pendings, listed, Abandon(peer));
    }

    method RevokeFor(reservation: Id, pendings: seq<Id>, listed: seq<Id>) returns (out: seq<Route>)
      requires Valid() && Lists(pendings, PendingOn(pending, reservation)) && Lists(listed, CircuitsOn(circuits, reservation))
      modifies this
      ensures Done(View(), out, Ok(())) == RevokeReservation(old(View()), reservation, pendings, listed)
      ensures Valid() && ReservationWork(View(), reservation) == 0
    {
      hide Inv, InvExcept, Lists, RevokeEach;
      RevokeReservationKeeps(View(), reservation, pendings, listed, tickets);
      usage := usage - {reservation};
      out := RevokeListed(pendings, listed, Revoke);
    }

    method ExpireAt(now: nat, pendings: seq<Id>, listed: seq<Id>) returns (out: seq<Route>, result: Result<(), Error>)
      requires Valid() && Lists(pendings, ExpiredPending(View(), now)) && Lists(listed, ExpiredCircuits(View(), now))
      modifies this
      ensures Done(View(), out, result) == Expire(old(View()), now, pendings, listed)
      ensures Valid()
    {
      hide Inv, InvExcept, Lists, RevokeEach;
      ExpireKeeps(View(), now, pendings, listed, tickets);
      if now < time {
        return [], Err(ClockRollback);
      }
      time := now;
      usage := LiveUsage(usage, now);
      out := RevokeListed(pendings, listed, Revoke);
      result := Ok(());
    }

    method SetEnabled(expected: nat, on: bool, pendings: seq<Id>, listed: seq<Id>) returns (out: seq<Route>, result: Result<(), Error>)
      requires Valid() && Lists(pendings, pending.Keys) && Lists(listed, circuits.Keys)
      modifies this
      ensures Done(View(), out, result) == ReplaceEnabled(old(View()), expected, on, pendings, listed)
      ensures Valid()
    {
      hide Inv, InvExcept, Lists, RevokeEach;
      ReplaceEnabledKeeps(View(), expected, on, pendings, listed, tickets);
      if expected != generation {
        return [], Err(StaleGeneration);
      }
      if enabled == on {
        return [], Ok(());
      }
      if generation + 1 > U64_MAX {
        return [], Err(GenerationExhausted);
      }
      generation, enabled, inflight, next := generation + 1, on, map[], 1;
      out := [];
      if !on {
        out := RevokeListed(pendings, listed, Revoke);
      }
      result := Ok(());
    }

    /** A pending open is entered and its endpoint told. */
    method Enter(cid: Id, q: Pending) returns (out: seq<Route>, result: Result<(), Error>)
      modifies this
      ensures Done(View(), out, result)
              == Queue(Opens(old(View()), cid, q), cid, Route(q.endpoint, Incoming(cid, q.context, q.window)), IsIncoming)
    {
      hide Queue;
      pending := pending[cid := q];
      counters := counters.(admitted := SaturatingAdd(counters.admitted, 1));
      out, result := QueueControl(cid, Route(q.endpoint, Incoming(cid, q.context, q.window)), IsIncoming);
    }

    method OpenFrom(source: Peer, p: Packet, admission: Option<Admission>, cid: Id, now: nat) returns (out: seq<Route>, result: Result<(), Error>)
      requires Valid() && enabled && p.Open?
      modifies this
      ensures Done(View(), out, result) == HandleOpen(old(View()), source, p, admission, cid, now)
      ensures Sane(old(View()), p, admission, cid, tickets) ==> Valid()
      ensures result.Ok? ==> Announced(View(), out, source, p, cid)
    {
      hide HasRoom, Queue, Opens, PeerWork, ReservationWork, OpenBlocked, Inv, InvExcept, Sane, LiveUsage, Announced;
      SaneOpenKeeps(View(), source, p, admission, cid, now, tickets);
      OpenAnnounces(View(), source, p, admission, cid, now);
      if OpenBlocked(View(), source, p.context) {
        return [], Err(Capacity);
      }
      if !p.WellFormed() {
        return [], Err(Malformed);
      }
      if admission.None? {
        return [], Err(NotAdmitted);
      }
      var t, endpoint := admission.value.ticket, admission.value.endpoint;
      var crowded := PeerWork(View(), endpoint) >= config.maxPerPeer || ReservationWork(View(), p.reservation) >= t.maxActive;
      var room := EnsureActionCapacity(endpoint, cid, false);
      usage := LiveUsage(usage, now);
      if endpoint == source || crowded || !room {
        return [], Err(Capacity);
      }
      if now + config.acceptTimeout > U64_MAX {
        return [], Err(Deadline);
      }
      var u := if t.reservation in usage then usage[t.reservation] else Usage(0, t.expires);
      usage := usage[t.reservation := u];
      if u.expires != t.expires || u.bytes >= t.maxTotal {
        return [], Err(ByteLimit);
      }
      out, result := Enter(cid, Pending(source, endpoint, p.context, t, p.window, Min(now + config.acceptTimeout, t.expires)));
    }

    method CloseFrom(source: Peer, p: Packet) returns (out: seq<Route>, result: Result<(), Error>)
      requires Valid() && p.Close?
      modifies this
      ensures Done(View(), out, result) == HandleClose(old(View()), source, p)
      ensures Valid()
    {
      hide Queue, Inv, InvExcept;
      HandleCloseKeeps(View(), source, p, tickets);
      var matched := Matching(View(), source, p.context);
      if |matched| > 1 {
        return [], Err(InvalidAdmission);
      }
      if matched != {} {
        OnlyOne(matched);
        var cid :| cid in matched && (forall d :: d in matched ==> d == cid);
        var q := pending[cid];
        Remove(cid);
        out, result := QueueControl(cid, if q.requester == source then Route(q.endpoint, Close(cid)) else Route(q.requester, Close(q.context)), IsClose);
        return;
      }
      if p.context !in circuits {
        return [], Err(UnknownCircuit);
      }
      var c := circuits[p.context];
      var side := SideOf(c, source);
      if side.None? {
        return [], Err(WrongPeer);
      }
      Remove(p.context);
      out, result := QueueControl(p.context, Route(PeerOn(c, Other(side.value)), p), IsClose);
    }

    method Accept(source: Peer, p: Packet, now: nat) returns (out: seq<Route>, result: Result<(), Error>)
      requires Valid() && enabled && p.Accept?
      modifies this
      ensures Done(View(), out, result) == HandleAccept(old(View()), source, p, now)
      ensures Valid()
      ensures result.Ok? ==>
                && p.circuit in old(pending) && old(pending)[p.circuit].endpoint == source && p.circuit in circuits && p.circuit !in pending
                && circuits[p.circuit].requesterCredit == circuits[p.circuit].endpointCredit == p.window <= old(pending)[p.circuit].window
                && out == [Route(circuits[p.circuit].requester, Opened(old(pending)[p.circuit].context, p.circuit, p.window))]
    {
      hide HasRoom, Queue, ReservationWork, Inv, InvExcept;
      HandleAcceptKeeps(View(), source, p, now, tickets);
      var cid := p.circuit;
      if cid !in pending {
        return [], Err(UnknownRequest);
      }
      var q := pending[cid];
      if q.endpoint != source {
        return [], Err(WrongPeer);
      }
      if q.deadline <= now || q.ticket.expires <= now {
        return [], Err(InvalidAdmission);
      }
      if !p.WellFormed() {
        return [], Err(Malformed);
      }
      if p.window > q.window || |circuits| >= config.maxCircuits || ReservationWork(View(), q.ticket.reservation) > q.ticket.maxActive {
        return [], Err(Capacity);
      }
      var room := EnsureActionCapacity(q.requester, cid, true);
      if !room {
        return [], Err(Capacity);
      }
      var established := Established(View(), q, p.window);
      pending := pending - {cid};
      inflight := DropFor(inflight, cid);
      circuits := circuits[cid := established];
      counters := counters.(accepted := SaturatingAdd(counters.accepted, 1));
      out, result := QueueControl(cid, Route(q.requester, Opened(q.context, cid, p.window)), IsOpened);
    }

    method Forward(source: Peer, p: Packet) returns (out: seq<Route>, result: Result<(), Error>)
      requires Valid() && p.Data?
      modifies this
      ensures Done(View(), out, result) == HandleData(old(View()), source, p)
      ensures old(next) < U64_MAX ==> Valid() && (result.Err? ==> View() == old(View()))
      ensures result.Ok? ==>
                && p.circuit in old(circuits) && circuits.Keys == old(circuits.Keys) && Moved(old(circuits)[p.circuit], circuits[p.circuit], source, p.bytes)
                && |out| == 1 && out[0].packet == p && forall c :: c in circuits && c != p.circuit ==> circuits[c] == old(circuits)[c]
      ensures result.Ok? ==> B.Charges(old(View()), View(), p.circuit, p.bytes)
    {
      hide Inv, InvExcept, Queue, HasRoom, B.Charges;
      B.DataCharges(View(), source, p);
      if next < U64_MAX {
        HandleDataKeeps(View(), source, p, tickets);
      }
      DataRejection(View(), source, p);
      var n := p.bytes;
      if !p.WellFormed() {
        return [], Err(Malformed);
      }
      if p.circuit !in circuits {
        return [], Err(UnknownCircuit);
      }
      var c := circuits[p.circuit];
      var side := SideOf(c, source);
      if side.None? {
        return [], Err(WrongPeer);
      }
      var to := Other(side.value);
      var room := EnsureActionCapacity(PeerOn(c, to), p.circuit, false);
      if !room {
        return [], Err(Capacity);
      }
      if c.reservation !in usage {
        return [], Err(InvalidAdmission);
      }
      var u := usage[c.reservation];
      if SaturatingAdd(c.forwarded, n) > c.maxBytes || SaturatingAdd(u.bytes, n) > c.maxTotal {
        return [], Err(ByteLimit);
      }
      if n > CreditOf(c, side.value) || QueuedTo(c, to) + n > config.maxQueue {
        return [], Err(FlowControl);
      }
      circuits := circuits[p.circuit := Spent(c, side.value, n)];
      usage := usage[c.reservation := u.(bytes := SaturatingAdd(u.bytes, n))];
      counters := counters.(sent := SaturatingAdd(counters.sent, n), received := SaturatingAdd(counters.received, n));
      out, result := QueueControl(p.circuit, Route(PeerOn(c, to), p), IsData(to, n));
    }

    method Grant(source: Peer, p: Packet) returns (out: seq<Route>, result: Result<(), Error>)
      requires Valid() && p.Window?
      modifies this
      ensures Done(View(), out, result) == HandleWindow(old(View()), source, p)
      ensures Valid() && (old(next) < U64_MAX && result.Err? ==> View() == old(View()))
      ensures result.Ok? ==>
                && p.circuit in old(circuits) && circuits.Keys == old(circuits.Keys) && Lent(old(circuits)[p.circuit], circuits[p.circuit], source, p.delta)
                && |out| == 1 && out[0].packet == p && forall c :: c in circuits && c != p.circuit ==> circuits[c] == old(circuits)[c]
    {
      hide Inv, InvExcept, Queue, HasRoom;
      HandleWindowKeeps(View(), source, p, tickets);
      WindowRejection(View(), source, p);
      if !p.WellFormed() {
        return [], Err(Malformed);
      }
      if p.circuit !in circuits {
        return [], Err(UnknownCircuit);
      }
      var c := circuits[p.circuit];
      var side := SideOf(c, source);
      if side.None? {
        return [], Err(WrongPeer);
      }
      var to := Other(side.value);
      var room := EnsureActionCapacity(PeerOn(c, to), p.circuit, false);
      if !room {
        return [], Err(Capacity);
      }
      if CreditOf(c, to) + p.delta > MAX_WINDOW {
        return [], Err(FlowControl);
      }
      circuits := circuits[p.circuit := Granted(c, side.value, p.delta)];
      out, result := QueueControl(p.circuit, Route(PeerOn(c, to), p), IsControl);
    }

    /** The bytes of a finished DATA write leave their queue. */
    method Release(a: Action)
      modifies this`circuits
      ensures View() == Released(old(View()), a)
    {
      if a.kind.IsData? && a.circuit in circuits {
        var c, n := circuits[a.circuit], a.kind.bytes;
        match a.kind.side
        case RequesterSide => circuits := circuits[a.circuit := c.(toRequester := if n <= c.toRequester then c.toRequester - n else 0)];
        case EndpointSide => circuits := circuits[a.circuit := c.(toEndpoint := if n <= c.toEndpoint then c.toEndpoint - n else 0)];
      }
    }

    method Ack(gen: nat, sequence: nat, delivered: bool) returns (out: seq<Route>, result: Result<(), Error>)
      requires Valid()
      modifies this
      ensures Done(View(), out, result) == Acknowledge(old(View()), gen, sequence, delivered)
      ensures Valid()
    {
      hide Inv, InvExcept, Queue, RevokeCircuit, Released, Revoked;
      AcknowledgeKeeps(View(), gen, sequence, delivered, tickets);
      if gen != generation {
        return [], Err(StaleGeneration);
      }
      if sequence !in inflight {
        return [], Err(UnknownAction);
      }
      var a := inflight[sequence];
      inflight := inflight - {sequence};
      Release(a);
      if delivered || a.kind.IsClose? {
        return [], Ok(());
      }
      if a.kind.IsIncoming? {
        if a.circuit !in pending {
          return [], Ok(());
        }
        var p := pending[a.circuit];
        pending := pending - {a.circuit};
        counters := Revoked(counters);
        out, result := QueueControl(a.circuit, Route(p.requester, Close(p.context)), IsClose);
      } else {
        out := RevokeOne(a.circuit);
        result := Ok(());
      }
    }

    /**
      One packet. A refused DATA, WINDOW or ACCEPT leaves everything but the clock as it was, as long as the generation
      has a sequence number left.
     */
    method HandlePacket(source: Peer, p: Packet, now: nat, admission: Option<Admission>, cid: Id)
      returns (out: seq<Route>, result: Result<(), Error>)
      requires Valid()
      modifies this
      ensures Done(View(), out, result) == Handle(old(View()), source, p, now, admission, cid)
      ensures Sane(old(View()), p, admission, cid, tickets) && old(next) < U64_MAX ==> Valid()
      ensures (p.Data? || p.Window? || p.Accept?) && old(next) < U64_MAX && result.Err? ==>
                View() == old(View()).(time := Max(old(time), now))
    {
      hide InvExcept, HandleOpen, HandleAccept, HandleData, HandleWindow, HandleClose;
      if Sane(View(), p, admission, cid, tickets) && next < U64_MAX {
        HandleKeeps(View(), source, p, now, admission, cid, tickets);
      }
      if p.Data? || p.Window? || p.Accept? {
        RejectionChangesNothing(View(), source, p, now, admission, cid);
      }
      if now < time {
        return [], Err(ClockRollback);
      }
      FrameKeeps(View(), View().(time := now), tickets);
      time := now;
      if !enabled {
        return [], Err(Disabled);
      }
      match p
      case Open(_, _, _) => out, result := OpenFrom(source, p, admission, cid, now);
      case Accept(_, _) => out, result := Accept(source, p, now);
      case Data(_, _) => out, result := Forward(source, p);
      case Window(_, _) => out, result := Grant(source, p);
      case Close(_) => out, result := CloseFrom(source, p);
      case _ => return [], Err(UnexpectedOpcode);
    }
  }

  // ---- the requester ----

  lemma SoundPart(q: Q.Requester, lost: nat)
    requires Q.Inv(q, lost)
    ensures Q.Sound(q)
  {
  }

  class RequesterMachine {
    const limits: Q.Limits
    var generation: nat
    var enabled: bool
    var time: nat
    var waiting: map<Id, Q.Waiting>
    var links: map<Id, Q.Link>
    var usage: map<Id, Usage>
    var counters: Counters
    /** How many opens closes and cancels have lost to the account so far. */
    ghost var lost: nat

    function View(): Q.Requester
      reads this
    {
      Q.Requester(limits, generation, enabled, time, waiting, links, usage, counters)
    }

    /** Links sound, the circuit bound kept, every admitted open accounted for but the lost ones. */
    ghost predicate Valid()
      reads this
    {
      Q.Inv(View(), lost)
    }

    constructor(limits: Q.Limits, generation: nat, now: nat)
      requires limits.maxCircuits <= Q.MAX_CIRCUITS
      ensures View() == Q.New(limits, generation, now) && Valid() && lost == 0
    {
      this.limits, this.generation, enabled, time := limits, generation, true, now;
      waiting, links, usage, counters, lost := map[], map[], map[], Counters(0, 0, 0, 0, 0), 0;
    }

    method Send(cid: Id, n: nat) returns (route: Option<Route>, result: Result<(), Error>)
      requires Valid()
      modifies this
      ensures Q.Did(View(), route, result) == Q.SendData(old(View()), cid, n)
      ensures result.Ok? ==> QB.Charges(old(View()), View(), cid, n)
      ensures Valid() && lost == old(lost) && (result.Err? ==> View() == old(View()) && route == None)
      ensures result.Ok? ==>
                && cid in old(links) && links.Keys == old(links.Keys) && 0 < n <= MAX_DATA_SIZE
                && route == Some(Route(links[cid].relay, Data(cid, n))) && links[cid].sendCredit + n == old(links)[cid].sendCredit
                && links[cid].inbound == old(links)[cid].inbound && Q.WindowOf(links[cid]) == Q.WindowOf(old(links)[cid])
                && waiting == old(waiting) && forall c :: c in links && c != cid ==> links[c] == old(links)[c]
    {
      hide Q.Inv, Q.Sound, Q.Accounts, QB.Charges;
      QB.SendCharges(View(), cid, n);
      Q.SendDataKeeps(View(), cid, n, lost);
      if !enabled {
        return None, Err(Disabled);
      }
      if cid !in links {
        return None, Err(UnknownCircuit);
      }
      var l := links[cid];
      if n > U32_MAX {
        return None, Err(ByteLimit);
      }
      if l.ticket.reservation !in usage {
        return None, Err(InvalidAdmission);
      }
      if n == 0 || n > MAX_DATA_SIZE || Q.OverBudget(View(), l, n) {
        return None, Err(ByteLimit);
      }
      if n > l.sendCredit {
        return None, Err(FlowControl);
      }
      links := links[cid := l.(sendCredit := l.sendCredit - n, total := SaturatingAdd(l.total, n))];
      usage := Q.Charged(usage, l.ticket.reservation, n);
      counters := counters.(sent := SaturatingAdd(counters.sent, n));
      return Some(Route(l.relay, Data(cid, n))), Ok(());
    }

    method Take(cid: Id) returns (route: Option<Route>, result: Result<(), Error>)
      requires Valid()
      modifies this
      ensures Q.Did(View(), route, result) == Q.TakeData(old(View()), cid)
      ensures Valid() && lost == old(lost) && (result.Ok? <==> old(enabled) && cid in old(links) && old(links)[cid].inbound != [])
      ensures result.Err? ==> View() == old(View()) && route == None
      ensures result.Ok? ==>
                && links.Keys == old(links.Keys) && old(links)[cid].inbound[1..] == links[cid].inbound
                && route == Some(Route(links[cid].relay, Window(cid, old(links)[cid].inbound[0])))
                && links[cid].receiveCredit == old(links)[cid].receiveCredit + old(links)[cid].inbound[0]
                && Q.WindowOf(links[cid]) == Q.WindowOf(old(links)[cid]) && links[cid].sendCredit == old(links)[cid].sendCredit
                && waiting == old(waiting) && forall c :: c in links && c != cid ==> links[c] == old(links)[c]
    {
      hide Q.Inv, Q.Sound, Q.Accounts;
      Q.TakeDataKeeps(View(), cid, lost);
      if !enabled {
        return None, Err(Disabled);
      }
      if cid !in links {
        return None, Err(UnknownCircuit);
      }
      var l := links[cid];
      if l.inbound == [] {
        return None, Err(NoQueuedData);
      }
      var n := l.inbound[0];
      links := links[cid := l.(inbound := l.inbound[1..], queued := if n <= l.queued then l.queued - n else 0)];
      SoundPart(old(View()), lost);
      Q.TakeNeverFails(old(View()), cid);
      if n > U32_MAX || l.receiveCredit + n > MAX_WINDOW {
        return None, Err(FlowControl);
      }
      links := links[cid := links[cid].(receiveCredit := l.receiveCredit + n)];
      return Some(Route(l.relay, Window(cid, n))), Ok(());
    }

    method Establish(source: Peer, p: Packet, now: nat) returns (result: Result<(), Error>)
      requires Valid() && p.Opened?
      modifies this
      ensures Q.Did(View(), None, result) == Q.HandleOpened(old(View()), source, p, now)
      ensures Valid() && lost == old(lost) && |waiting| + |links| == old(|waiting| + |links|) && (result.Err? ==> View() == old(View()))
      ensures result.Ok? ==>
                && p.context in old(waiting) && waiting == old(waiting) - {p.context} && p.circuit !in old(links)
                && links.Keys == old(links.Keys) + {p.circuit} && links[p.circuit].relay == source
                && links[p.circuit].sendCredit == p.window == Q.WindowOf(links[p.circuit]) && p.window <= old(waiting)[p.context].window
                && links[p.circuit].inbound == [] && forall c :: c in old(links) ==> links[c] == old(links)[c]
    {
      hide Q.Inv, Q.Sound, Q.Accounts;
      Q.HandleOpenedKeeps(View(), source, p, now, lost);
      Q.OpenedMoves(View(), source, p, now);
      if p.context !in waiting {
        return Err(UnknownRequest);
      }
      var w := waiting[p.context];
      if w.relay != source {
        return Err(WrongPeer);
      }
      if w.deadline <= now || w.ticket.expires <= now {
        return Err(InvalidAdmission);
      }
      if !p.WellFormed() {
        return Err(Malformed);
      }
      if p.window > w.window || p.circuit in links {
        return Err(InvalidAdmission);
      }
      waiting := waiting - {p.context};
      links := links[p.circuit := Q.Link(w.relay, w.ticket, p.window, p.window, 0, 0, [])];
      counters := counters.(accepted := SaturatingAdd(counters.accepted, 1));
      return Ok(());
    }

    method Buffer(source: Peer, p: Packet) returns (result: Result<(), Error>)
      requires Valid() && p.Data?
      modifies this
      ensures Q.Did(View(), None, result) == Q.HandleData(old(View()), source, p)
      ensures result.Ok? ==> QB.Charges(old(View()), View(), p.circuit, p.bytes)
      ensures Valid() && lost == old(lost) && (result.Err? ==> View() == old(View()))
      ensures result.Ok? ==>
                && p.circuit in old(links) && links.Keys == old(links.Keys) && links[p.circuit].relay == source
                && links[p.circuit].inbound == old(links)[p.circuit].inbound + [p.bytes]
                && Q.WindowOf(links[p.circuit]) == Q.WindowOf(old(links)[p.circuit])
                && links[p.circuit].receiveCredit + p.bytes == old(links)[p.circuit].receiveCredit
                && links[p.circuit].sendCredit == old(links)[p.circuit].sendCredit
                && waiting == old(waiting) && forall c :: c in links && c != p.circuit ==> links[c] == old(links)[c]
    {
      hide Q.Inv, Q.Sound, Q.Accounts, QB.Charges;
      QB.ReceiveCharges(View(), source, p);
      Q.HandleDataKeeps(View(), source, p, lost);
      var n := p.bytes;
      if p.circuit !in links {
        return Err(UnknownCircuit);
      }
      var l := links[p.circuit];
      if l.relay != source {
        return Err(WrongPeer);
      }
      if !p.WellFormed() {
        return Err(Malformed);
      }
      if l.ticket.reservation !in usage {
        return Err(InvalidAdmission);
      }
      if Q.OverBudget(View(), l, n) {
        return Err(ByteLimit);
      }
      if n > l.receiveCredit || l.queued + n > limits.maxQueue {
        return Err(FlowControl);
      }
      links := links[p.circuit := l.(receiveCredit := l.receiveCredit - n, total := SaturatingAdd(l.total, n),
                                     queued := l.queued + n, inbound := l.inbound + [n])];
      usage := Q.Charged(usage, l.ticket.reservation, n);
      counters := counters.(received := SaturatingAdd(counters.received, n));
      return Ok(());
    }

    method Replenish(source: Peer, p: Packet) returns (result: Result<(), Error>)
      requires Valid() && p.Window?
      modifies this
      ensures Q.Did(View(), None, result) == Q.HandleWindow(old(View()), source, p)
      ensures Valid() && lost == old(lost) && (result.Err? ==> View() == old(View()))
      ensures result.Ok? ==>
                && p.circuit in old(links) && links.Keys == old(links.Keys) && links[p.circuit].relay == source
                && links[p.circuit].sendCredit == old(links)[p.circuit].sendCredit + p.delta <= MAX_WINDOW
                && links[p.circuit].inbound == old(links)[p.circuit].inbound && Q.WindowOf(links[p.circuit]) == Q.WindowOf(old(links)[p.circuit])
                && waiting == old(waiting) && forall c :: c in links && c != p.circuit ==> links[c] == old(links)[c]
    {
      hide Q.Inv, Q.Sound, Q.Accounts;
      Q.HandleWindowKeeps(View(), source, p, lost);
      if p.circuit !in links {
        return Err(UnknownCircuit);
      }
      var l := links[p.circuit];
      if l.relay != source {
        return Err(WrongPeer);
      }
      if !p.WellFormed() {
        return Err(Malformed);
      }
      if l.sendCredit + p.delta > MAX_WINDOW {
        return Err(FlowControl);
      }
      links := links[p.circuit := l.(sendCredit := l.sendCredit + p.delta)];
      return Ok(());
    }

    method Begin(relay: Peer, ticket: Ticket, valid: bool, now: nat, deadline: nat, window: nat, context: Id)
      returns (route: Option<Route>, result: Result<(), Error>)
      requires Valid() && context !in waiting && context !in links
      modifies this
      ensures Q.Did(View(), route, result) == Q.BeginOpen(old(View()), relay, ticket, valid, now, deadline, window, context)
      ensures Valid() && lost == old(lost) && links == old(links) && (result.Err? ==> waiting == old(waiting) && counters == old(counters) && route == None)
      ensures result.Ok? ==>
                && route == Some(Route(relay, Open(context, ticket.reservation, window))) && now < deadline < ticket.expires
                && context in waiting && waiting[context].relay == relay && waiting[context].window == window && waiting - {context} == old(waiting)
                && |waiting| + |links| <= limits.maxCircuits && counters.admitted == SaturatingAdd(old(counters.admitted), 1)
    {
      hide Q.Inv, Q.Sound, Q.Accounts;
      Q.BeginOpenKeeps(View(), relay, ticket, valid, now, deadline, window, context, lost);
      UpdateSize(waiting, context, Q.Waiting(relay, ticket, window, deadline));
      if now < time {
        return None, Err(ClockRollback);
      }
      time := now;
      if !enabled {
        return None, Err(Disabled);
      }
      if |waiting| + |links| >= limits.maxCircuits {
        return None, Err(Capacity);
      }
      if deadline <= now || deadline - now > Q.MAX_OPEN_DEADLINE {
        return None, Err(Deadline);
      }
      if !(MIN_WINDOW <= window <= MAX_WINDOW) || !valid || ticket.expires <= deadline {
        return None, Err(InvalidAdmission);
      }
      usage := LiveUsage(usage, now);
      var u := if ticket.reservation in usage then usage[ticket.reservation] else Usage(0, ticket.expires);
      usage := usage[ticket.reservation := u];
      if u.expires != ticket.expires || u.bytes >= ticket.maxTotal {
        return None, Err(ByteLimit);
      }
      waiting := waiting[context := Q.Waiting(relay, ticket, window, deadline)];
      counters := counters.(admitted := SaturatingAdd(counters.admitted, 1));
      return Some(Route(relay, Open(context, ticket.reservation, window))), Ok(());
    }

    method CloseFrom(source: Peer, p: Packet) returns (result: Result<(), Error>)
      requires Valid() && p.Close?
      modifies this
      ensures Q.Did(View(), None, result) == Q.HandleClose(old(View()), source, p)
      ensures Valid() && lost == old(lost) && (result.Err? ==> View() == old(View())) && (result.Ok? ==> |waiting| + |links| + 1 == old(|waiting| + |links|))
    {
      hide Q.Inv, Q.Sound, Q.Accounts;
      Q.HandleCloseKeeps(View(), source, p, lost);
      if p.context in waiting {
        if waiting[p.context].relay != source {
          return Err(WrongPeer);
        }
        Drop({p.context}, {});
        return Ok(());
      }
      if p.context !in links {
        return Err(UnknownCircuit);
      }
      if links[p.context].relay != source {
        return Err(WrongPeer);
      }
      Drop({}, {p.context});
      return Ok(());
    }

    method ExpireAt(now: nat) returns (result: Result<(), Error>)
      requires Valid()
      modifies this
      ensures Q.Did(View(), None, result) == Q.Expire(old(View()), now)
      ensures Valid() && lost == old(lost) && (result.Ok? ==> forall c :: c in links ==> now < links[c].ticket.expires)
    {
      hide Q.Inv, Q.Sound, Q.Accounts;
      Q.ExpireKeeps(View(), now, lost);
      if now < time {
        return Err(ClockRollback);
      }
      time := now;
      usage := LiveUsage(usage, now);
      Drop(set c | c in waiting && (waiting[c].deadline <= now || waiting[c].ticket.expires <= now),
           set c | c in links && links[c].ticket.expires <= now);
      return Ok(());
    }

    /** One packet from a relay. */
    method HandlePacket(source: Peer, p: Packet, now: nat) returns (result: Result<(), Error>)
      requires Valid()
      modifies this
      ensures Q.Did(View(), None, result) == Q.Handle(old(View()), source, p, now)
      ensures Valid() && lost == old(lost) && (result.Err? ==> View() == old(View()).(time := Max(old(time), now)))
    {
      hide Q.Inv, Q.Sound, Q.Accounts, Q.HandleOpened, Q.HandleData, Q.HandleWindow, Q.HandleClose;
      if now < time {
        return Err(ClockRollback);
      }
      Q.TimeKeeps(View(), now, usage, lost);
      time := now;
      if !enabled {
        return Err(Disabled);
      }
      match p
      case Opened(_, _, _) => result := Establish(source, p, now);
      case Data(_, _) => result := Buffer(source, p);
      case Window(_, _) => result := Replenish(source, p);
      case Close(_) => result := CloseFrom(source, p);
      case _ => return Err(UnexpectedOpcode);
    }

    /** Close a circuit: it goes at once, and is counted as revoked exactly if the detail fits in a CLOSE. */
    method CloseLink(cid: Id, detail: nat) returns (route: Option<Route>, result: Result<(), Error>)
      requires Valid()
      modifies this
      ensures Q.Did(View(), route, result) == Q.CloseCircuit(old(View()), cid, detail)
      ensures Valid() && lost == old(lost) + Q.LostClosing(old(View()), cid, detail)
      ensures links == old(links) - {cid} && waiting == old(waiting) && (result.Ok? <==> cid in old(links) && detail <= Q.MAX_DETAIL)
    {
      hide Q.Inv, Q.Sound, Q.Accounts, Q.Dropped;
      Q.CloseCircuitKeeps(View(), cid, detail, lost);
      lost := lost + Q.LostClosing(View(), cid, detail);
      if cid !in links {
        assert links - {cid} == links;
        return None, Err(UnknownCircuit);
      }
      var relay := links[cid].relay;
      if detail > Q.MAX_DETAIL {
        links := links - {cid};
        return None, Err(TooLarge);
      }
      Drop({}, {cid});
      assert waiting == old(waiting);
      return Some(Route(relay, Close(cid))), Ok(());
    }

    /** Cancel a waiting open, with the same account. */
    method Cancel(context: Id, detail: nat) returns (route: Option<Route>, result: Result<(), Error>)
      requires Valid()
      modifies this
      ensures Q.Did(View(), route, result) == Q.CancelOpen(old(View()), context, detail)
      ensures Valid() && lost == old(lost) + Q.LostCancelling(old(View()), context, detail)
      ensures waiting == old(waiting) - {context} && links == old(links) && (result.Ok? <==> context in old(waiting) && detail <= Q.MAX_DETAIL)
    {
      hide Q.Inv, Q.Sound, Q.Accounts, Q.Dropped;
      Q.CancelOpenKeeps(View(), context, detail, lost);
      lost := lost + Q.LostCancelling(View(), context, detail);
      if context !in waiting {
        assert waiting - {context} == waiting;
        return None, Err(UnknownRequest);
      }
      var relay := waiting[context].relay;
      if detail > Q.MAX_DETAIL {
        waiting := waiting - {context};
        return None, Err(TooLarge);
      }
      Drop({context}, {});
      assert links == old(links);
      return Some(Route(relay, Close(context))), Ok(());
    }

    method DisconnectFrom(relay: Peer)
      requires Valid()
      modifies this
      ensures Q.Quietly(View()) == Q.Disconnect(old(View()), relay)
      ensures Valid() && lost == old(lost) && forall c :: c in links ==> links[c].relay != relay
      ensures forall c :: c in waiting ==> waiting[c].relay != relay
    {
      hide Q.Inv, Q.Sound, Q.Accounts;
      Q.DisconnectKeeps(View(), relay, lost);
      Drop(set c | c in waiting && waiting[c].relay == relay, set c | c in links && links[c].relay == relay);
    }

    /** A policy change starts a new generation; disabling drops everything at once. */
    method SetEnabled(expected: nat, on: bool) returns (result: Result<(), Error>)
      requires Valid()
      modifies this
      ensures Q.Did(View(), None, result) == Q.ReplaceEnabled(old(View()), expected, on)
      ensures Valid() && lost == old(lost) && (result.Err? ==> View() == old(View()))
      ensures result.Ok? && old(enabled) && !on ==> waiting == map[] && links == map[]
    {
      hide Q.Inv, Q.Sound, Q.Accounts, Q.Dropped;
      Q.ReplaceEnabledKeeps(View(), expected, on, lost);
      if expected != generation {
        return Err(StaleGeneration);
      }
      if enabled == on {
        return Ok(());
      }
      if generation + 1 > U64_MAX {
        return Err(GenerationExhausted);
      }
      generation, enabled := generation + 1, on;
      if !on {
        Drop(waiting.Keys, links.Keys);
      }
      return Ok(());
    }

    method Drop(gone: set<Id>, shut: set<Id>)
      modifies this
      ensures View() == Q.Dropped(old(View()), gone, shut) && lost == old(lost)
      ensures waiting == old(waiting) - gone && links == old(links) - shut
    {
      var before := |waiting| + |links|;
      waiting := waiting - gone;
      links := links - shut;
      DifferenceSize(old(waiting), gone);
      DifferenceSize(old(links), shut);
      counters := counters.(revoked := SaturatingAdd(counters.revoked, before - |waiting| - |links|));
    }
  }
}
