/** Whole runs of the requester, restarts included. */
module CircuitRequesterRuns {
  import opened Common
  import R = CircuitRelays
  import opened CircuitRequesters

  datatype Event =
    | Begins(relay: R.Peer, ticket: R.Ticket, valid: bool, at: nat, deadline: nat, window: nat, context: R.Id)
    | Sends(link: R.Id, bytes: nat)
    | Takes(link: R.Id)
    | Hears(source: R.Peer, packet: R.Packet, at: nat)
    | Closes(link: R.Id, detail: nat)
    | Cancels(context: R.Id, detail: nat)
    | Disconnects(relay: R.Peer)
    | Ages(at: nat)
    | Switches(expected: nat, enabled: bool)
    | Restarts(minimumGeneration: nat, at: nat)

  /** The requester after an event, and whether the event succeeded. A restart keeps only what a snapshot holds. */
  function Do(q: Requester, e: Event): (Requester, bool) {
    if e.Restarts? then
      var r := Restore(Capture(q), e.minimumGeneration, e.at);
      if r.Ok? then (r.value, true) else (q, false)
    else
      var d := Outcome(q, e);
      (d.requester, d.result.Ok?)
  }

  function Outcome(q: Requester, e: Event): Did
    requires !e.Restarts?
  {
    match e
    case Begins(relay, ticket, valid, at, deadline, window, context) => BeginOpen(q, relay, ticket, valid, at, deadline, window, context)
    case Sends(link, bytes) => SendData(q, link, bytes)
    case Takes(link) => TakeData(q, link)
    case Hears(source, packet, at) => Handle(q, source, packet, at)
    case Closes(link, detail) => CloseCircuit(q, link, detail)
    case Cancels(context, detail) => CancelOpen(q, context, detail)
    case Disconnects(relay) => Disconnect(q, relay)
    case Ages(at) => Expire(q, at)
    case Switches(expected, enabled) => ReplaceEnabled(q, expected, enabled)
  }

  /** The drawn context is one that neither a waiting open nor a link uses. */
  predicate Possible(q: Requester, e: Event) {
    e.Begins? ==> e.context !in q.waiting && e.context !in q.links
  }

  /** A close or cancel of live work whose detail is too long: the work goes, and is counted nowhere. */
  predicate Loses(q: Requester, e: Event) {
    || (e.Closes? && e.link in q.links && e.detail > MAX_DETAIL)
    || (e.Cancels? && e.context in q.waiting && e.detail > MAX_DETAIL)
  }

  lemma NewOk(limits: Limits, generation: nat, now: nat)
    requires limits.maxCircuits <= MAX_CIRCUITS
    ensures Inv(New(limits, generation, now), 0)
  {
  }

  lemma DoKeeps(q: Requester, e: Event, lost: nat)
    requires Inv(q, lost) && Possible(q, e)
    ensures Inv(Do(q, e).0, lost + if Loses(q, e) then 1 else 0)
  {
    hide Inv, BeginOpen, SendData, TakeData, Handle, CloseCircuit, CancelOpen, Disconnect, Expire, ReplaceEnabled, Restore;
    match e
    case Begins(relay, ticket, valid, at, deadline, window, context) => BeginOpenKeeps(q, relay, ticket, valid, at, deadline, window, context, lost);
    case Sends(link, bytes) => SendDataKeeps(q, link, bytes, lost);
    case Takes(link) => TakeDataKeeps(q, link, lost);
    case Hears(source, packet, at) => HandleKeeps(q, source, packet, at, lost);
    case Closes(link, detail) => CloseCircuitKeeps(q, link, detail, lost);
    case Cancels(context, detail) => CancelOpenKeeps(q, context, detail, lost);
    case Disconnects(relay) => DisconnectKeeps(q, relay, lost);
    case Ages(at) => ExpireKeeps(q, at, lost);
    case Switches(expected, enabled) => ReplaceEnabledKeeps(q, expected, enabled, lost);
    case Restarts(minimumGeneration, at) =>
      if Restore(Capture(q), minimumGeneration, at).Ok? {
        RestoreConserves(q, minimumGeneration, at, lost);
      }
  }

  // ---- runs ----

  ghost predicate Run(states: seq<Requester>, events: seq<Event>) {
    && |states| == |events| + 1
    && (exists limits: Limits, generation, now :: limits.maxCircuits <= MAX_CIRCUITS && states[0] == New(limits, generation, now))
    && forall i :: 0 <= i < |events| ==> Possible(states[i], events[i]) && states[i + 1] == Do(states[i], events[i]).0
  }

  /** How many of the first `n` events opened a circuit, counted from the events alone. */
  function Opens(states: seq<Requester>, events: seq<Event>, n: nat): nat
    requires n <= |events| && |states| == |events| + 1
  {
    if n == 0 then 0
    else Opens(states, events, n - 1) + if events[n - 1].Begins? && Do(states[n - 1], events[n - 1]).1 then 1 else 0
  }

  /** How many of them lost one. */
  function Lost(states: seq<Requester>, events: seq<Event>, n: nat): nat
    requires n <= |events| && |states| == |events| + 1
  {
    if n == 0 then 0
    else Lost(states, events, n - 1) + if Loses(states[n - 1], events[n - 1]) then 1 else 0
  }

  lemma {:induction false} RunKeeps(states: seq<Requester>, events: seq<Event>, n: nat)
    requires Run(states, events) && n < |states|
    ensures Inv(states[n], Lost(states, events, n))
  {
    hide Inv, Do;
    if n == 0 {
      var limits: Limits, generation, now :| limits.maxCircuits <= MAX_CIRCUITS && states[0] == New(limits, generation, now);
      NewOk(limits, generation, now);
    } else {
      RunKeeps(states, events, n - 1);
      DoKeeps(states[n - 1], events[n - 1], Lost(states, events, n - 1));
    }
  }

  /** Only an admitted open moves the counter, and by one; a restart carries it over. */
  lemma DoCounts(q: Requester, e: Event)
    ensures var (r, ok) := Do(q, e);
            r.counters.admitted == if e.Begins? && ok then SaturatingAdd(q.counters.admitted, 1) else q.counters.admitted
  {
    hide OverBudget, R.LiveUsage, Charged;
  }

  lemma {:induction false} AdmittedCountsOpens(states: seq<Requester>, events: seq<Event>, n: nat)
    requires Run(states, events) && n < |states|
    ensures states[n].counters.admitted == Min(Opens(states, events, n), U64_MAX)
  {
    hide Do;
    if n > 0 {
      AdmittedCountsOpens(states, events, n - 1);
      DoCounts(states[n - 1], events[n - 1]);
    }
  }

  /**
    In every run, through closes, cancels, errors, disconnects, expiry, disabling and restarts: the opens that were
    admitted are exactly the pending ones, the active ones, the revoked ones and the lost ones, and the circuit bound
    holds.
   */
  lemma EveryOpenAccounted(states: seq<Requester>, events: seq<Event>, n: nat)
    requires Run(states, events) && n < |states|
    ensures var q := states[n];
            && |q.waiting| + |q.links| <= q.limits.maxCircuits <= MAX_CIRCUITS
            && (Opens(states, events, n) < U64_MAX ==>
                  Opens(states, events, n) == |q.waiting| + |q.links| + q.counters.revoked + Lost(states, events, n))
  {
    RunKeeps(states, events, n);
    AdmittedCountsOpens(states, events, n);
  }

  lemma {:induction false} NoneLost(states: seq<Requester>, events: seq<Event>, n: nat)
    requires n <= |events| && |states| == |events| + 1
    ensures Lost(states, events, n) == 0 <==> forall i :: 0 <= i < n ==> !Loses(states[i], events[i])
  {
    if n > 0 {
      NoneLost(states, events, n - 1);
      if Loses(states[n - 1], events[n - 1]) {
        assert !forall i :: 0 <= i < n ==> !Loses(states[i], events[i]);
      }
    }
  }

  /** So the account of pending, active and revoked opens balances exactly if no close or cancel so far lost one; a loss is never made good. */
  lemma BalancedIff(states: seq<Requester>, events: seq<Event>, n: nat)
    requires Run(states, events) && n < |states| && Opens(states, events, n) < U64_MAX
    ensures var q := states[n];
            Opens(states, events, n) == |q.waiting| + |q.links| + q.counters.revoked <==> forall i :: 0 <= i < n ==> !Loses(states[i], events[i])
  {
    EveryOpenAccounted(states, events, n);
    NoneLost(states, events, n);
  }

  /** One open on a new requester, cancelled with one byte of detail too many: admitted, and nowhere to be found. */
  lemma AnOpenIsLost(ticket: R.Ticket) returns (states: seq<Requester>, events: seq<Event>)
    requires ticket.expires > 2 && ticket.maxTotal > 0
    ensures Run(states, events) && |events| == 2 && Opens(states, events, 2) == 1 && Lost(states, events, 2) == 1
    ensures var q := states[2]; q.counters.admitted == 1 && q.waiting == map[] && q.links == map[] && q.counters.revoked == 0 && !Conserved(q)
  {
    var s0 := New(Limits(1, 1, 1), 1, 0);
    var e0 := Begins(7, ticket, true, 0, 2, R.MIN_WINDOW, 5);
    var s1 := Do(s0, e0).0;
    var e1 := Cancels(5, MAX_DETAIL + 1);
    var s2 := Do(s1, e1).0;
    states, events := [s0, s1, s2], [e0, e1];
    assert s1.waiting == map[5 := Waiting(7, ticket, R.MIN_WINDOW, 2)] && Do(s0, e0).1;
    assert s2.waiting == map[];
    assert Opens(states, events, 0) == 0 && Opens(states, events, 1) == 1;
    assert Lost(states, events, 0) == 0 && Lost(states, events, 1) == 0;
  }

  /** In every run a buffered frame can be taken, whatever came before. */
  lemma EveryFrameCanBeTaken(states: seq<Requester>, events: seq<Event>, n: nat, cid: R.Id)
    requires Run(states, events) && n < |states| && states[n].enabled && cid in states[n].links && states[n].links[cid].inbound != []
    ensures TakeData(states[n], cid).result.Ok?
    ensures WindowOf(TakeData(states[n], cid).requester.links[cid]) == WindowOf(states[n].links[cid])
  {
    RunKeeps(states, events, n);
    TakeNeverFails(states[n], cid);
  }
}
