/** The requester as the program keeps it: fields updated in place, one method per operation. */
module RequesterObjects {
  import opened CasRegisters
  import opened Common
  import opened Replay
  import opened Requester
  import opened RequesterSelection

  lemma ImageOk(m: Memory)
    requires WellFormed(m)
    ensures ValidImage(m.image)
  {
  }

  class RequesterState {
    const network: nat
    const capacity: nat
    var revision: nat
    var time: nat
    var entries: map<Scope, Observation>
    var pending: Option<Expectation<Image>>

    function Snapshot(): Image
      reads this
    {
      Image(network, capacity, revision, time, entries)
    }

    function View(): Memory
      reads this
    {
      Memory(Snapshot(), pending)
    }

    /** A loadable image, and a pending write that goes beyond what it expects. */
    ghost predicate Valid()
      reads this
    {
      WellFormed(View())
    }

    constructor(m: Memory)
      requires WellFormed(m)
      ensures View() == m && Valid()
    {
      network, capacity, revision, time, entries, pending :=
        m.image.network, m.image.capacity, m.image.revision, m.image.time, m.image.entries, m.pending;
    }

    method Reconcile(loaded: Option<Image>, minimumRevision: nat, held: bool) returns (r: Result<(), Error>)
      requires Valid()
      modifies this
      ensures Valid() && Snapshot() == old(Snapshot())
      ensures r.Ok? ==> loaded == if pending.None? then Some(Snapshot()) else Expected(pending.value)
      ensures r.Ok? <==>
                && held
                && match loaded
                   case None => old(pending) == Some(Absent)
                   case Some(i) =>
                     && minimumRevision <= i.revision && i.network == network && i.capacity == capacity
                     && (i == Snapshot() || old(pending) == Some(Prior(i)))
      ensures var m := Requester.Reconcile(old(View()), loaded, minimumRevision);
              && View() == (if m.Ok? && held then m.value else old(View()))
              && r == (if m.Err? then Err(m.error) else if !held then Err(LeaseLost) else Ok(()))
    {
      var after := pending;
      match loaded {
        case None =>
          if pending != Some(Absent) {
            return Err(DurableMismatch);
          }
        case Some(image) =>
          if image.network != network || image.capacity != capacity || image.revision < minimumRevision {
            return Err(Incompatible);
          }
          if image == Snapshot() {
            after := None;
          } else if pending != Some(Prior(image)) {
            return Err(DurableMismatch);
          }
      }
      if !held {
        return Err(LeaseLost);
      }
      pending := after;
      return Ok(());
    }

    method FlushPending(storage: Storage<Image>, token: nat, a: Attempt) returns (r: Result<(), Error>)
      requires Valid()
      modifies this, storage
      ensures Valid() && Snapshot() == old(Snapshot())
      ensures r.Ok? ==> pending.None? && (old(pending).Some? ==> storage.durable == Some(Snapshot()))
      ensures r.Ok? ==> a.before && (old(pending).Some? ==> a.after && a.fault.Healthy?)
      ensures r.Err? ==> pending == old(pending)
      ensures Step(World(View(), storage.View()), r) == Flush(World(old(View()), old(storage.View())), token, a)
    {
      if !a.before {
        return Err(LeaseLost);
      }
      if pending.None? {
        return Ok(());
      }
      var ok := storage.Persist(token, pending.value, Snapshot(), a.fault);
      if !ok {
        return Err(Persist);
      }
      if !a.after {
        return Err(LeaseLost);
      }
      pending := None;
      return Ok(());
    }

    method AdvanceTrustedTime(storage: Storage<Image>, token: nat, now: nat, held: bool, first: Attempt, second: Attempt) returns (r: Result<(), Error>)
      requires Valid()
      modifies this, storage
      ensures Valid() && Advances(old(View()), View()) && entries == old(entries) && (r.Ok? ==> pending.None? && time == now)
      ensures Step(World(View(), storage.View()), r) == AdvanceTime(World(old(View()), old(storage.View())), token, now, held, first, second)
    {
      hide WellFormed, Advances;
      ghost var w := World(View(), storage.View());
      AdvanceTimeAdvances(w, token, now, held, first, second);
      IsWellFormed(View(), AdvanceTime(w, token, now, held, first, second).world.memory);
      if !held {
        return Err(LeaseLost);
      }
      if now < time {
        return Err(ClockRollback);
      }
      r := FlushPending(storage, token, first);
      if r.Err? || now == time {
        return;
      }
      if revision + 1 >= U64_MAX {
        return Err(RevisionExhausted);
      }
      var expectation := Prior(Snapshot());
      PrepareTimeFollows(Snapshot(), now);
      ghost var before := View();
      time := now;
      revision := revision + 1;
      pending := Some(expectation);
      PreparedAdvances(before, View());
      IsWellFormed(before, View());
      r := FlushPending(storage, token, second);
    }

    /** Write an observation into the entries and leave it pending. */
    method Stage(scope: Scope, c: Claims, now: nat) returns (r: Result<(), Error>)
      requires Valid()
      modifies this
      ensures Valid()
      ensures var next := PrepareObservation(old(Snapshot()), scope, c, now);
              && View() == (if next.Ok? then next.value else old(View()))
              && r == (if next.Ok? then Ok(()) else Err(next.error))
    {
      hide WellFormed, Advances, Follows;
      if !HasRoom(Snapshot(), scope) {
        return Err(Capacity);
      }
      if revision + 1 >= U64_MAX {
        return Err(RevisionExhausted);
      }
      var expectation := Prior(Snapshot());
      PrepareObservationFollows(Snapshot(), scope, c, now);
      PreparedAdvances(View(), PrepareObservation(Snapshot(), scope, c, now).value);
      IsWellFormed(View(), PrepareObservation(Snapshot(), scope, c, now).value);
      var current := Entry(Snapshot(), scope);
      var moved := Processed(current, c) && now > time;
      var e, k := Classify(EndpointOf(current), c.endpoint), Classify(RouteOf(current), c.route);
      if scope in entries {
        var o := entries[scope];
        o := o.(endpoint := ApplyEndpoint(o.endpoint, e, c.endpoint));
        o := o.(route := ApplyRoute(o.route, k, c.route));
        entries := entries[scope := o];
      } else {
        entries := entries[scope := Observation(Fresh(e, c.endpoint), Fresh(k, c.route))];
      }
      if moved {
        time := now;
      }
      revision := revision + 1;
      pending := Some(expectation);
      return Ok(());
    }

    method Observe<T>(
      storage: Storage<Image>, token: nat, selected: Option<T>, scope: Scope, c: Claims, now: nat,
      held: bool, first: Attempt, second: Attempt) returns (r: Result<T, Error>)
      requires Valid()
      modifies this, storage
      ensures Valid() && Advances(old(View()), View())
      ensures Step(World(View(), storage.View()), r)
              == ApplyObservation(World(old(View()), old(storage.View())), token, selected, scope, c, now, held, first, second)
    {
      hide WellFormed, Advances;
      ghost var w := World(View(), storage.View());
      ObservationAdvances(w, token, selected, scope, c, now, held, first, second);
      IsWellFormed(View(), ApplyObservation(w, token, selected, scope, c, now, held, first, second).world.memory);
      if !held {
        return Err(LeaseLost);
      }
      var flushed := FlushPending(storage, token, first);
      if flushed.Err? {
        return Err(flushed.error);
      }
      if Writes(Snapshot(), scope, c, now) {
        var staged := Stage(scope, c, now);
        if staged.Err? {
          return Err(staged.error);
        }
        flushed := FlushPending(storage, token, second);
        if flushed.Err? {
          return Err(flushed.error);
        }
      }
      return Verdict(Snapshot(), scope, c, selected);
    }

    method Select(storage: Storage<Image>, token: nat, q: Request, s: Script) returns (r: Result<Candidate, Error>)
      requires Valid()
      modifies this, storage
      ensures Valid() && Advances(old(View()), View()) && (r.Ok? ==> Selects(View(), q, r.value))
      ensures Step(World(View(), storage.View()), r) == SelectAndObserve(World(old(View()), old(storage.View())), token, q, s)
    {
      hide WellFormed, Advances, Selects, AdvanceTime, ApplyObservation;
      ghost var w := World(View(), storage.View());
      SelectionAdvances(w, token, q, s);
      IsWellFormed(View(), SelectAndObserve(w, token, q, s).world.memory);
      SelectionSelects(w, token, q, s);
      if !s.held {
        return Err(LeaseLost);
      }
      if q.now < time {
        return Err(ClockRollback);
      }
      var advanced := AdvanceTrustedTime(storage, token, q.now, s.advanceHeld, s.time1, s.time2);
      if advanced.Err? {
        return Err(advanced.error);
      }
      if q.network != network {
        return Err(NetworkMismatch);
      }
      if !q.keyValid {
        return Err(InvalidKey);
      }
      if !HasRoom(Snapshot(), q.scope) {
        return Err(Capacity);
      }
      if |q.batch| > MAX_RECORDS_PER_KEY {
        return Err(TooLarge);
      }
      var valid := CollectUsable(q.batch, q.scope);
      if valid == [] {
        return Err(NoRoute);
      }
      r := Observe(storage, token, Selected(valid), q.scope, BatchClaims(valid), q.now, s.observeHeld, s.observe1, s.observe2);
    }

    /**
      The awaited form. Each round runs the synchronous selection with a callback that only hands the transition
      over; the write is then awaited and acknowledged, and the round repeated. There is at most one hand-off,
      and with the lease held throughout the outcome is the synchronous one, whatever becomes of the writes.
     */
    method SelectAsync(storage: Storage<Image>, token: nat, q: Request, s: Script) returns (r: Result<Candidate, Error>, handOffs: nat)
      requires LeaseHeld(s) && Valid()
      modifies this, storage
      ensures handOffs <= 1
      ensures Valid() && Advances(old(View()), View()) && (r.Ok? ==> Selects(View(), q, r.value))
      ensures Step(World(View(), storage.View()), r) == SelectAndObserve(World(old(View()), old(storage.View())), token, q, s)
    {
      hide SelectAndObserve, WellFormed, Advances, Selects;
      handOffs := 0;
      ghost var start := World(View(), storage.View());
      AdvanceFirst(start, token, q, s);
      SelectionAdvances(start, token, q, s);
      IsWellFormed(View(), SelectAndObserve(start, token, q, s).world.memory);
      SelectionSelects(start, token, q, s);
      var advanced := AdvanceAsync(storage, token, q.now, s.time1, s.time2);
      AdvanceTimeAsyncMatches(start, token, q.now, s.time1, s.time2);
      if advanced.Err? {
        return Err(advanced.error), 0;
      }
      ghost var w := World(View(), storage.View());
      AdvanceSettles(start, token, q.now, true, s.time1, s.time2);
      ImageOk(View());
      QuietSelect(w, token, q, s);
      while true
        invariant LoopState(World(View(), storage.View()), q)
        invariant handOffs <= 1 && Valid()
        invariant handOffs == 0 ==> World(View(), storage.View()) == w
        invariant handOffs == 1 ==>
          && SelectAndObserve(World(View(), storage.View()), token, q, Always(HandOff)) == SelectAndObserve(w, token, q, s)
          && SelectAndObserve(w, token, q, s).result != Err(Persist)
        decreases 1 - handOffs
      {
        var round := Select(storage, token, q, Always(HandOff));
        if round != Err(Persist) {
          if handOffs == 0 {
            RoundWithoutHandOff(w, token, q, s);
          }
          return round, handOffs;
        }
        assert handOffs == 0;
        SyncFromRound(w, token, q, s);
        var flushed := FlushPending(storage, token, s.observe2);
        if flushed.Err? {
          return Err(flushed.error), 1;
        }
        RoundAfterHandOff(w, token, q, s);
        handOffs := 1;
      }
    }

    method ObserveCurrent(storage: Storage<Image>, token: nat, q: Request, record: Candidate, s: Script) returns (r: Result<Candidate, Error>)
      requires Valid()
      modifies this, storage
      ensures Valid() && Advances(old(View()), View()) && (r.Ok? ==> r.value == record && Holds(View(), q, record))
      ensures Step(World(View(), storage.View()), r) == ObserveRecord(World(old(View()), old(storage.View())), token, q, record, s)
    {
      hide WellFormed, Advances, Holds, AdvanceTime, ApplyObservation;
      ghost var w := World(View(), storage.View());
      ObserveRecordAdvances(w, token, q, record, s);
      IsWellFormed(View(), ObserveRecord(w, token, q, record, s).world.memory);
      ObservationHolds(w, token, q, record, s);
      if !s.held {
        return Err(LeaseLost);
      }
      if q.now < time {
        return Err(ClockRollback);
      }
      var advanced := AdvanceTrustedTime(storage, token, q.now, s.advanceHeld, s.time1, s.time2);
      if advanced.Err? {
        return Err(advanced.error);
      }
      if q.network != network {
        return Err(NetworkMismatch);
      }
      if !q.keyValid {
        return Err(InvalidKey);
      }
      if !HasRoom(Snapshot(), q.scope) {
        return Err(Capacity);
      }
      if !Usable(record, q.scope) {
        return Err(Unverified);
      }
      r := Observe(storage, token, Some(record), q.scope, RecordClaims(record), q.now, s.observeHeld, s.observe1, s.observe2);
    }

    /** The awaited form of a single observation: the same loop, with the same bound on its hand-offs. */
    method ObserveCurrentAsync(storage: Storage<Image>, token: nat, q: Request, record: Candidate, s: Script)
      returns (r: Result<Candidate, Error>, handOffs: nat)
      requires LeaseHeld(s) && Valid()
      modifies this, storage
      ensures handOffs <= 1
      ensures Valid() && Advances(old(View()), View()) && (r.Ok? ==> r.value == record && Holds(View(), q, record))
      ensures Step(World(View(), storage.View()), r) == ObserveRecord(World(old(View()), old(storage.View())), token, q, record, s)
    {
      hide ObserveRecord, SelectAndObserve, WellFormed, Advances, Holds;
      handOffs := 0;
      ghost var start := World(View(), storage.View());
      ghost var one := q.(batch := [record]);
      ObserveRecordIsSelection(start, token, q, record, s);
      ObserveRecordAdvances(start, token, q, record, s);
      IsWellFormed(View(), ObserveRecord(start, token, q, record, s).world.memory);
      ObservationHolds(start, token, q, record, s);
      AdvanceFirst(start, token, one, s);
      var advanced := AdvanceAsync(storage, token, q.now, s.time1, s.time2);
      AdvanceTimeAsyncMatches(start, token, q.now, s.time1, s.time2);
      if advanced.Err? {
        return Err(advanced.error), 0;
      }
      ghost var w := World(View(), storage.View());
      AdvanceSettles(start, token, q.now, true, s.time1, s.time2);
      ImageOk(View());
      QuietSelect(w, token, one, s);
      while true
        invariant LoopState(World(View(), storage.View()), one)
        invariant handOffs <= 1 && Valid()
        invariant handOffs == 0 ==> World(View(), storage.View()) == w
        invariant handOffs == 1 ==>
          && SelectAndObserve(World(View(), storage.View()), token, one, Always(HandOff)) == SelectAndObserve(w, token, one, s)
          && SelectAndObserve(w, token, one, s).result != Err(Persist)
        decreases 1 - handOffs
      {
        ObserveRecordIsSelection(World(View(), storage.View()), token, q, record, Always(HandOff));
        var round := ObserveCurrent(storage, token, q, record, Always(HandOff));
        if round != Err(Persist) {
          if handOffs == 0 {
            RoundWithoutHandOff(w, token, one, s);
          }
          return round, handOffs;
        }
        SyncFromRound(w, token, one, s);
        var flushed := FlushPending(storage, token, s.observe2);
        if flushed.Err? {
          return Err(flushed.error), 1;
        }
        RoundAfterHandOff(w, token, one, s);
        handOffs := 1;
      }
    }

    method AdvanceAsync(storage: Storage<Image>, token: nat, now: nat, first: Attempt, second: Attempt) returns (r: Result<(), Error>)
      requires Valid()
      modifies this, storage
      ensures Valid()
      ensures Step(World(View(), storage.View()), r) == AdvanceTimeAsync(World(old(View()), old(storage.View())), token, now, first, second)
    {
      if now < time {
        return Err(ClockRollback);
      }
      r := FlushPending(storage, token, first);
      if r.Err? || now == time {
        return;
      }
      r := AdvanceTrustedTime(storage, token, now, true, HandOff, HandOff);
      if r == Err(Persist) {
        r := FlushPending(storage, token, second);
      }
    }
  }

  /** The records of a batch that belong to the scope and verify, in order. */
  method CollectUsable(batch: seq<Candidate>, scope: Scope) returns (valid: seq<Candidate>)
    ensures valid == Usables(batch, scope)
  {
    valid := [];
    for i := 0 to |batch|
      invariant valid == Usables(batch[..i], scope)
    {
      assert batch[..i + 1][..i] == batch[..i];
      if batch[i].routeKey == scope.routeKey && batch[i].endpointKey == scope.endpointKey && batch[i].verified {
        valid := valid + [batch[i]];
      }
    }
    assert batch[..|batch|] == batch;
  }

  /** The stateless batch selector. */
  method SelectUncommitted(scope: Scope, keyValid: bool, batch: seq<Candidate>) returns (r: Result<Candidate, Error>)
    ensures r == SelectStateless(scope, keyValid, batch)
    ensures r.Ok? ==> r.value in batch && Usable(r.value, scope) && forall d :: d in batch && Usable(d, scope) ==> AtLeast(r.value, d)
  {
    if |batch| > MAX_RECORDS_PER_KEY {
      return Err(TooLarge);
    }
    if !keyValid {
      return Err(InvalidKey);
    }
    var valid := CollectUsable(batch, scope);
    if valid == [] {
      return Err(NoRoute);
    }
    SelectedIsGreatest(valid);
    var claims := BatchClaims(valid);
    if claims.endpoint.force || claims.route.force {
      return Err(ConflictingSequence);
    }
    var first := FirstRealising(valid, claims);
    return if first.None? then Err(StaleSequence) else Ok(first.value);
  }
}
