/**
  The durable requester replay state and the compare-and-swap register that backs it.

  A requester keeps one aggregate: for every scope the greatest endpoint-delegation and route sequences it has
  accepted. It may hold one transition that storage has not acknowledged. Every operation is given here as a
  function from the memory and the register to the new memory, the new register and a result; what the
  environment decides (whether the lease still holds at each check, what happens to each write) is a parameter.
 */
module Requester {
  import opened Common
  import opened CasRegisters
  import opened Replay

  const MAX_RECORDS_PER_KEY: nat := 16
  const MAX_STORED_RECORDS: nat := 50_000

  // ---- values ----

  datatype Observation = Observation(endpoint: Counter, route: Counter)
  {
    predicate Valid() { endpoint.Valid() && route.Valid() }
  }

  /** A service (name, service name, profile and resource), its route key, and an endpoint key. */
  datatype Scope = Scope(service: nat, routeKey: nat, endpointKey: nat)

  /** A whole-aggregate snapshot. */
  datatype Image = Image(network: nat, capacity: nat, revision: nat, time: nat, entries: map<Scope, Observation>)

  ghost predicate ValidImage(i: Image) {
    forall s :: s in i.entries ==> i.entries[s].Valid()
  }

  datatype Memory = Memory(image: Image, pending: Option<Expectation<Image>>)

  datatype World = World(memory: Memory, register: Register<Image>)

  datatype Error =
    | LeaseLost | ClockRollback | RevisionExhausted | Persist | Capacity | NetworkMismatch | InvalidKey | TooLarge
    | NoRoute | Unverified | ConflictingSequence | StaleSequence | Missing | DurableMismatch | Incompatible | Unbound | BadConfiguration

  datatype Step<+T> = Step(world: World, result: Result<T, Error>)

  // ---- the environment ----

  /** One flush: whether the lease holds before and after the write, and the fate of the write. */
  datatype Attempt = Attempt(before: bool, fault: Fault, after: bool)

  const Good: Attempt := Attempt(true, Healthy, true)

  /** The persistence callback of the async loop: it only hands the transition over, and reports failure. */
  const HandOff: Attempt := Attempt(true, FailsBefore, true)

  // ---- construction ----

  function Create(network: nat, capacity: nat, now: nat): Result<Memory, Error> {
    if capacity == 0 || capacity > MAX_STORED_RECORDS then Err(BadConfiguration)
    else Ok(Memory(Image(network, capacity, 0, now, map[]), Some(Absent)))
  }

  /** The next revision; the greatest 64-bit value is never used. */
  function NextRevision(i: Image): Result<nat, Error> {
    if i.revision + 1 >= U64_MAX then Err(RevisionExhausted) else Ok(i.revision + 1)
  }

  /** Move trusted time forward and leave the transition pending. */
  function PrepareTime(i: Image, now: nat): Result<Memory, Error> {
    var next := NextRevision(i);
    if next.Err? then Err(next.error)
    else Ok(Memory(i.(time := now, revision := next.value), Some(Prior(i))))
  }

  function Restore(network: nat, capacity: nat, snapshot: Image, minimumRevision: nat, now: nat): Result<Memory, Error> {
    if snapshot.network != network || snapshot.capacity != capacity || snapshot.revision < minimumRevision then
      Err(Incompatible)
    else if now < snapshot.time then Err(ClockRollback)
    else if now > snapshot.time then PrepareTime(snapshot, now)
    else Ok(Memory(snapshot, None))
  }

  // ---- reconciliation with what storage holds ----

  function Reconcile(m: Memory, loaded: Option<Image>, minimumRevision: nat): Result<Memory, Error> {
    match loaded
    case None =>
      if m.pending == Some(Absent) then Ok(m) else Err(DurableMismatch)
    case Some(durable) =>
      if durable.network != m.image.network || durable.capacity != m.image.capacity then Err(Incompatible)
      else if durable.revision < minimumRevision then Err(Incompatible)
      else if durable == m.image then Ok(m.(pending := None))
      else if m.pending == Some(Prior(durable)) then Ok(m)
      else Err(DurableMismatch)
  }

  /**
    Reconciliation succeeds exactly on storage that is absent as expected, or that holds, at or above the floor and
    under the same network and capacity, our image or the one our pending write expects. It changes no image.
   */
  lemma ReconcileIff(m: Memory, loaded: Option<Image>, minimumRevision: nat)
    ensures var r := Reconcile(m, loaded, minimumRevision);
            && (r.Ok? <==> match loaded
                           case None => m.pending == Some(Absent)
                           case Some(i) =>
                             && minimumRevision <= i.revision && i.network == m.image.network && i.capacity == m.image.capacity
                             && (i == m.image || m.pending == Some(Prior(i))))
            && (r.Ok? ==> r.value.image == m.image && (if loaded == Some(m.image) then r.value.pending == None else r.value.pending == m.pending))
  {
  }

  /** A snapshot is restored only at or above the floor, for the same network and capacity, and never into the past. */
  lemma RestoreIff(network: nat, capacity: nat, snapshot: Image, minimumRevision: nat, now: nat)
    ensures var r := Restore(network, capacity, snapshot, minimumRevision, now);
            && (r.Ok? <==>
                  && minimumRevision <= snapshot.revision && snapshot.network == network && snapshot.capacity == capacity && snapshot.time <= now
                  && (snapshot.time < now ==> snapshot.revision + 1 < U64_MAX))
            && (r.Ok? ==>
                  && r.value.image.time == now && r.value.image.entries == snapshot.entries && minimumRevision <= r.value.image.revision
                  && r.value.pending == if snapshot.time < now then Some(Prior(snapshot)) else None)
  {
  }

  // ---- flushing and time ----

  function Flush(w: World, token: nat, a: Attempt): Step<()> {
    if !a.before then Step(w, Err(LeaseLost))
    else if w.memory.pending.None? then Step(w, Ok(()))
    else
      var landed := Cas(w.register, token, w.memory.pending.value, w.memory.image);
      if landed.None? || a.fault.FailsBefore? then Step(w, Err(Persist))
      else if a.fault.CommitsButFails? then Step(w.(register := landed.value), Err(Persist))
      else if !a.after then Step(w.(register := landed.value), Err(LeaseLost))
      else Step(World(w.memory.(pending := None), landed.value), Ok(()))
  }

  /** The write of a flush reaches storage that accepts it. */
  predicate Lands(w: World, token: nat, a: Attempt)
    requires w.memory.pending.Some?
  {
    && token == w.register.fence && !a.fault.FailsBefore?
    && (w.register.durable == Some(w.memory.image) || w.register.durable == Expected(w.memory.pending.value))
  }

  /**
    A flush succeeds exactly when the lease holds before it and, if something is pending, the write lands, says so, and
    the lease still holds afterwards. Only then is the transition settled; and storage moves exactly when the write lands.
   */
  lemma FlushIff(w: World, token: nat, a: Attempt)
    ensures var f := Flush(w, token, a);
            && (f.result.Ok? <==> a.before && (w.memory.pending.Some? ==> Lands(w, token, a) && a.fault.Healthy? && a.after))
            && f.world.memory == (if f.result.Ok? then w.memory.(pending := None) else w.memory)
            && f.world.register == (if a.before && w.memory.pending.Some? && Lands(w, token, a) then w.register.(durable := Some(w.memory.image)) else w.register)
            && (f.result == Err(LeaseLost) <==> !a.before || (w.memory.pending.Some? && Lands(w, token, a) && a.fault.Healthy? && !a.after))
  {
  }

  function AdvanceTime(w: World, token: nat, now: nat, held: bool, first: Attempt, second: Attempt): Step<()> {
    if !held then Step(w, Err(LeaseLost))
    else if now < w.memory.image.time then Step(w, Err(ClockRollback))
    else
      var f := Flush(w, token, first);
      if f.result.Err? then f
      else if now == w.memory.image.time then f
      else
        var next := PrepareTime(f.world.memory.image, now);
        if next.Err? then Step(f.world, Err(next.error))
        else Flush(f.world.(memory := next.value), token, second)
  }

  // ---- observation ----

  /** Both dimensions of what is being observed. */
  datatype Claims = Claims(endpoint: Claim, route: Claim)

  function SameRouteKey(i: Image, routeKey: nat): set<Scope> {
    set s | s in i.entries && s.routeKey == routeKey
  }

  predicate HasRoom(i: Image, scope: Scope) {
    scope in i.entries || (|i.entries| < i.capacity && |SameRouteKey(i, scope.routeKey)| < MAX_RECORDS_PER_KEY)
  }

  function Entry(i: Image, scope: Scope): Option<Observation> {
    if scope in i.entries then Some(i.entries[scope]) else None
  }

  function EndpointOf(o: Option<Observation>): Option<Counter> {
    if o.None? then None else Some(o.value.endpoint)
  }

  function RouteOf(o: Option<Observation>): Option<Counter> {
    if o.None? then None else Some(o.value.route)
  }

  /** The entry after classification, as the code writes it. */
  function NextEntry(was: Option<Observation>, c: Claims): Observation {
    var e := Classify(EndpointOf(was), c.endpoint);
    var r := Classify(RouteOf(was), c.route);
    if was.Some? then
      Observation(ApplyEndpoint(was.value.endpoint, e, c.endpoint), ApplyRoute(was.value.route, r, c.route))
    else Observation(Fresh(e, c.endpoint), Fresh(r, c.route))
  }

  predicate ObservationChanges(was: Option<Observation>, c: Claims) {
    Classify(EndpointOf(was), c.endpoint).Changes() || Classify(RouteOf(was), c.route).Changes()
  }

  predicate Processed(was: Option<Observation>, c: Claims) {
    var e := Classify(EndpointOf(was), c.endpoint);
    var r := Classify(RouteOf(was), c.route);
    ObservationChanges(was, c) || e.IsConflict() || r.IsConflict() || (e.Exact? && r.Exact?)
  }

  predicate Writes(i: Image, scope: Scope, c: Claims, now: nat) {
    var was := Entry(i, scope);
    ObservationChanges(was, c) || (Processed(was, c) && now > i.time)
  }

  function PrepareObservation(i: Image, scope: Scope, c: Claims, now: nat): Result<Memory, Error> {
    var was := Entry(i, scope);
    if !HasRoom(i, scope) then Err(Capacity)
    else
      var next := NextRevision(i);
      if next.Err? then Err(next.error)
      else
        var time := if Processed(was, c) && now > i.time then now else i.time;
        Ok(Memory(i.(entries := i.entries[scope := NextEntry(was, c)], time := time, revision := next.value), Some(Prior(i))))
  }

  /** The verdict read off the entry once nothing is pending. */
  function Verdict<T>(i: Image, scope: Scope, c: Claims, selected: Option<T>): Result<T, Error> {
    if scope !in i.entries then Err(Missing)
    else
      var o := i.entries[scope];
      if o.endpoint.conflicted || o.route.conflicted then Err(ConflictingSequence)
      else if o == Observation(Counter(c.endpoint.sequence, false, c.endpoint.id), Counter(c.route.sequence, false, c.route.id)) then
        (if selected.None? then Err(StaleSequence) else Ok(selected.value))
      else Err(StaleSequence)
  }

  function ApplyObservation<T>(
    w: World, token: nat, selected: Option<T>, scope: Scope, c: Claims, now: nat,
    held: bool, first: Attempt, second: Attempt): Step<T>
  {
    if !held then Step(w, Err(LeaseLost))
    else
      var f := Flush(w, token, first);
      if f.result.Err? then Step(f.world, Err(f.result.error))
      else if !Writes(f.world.memory.image, scope, c, now) then
        Step(f.world, Verdict(f.world.memory.image, scope, c, selected))
      else
        var next := PrepareObservation(f.world.memory.image, scope, c, now);
        if next.Err? then Step(f.world, Err(next.error))
        else
          var g := Flush(f.world.(memory := next.value), token, second);
          if g.result.Err? then Step(g.world, Err(g.result.error))
          else Step(g.world, Verdict(g.world.memory.image, scope, c, selected))
  }

  // ---- batches ----

  /** A returned record. Two records with the same canonical hash are the same record. */
  datatype Candidate = Candidate(
    routeKey: nat, endpointKey: nat, endpointSequence: nat, endpointId: Id, routeSequence: nat, canonical: Id, verified: bool)

  predicate Usable(c: Candidate, scope: Scope) {
    c.routeKey == scope.routeKey && c.endpointKey == scope.endpointKey && c.verified
  }

  function Usables(batch: seq<Candidate>, scope: Scope): (r: seq<Candidate>)
    ensures forall c :: c in r <==> c in batch && Usable(c, scope)
  {
    if batch == [] then []
    else
      var rest := Usables(batch[..|batch| - 1], scope);
      assert batch == batch[..|batch| - 1] + [batch[|batch| - 1]];
      if Usable(batch[|batch| - 1], scope) then rest + [batch[|batch| - 1]] else rest
  }

  function EndpointSeen(c: Candidate): Seen { Seen(c.endpointSequence, c.endpointId) }

  function RouteSeen(c: Candidate): Seen { Seen(c.routeSequence, c.canonical) }

  function Endpoints(xs: seq<Candidate>): seq<Seen> {
    seq(|xs|, i requires 0 <= i < |xs| => EndpointSeen(xs[i]))
  }

  function Routes(xs: seq<Candidate>): seq<Seen> {
    seq(|xs|, i requires 0 <= i < |xs| => RouteSeen(xs[i]))
  }

  function RecordClaims(c: Candidate): Claims {
    Claims(Single(EndpointSeen(c)), Single(RouteSeen(c)))
  }

  function BatchClaims(valid: seq<Candidate>): Claims
    requires valid != []
  {
    Claims(Reduce(Endpoints(valid)), Reduce(Routes(valid)))
  }

  predicate Realises(c: Candidate, k: Claims) {
    EndpointSeen(c) == Seen(k.endpoint.sequence, k.endpoint.id) && RouteSeen(c) == Seen(k.route.sequence, k.route.id)
  }

  /** The first record that realises both maxima. */
  function FirstRealising(xs: seq<Candidate>, k: Claims): (r: Option<Candidate>)
    ensures r.Some? ==> r.value in xs && Realises(r.value, k)
    ensures r.None? ==> forall c :: c in xs ==> !Realises(c, k)
  {
    if xs == [] then None
    else if Realises(xs[0], k) then Some(xs[0])
    else FirstRealising(xs[1..], k)
  }

  function Selected(valid: seq<Candidate>): Option<Candidate>
    requires valid != []
  {
    var k := BatchClaims(valid);
    if k.endpoint.force || k.route.force then None else FirstRealising(valid, k)
  }

  /** The fate of everything one selection depends on. */
  datatype Script = Script(held: bool, advanceHeld: bool, time1: Attempt, time2: Attempt, observeHeld: bool, observe1: Attempt, observe2: Attempt)

  function Always(a: Attempt): Script {
    Script(true, true, a, a, true, a, a)
  }

  /** A selection request: the service's network, whether the endpoint key is a valid point, and the batch. */
  datatype Request = Request(network: nat, scope: Scope, keyValid: bool, batch: seq<Candidate>, now: nat)

  function SelectAndObserve(w: World, token: nat, q: Request, s: Script): Step<Candidate> {
    if !s.held then Step(w, Err(LeaseLost))
    else if q.now < w.memory.image.time then Step(w, Err(ClockRollback))
    else
      var a := AdvanceTime(w, token, q.now, s.advanceHeld, s.time1, s.time2);
      if a.result.Err? then Step(a.world, Err(a.result.error))
      else SelectSettled(a.world, token, q, s)
  }

  /** The rest of a selection, once time has been advanced. */
  function SelectSettled(w: World, token: nat, q: Request, s: Script): Step<Candidate> {
    if q.network != w.memory.image.network then Step(w, Err(NetworkMismatch))
    else if !q.keyValid then Step(w, Err(InvalidKey))
    else if !HasRoom(w.memory.image, q.scope) then Step(w, Err(Capacity))
    else if |q.batch| > MAX_RECORDS_PER_KEY then Step(w, Err(TooLarge))
    else
      var valid := Usables(q.batch, q.scope);
      if valid == [] then Step(w, Err(NoRoute))
      else ApplyObservation(w, token, Selected(valid), q.scope, BatchClaims(valid), q.now, s.observeHeld, s.observe1, s.observe2)
  }

  /** Observing one record of the request's scope; the request's batch plays no part. */
  function ObserveRecord(w: World, token: nat, q: Request, record: Candidate, s: Script): Step<Candidate> {
    if !s.held then Step(w, Err(LeaseLost))
    else if q.now < w.memory.image.time then Step(w, Err(ClockRollback))
    else
      var a := AdvanceTime(w, token, q.now, s.advanceHeld, s.time1, s.time2);
      if a.result.Err? then Step(a.world, Err(a.result.error))
      else if q.network != a.world.memory.image.network then Step(a.world, Err(NetworkMismatch))
      else if !q.keyValid then Step(a.world, Err(InvalidKey))
      else if !HasRoom(a.world.memory.image, q.scope) then Step(a.world, Err(Capacity))
      else if !Usable(record, q.scope) then Step(a.world, Err(Unverified))
      else ApplyObservation(a.world, token, Some(record), q.scope, RecordClaims(record), q.now, s.observeHeld, s.observe1, s.observe2)
  }

  /** The last gate before a route is handed out. */
  function Bind(m: Memory, scope: Scope, c: Candidate, held: bool, bound: bool): Result<Observation, Error> {
    if !held then Err(LeaseLost)
    else if m.pending.Some? || !bound then Err(Unbound)
    else if scope !in m.image.entries then Err(Missing)
    else if m.image.entries[scope] != Exactly(c) then Err(Unbound)
    else Ok(m.image.entries[scope])
  }

  /** A route is handed out exactly while the lease holds, nothing is pending, and the entry is exactly this record. */
  lemma BindIff(m: Memory, scope: Scope, c: Candidate, held: bool, bound: bool)
    ensures Bind(m, scope, c, held, bound).Ok? <==>
              && held && bound && m.pending.None? && scope in m.image.entries
              && m.image.entries[scope].endpoint == Counter(c.endpointSequence, false, c.endpointId)
              && m.image.entries[scope].route == Counter(c.routeSequence, false, c.canonical)
  {
  }

  /** The observation that a record is exactly the current one in both dimensions. */
  function Exactly(c: Candidate): Observation {
    Observation(Counter(c.endpointSequence, false, c.endpointId), Counter(c.routeSequence, false, c.canonical))
  }

  // ---- what an image never loses ----

  ghost predicate ObservationLeq(a: Observation, b: Observation) {
    Leq(a.endpoint, b.endpoint) && Leq(a.route, b.route)
  }

  /** `b` has everything `a` had, at least as far advanced. */
  ghost predicate Dominates(b: Image, a: Image) {
    && a.time <= b.time
    && a.revision <= b.revision
    && forall s :: s in a.entries ==> s in b.entries && ObservationLeq(a.entries[s], b.entries[s])
  }

  lemma DominatesTransitive(a: Image, b: Image, c: Image)
    requires ValidImage(a) && ValidImage(b) && ValidImage(c)
    requires Dominates(b, a) && Dominates(c, b)
    ensures Dominates(c, a)
  {
    forall s | s in a.entries ensures s in c.entries && ObservationLeq(a.entries[s], c.entries[s]) {
      assert s in b.entries;
      LeqTransitive(a.entries[s].endpoint, b.entries[s].endpoint, c.entries[s].endpoint);
      LeqTransitive(a.entries[s].route, b.entries[s].route, c.entries[s].route);
    }
  }

  /** The entry written is the old one joined with the claim, in each dimension. */
  lemma NextEntryIsObserve(was: Option<Observation>, c: Claims)
    requires was.Some? ==> was.value.Valid()
    ensures NextEntry(was, c) == Observation(Observe(EndpointOf(was), c.endpoint), Observe(RouteOf(was), c.route))
    ensures NextEntry(was, c).Valid()
    ensures was.Some? ==> ObservationLeq(was.value, NextEntry(was, c))
    ensures was.Some? ==> (ObservationChanges(was, c) <==> NextEntry(was, c) != was.value)
    ensures was.None? ==> ObservationChanges(was, c)
    ensures !ObservationChanges(Some(NextEntry(was, c)), c)
  {
    ObserveIsJoin(EndpointOf(was), c.endpoint);
    ObserveIsJoin(RouteOf(was), c.route);
    if was.Some? {
      RouteObservesAlike(was.value.route, c.route);
      ObserveChanges(was.value.endpoint, c.endpoint);
      ObserveChanges(was.value.route, c.route);
    }
  }

  // ---- capacity ----

  ghost predicate WithinCapacity(i: Image) {
    |i.entries| <= i.capacity && forall k :: |SameRouteKey(i, k)| <= MAX_RECORDS_PER_KEY
  }

  /** What a snapshot's decoder demands of its counts, its revision and its tombstones. */
  ghost predicate Loadable(i: Image) {
    ValidImage(i) && WithinCapacity(i) && 0 < i.capacity <= MAX_STORED_RECORDS && |i.entries| <= i.revision < U64_MAX
  }

  lemma CapacityKept(i: Image, scope: Scope, c: Claims, now: nat)
    requires WithinCapacity(i) && PrepareObservation(i, scope, c, now).Ok?
    ensures WithinCapacity(PrepareObservation(i, scope, c, now).value.image)
  {
    var n := PrepareObservation(i, scope, c, now).value.image;
    if scope in i.entries {
      assert n.entries.Keys == i.entries.Keys;
      assert |n.entries| == |n.entries.Keys| == |i.entries|;
    } else {
      assert n.entries.Keys == i.entries.Keys + {scope};
      assert |n.entries| == |n.entries.Keys| == |i.entries| + 1;
    }
    forall k ensures |SameRouteKey(n, k)| <= MAX_RECORDS_PER_KEY {
      if scope in i.entries || k != scope.routeKey {
        assert SameRouteKey(n, k) == SameRouteKey(i, k);
      } else {
        assert SameRouteKey(n, k) == SameRouteKey(i, k) + {scope};
      }
    }
  }

  // ---- transitions ----

  /** Both preparations write one pending transition whose proposal dominates, and strictly follows, its prior. */
  ghost predicate Follows(m: Memory, i: Image) {
    && m.pending == Some(Prior(i))
    && m.image.network == i.network && m.image.capacity == i.capacity
    && m.image.revision == i.revision + 1 < U64_MAX
    && (ValidImage(i) ==> ValidImage(m.image) && Dominates(m.image, i))
    && (Loadable(i) ==> Loadable(m.image))
  }

  lemma PrepareTimeFollows(i: Image, now: nat)
    requires now >= i.time && PrepareTime(i, now).Ok?
    ensures Follows(PrepareTime(i, now).value, i)
  {
    var n := PrepareTime(i, now).value.image;
    assert forall k :: SameRouteKey(n, k) == SameRouteKey(i, k);
  }

  lemma PrepareObservationFollows(i: Image, scope: Scope, c: Claims, now: nat)
    requires PrepareObservation(i, scope, c, now).Ok?
    ensures Follows(PrepareObservation(i, scope, c, now).value, i)
  {
    if ValidImage(i) {
      NextEntryIsObserve(Entry(i, scope), c);
    }
    if WithinCapacity(i) {
      CapacityKept(i, scope, c, now);
      EntriesGrow(i, scope, NextEntry(Entry(i, scope), c));
    }
  }

  lemma EntriesGrow(i: Image, scope: Scope, o: Observation)
    ensures |i.entries[scope := o]| <= |i.entries| + 1
  {
    assert |i.entries[scope := o].Keys| == |i.entries[scope := o]| && |i.entries.Keys| == |i.entries|;
    assert i.entries[scope := o].Keys == i.entries.Keys + {scope};
  }

  /** What a memory guarantees on its own: a loadable image, and a pending write that goes beyond what it expects. */
  ghost predicate WellFormed(m: Memory) {
    && Loadable(m.image)
    && match m.pending
       case None => true
       case Some(Absent) => m.image.entries == map[]
       case Some(Prior(p)) => ValidImage(p) && Dominates(m.image, p) && p.revision < m.image.revision
  }

  /** What an operation may do to a memory: it stays well-formed and nothing it recorded goes back. */
  ghost predicate Advances(m: Memory, n: Memory) {
    WellFormed(n) && Dominates(n.image, m.image)
  }

  lemma IsWellFormed(m: Memory, n: Memory)
    requires Advances(m, n)
    ensures WellFormed(n)
  {
  }

  lemma AdvancesTransitive(l: Memory, m: Memory, n: Memory)
    requires WellFormed(l) && Advances(l, m) && Advances(m, n)
    ensures Advances(l, n)
  {
    DominatesTransitive(l.image, m.image, n.image);
  }

  lemma StaysPut(m: Memory)
    requires WellFormed(m)
    ensures Advances(m, m) && Advances(m, m.(pending := None))
  {
  }

  lemma FlushAdvances(w: World, token: nat, a: Attempt)
    requires WellFormed(w.memory)
    ensures Advances(w.memory, Flush(w, token, a).world.memory)
  {
    StaysPut(w.memory);
  }

  lemma PreparedAdvances(m: Memory, n: Memory)
    requires WellFormed(m) && Follows(n, m.image)
    ensures Advances(m, n)
  {
  }

  lemma AdvanceTimeAdvances(w: World, token: nat, now: nat, held: bool, first: Attempt, second: Attempt)
    requires WellFormed(w.memory)
    ensures Advances(w.memory, AdvanceTime(w, token, now, held, first, second).world.memory)
  {
    hide Advances, WellFormed, Flush;
    StaysPut(w.memory);
    FlushAdvances(w, token, first);
    var f := Flush(w, token, first);
    var next := PrepareTime(f.world.memory.image, now);
    if held && now > w.memory.image.time && f.result.Ok? && next.Ok? {
      FlushKeepsImage(w, token, first);
      PrepareTimeFollows(f.world.memory.image, now);
      StepAdvances(w.memory, f.world, next.value, token, second);
    }
  }

  lemma FlushKeepsImage(w: World, token: nat, a: Attempt)
    ensures Flush(w, token, a).world.memory.image == w.memory.image
  {
  }

  /** A preparation and its flush. */
  lemma StepAdvances(l: Memory, w: World, n: Memory, token: nat, a: Attempt)
    requires WellFormed(l) && Advances(l, w.memory) && Follows(n, w.memory.image)
    ensures Advances(l, Flush(w.(memory := n), token, a).world.memory)
  {
    hide Flush, Follows;
    assert WellFormed(w.memory);
    PreparedAdvances(w.memory, n);
    FlushAdvances(w.(memory := n), token, a);
    AdvancesTransitive(l, w.memory, n);
    AdvancesTransitive(l, n, Flush(w.(memory := n), token, a).world.memory);
  }

  lemma ObservationAdvances<T>(
    w: World, token: nat, selected: Option<T>, scope: Scope, c: Claims, now: nat, held: bool, first: Attempt, second: Attempt)
    requires WellFormed(w.memory)
    ensures Advances(w.memory, ApplyObservation(w, token, selected, scope, c, now, held, first, second).world.memory)
  {
    hide Advances, WellFormed, Flush, PrepareObservation;
    StaysPut(w.memory);
    FlushAdvances(w, token, first);
    var f := Flush(w, token, first);
    var next := PrepareObservation(f.world.memory.image, scope, c, now);
    if held && f.result.Ok? && next.Ok? {
      PrepareObservationFollows(f.world.memory.image, scope, c, now);
      StepAdvances(w.memory, f.world, next.value, token, second);
    }
  }

  /** A selection, and an observation of one record, whatever their outcome. */
  lemma SelectionAdvances(w: World, token: nat, q: Request, s: Script)
    requires WellFormed(w.memory)
    ensures Advances(w.memory, SelectAndObserve(w, token, q, s).world.memory)
  {
    hide Advances, WellFormed, AdvanceTime, ApplyObservation;
    StaysPut(w.memory);
    AdvanceTimeAdvances(w, token, q.now, s.advanceHeld, s.time1, s.time2);
    var a := AdvanceTime(w, token, q.now, s.advanceHeld, s.time1, s.time2);
    var valid := Usables(q.batch, q.scope);
    assert WellFormed(a.world.memory) by { IsWellFormed(w.memory, a.world.memory); }
    if valid != [] {
      ObservationAdvances(a.world, token, Selected(valid), q.scope, BatchClaims(valid), q.now, s.observeHeld, s.observe1, s.observe2);
      var o := ApplyObservation(a.world, token, Selected(valid), q.scope, BatchClaims(valid), q.now, s.observeHeld, s.observe1, s.observe2);
      AdvancesTransitive(w.memory, a.world.memory, o.world.memory);
    }
  }
}
