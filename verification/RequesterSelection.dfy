/**
  What a selection means: which record it may return, why reducing a batch loses nothing, how it compares with the
  stateless selector, and what re-running it does.
 */
module RequesterSelection {
  import opened CasRegisters
  import opened Common
  import opened Replay
  import opened Requester

  // ---- flushing and time under any environment ----

  /** An operation that succeeds leaves nothing pending and the image it was flushing. */
  lemma FlushSettles(w: World, token: nat, a: Attempt)
    ensures var f := Flush(w, token, a);
            && f.world.memory.image == w.memory.image
            && (f.result.Ok? ==> f.world.memory.pending.None?)
  {
  }

  lemma AdvanceSettles(w: World, token: nat, now: nat, held: bool, first: Attempt, second: Attempt)
    requires AdvanceTime(w, token, now, held, first, second).result.Ok?
    ensures var i := AdvanceTime(w, token, now, held, first, second).world.memory.image;
            && AdvanceTime(w, token, now, held, first, second).world.memory.pending.None?
            && i.time == now && i.entries == w.memory.image.entries && i.network == w.memory.image.network && i.capacity == w.memory.image.capacity
            && i.revision == (if now == w.memory.image.time then w.memory.image.revision else w.memory.image.revision + 1)
  {
  }

  /** Once time is advanced, an observation writes exactly when it changes the entry. */
  lemma WritesIffChanges(i: Image, scope: Scope, c: Claims)
    ensures Writes(i, scope, c, i.time) <==> ObservationChanges(Entry(i, scope), c)
  {
  }

  // ---- what a successful selection returns ----

  lemma VerdictOk<T>(i: Image, scope: Scope, c: Claims, selected: Option<T>)
    requires Verdict(i, scope, c, selected).Ok?
    ensures scope in i.entries && selected == Some(Verdict(i, scope, c, selected).value)
    ensures i.entries[scope] == Observation(Counter(c.endpoint.sequence, false, c.endpoint.id), Counter(c.route.sequence, false, c.route.id))
  {
  }

  lemma ObserveOk<T>(w: World, token: nat, selected: Option<T>, scope: Scope, c: Claims, now: nat, held: bool, first: Attempt, second: Attempt)
    requires ApplyObservation(w, token, selected, scope, c, now, held, first, second).result.Ok?
    requires now == w.memory.image.time
    ensures var o := ApplyObservation(w, token, selected, scope, c, now, held, first, second);
            && o.world.memory.pending.None? && o.world.memory.image.time == now
            && Verdict(o.world.memory.image, scope, c, selected) == o.result
  {
    FlushSettles(w, token, first);
    var f := Flush(w, token, first);
    if Writes(f.world.memory.image, scope, c, now) {
      var next := PrepareObservation(f.world.memory.image, scope, c, now);
      FlushSettles(f.world.(memory := next.value), token, second);
    }
  }

  lemma {:induction false} SeenAll(xs: seq<Candidate>)
    ensures forall c :: c in xs ==> EndpointSeen(c) in Endpoints(xs) && RouteSeen(c) in Routes(xs)
    ensures forall e :: e in Endpoints(xs) ==> exists c :: c in xs && EndpointSeen(c) == e
    ensures forall r :: r in Routes(xs) ==> exists c :: c in xs && RouteSeen(c) == r
  {
    forall c | c in xs ensures EndpointSeen(c) in Endpoints(xs) && RouteSeen(c) in Routes(xs) {
      var i :| 0 <= i < |xs| && xs[i] == c;
      assert Endpoints(xs)[i] == EndpointSeen(c) && Routes(xs)[i] == RouteSeen(c);
    }
    forall e | e in Endpoints(xs) ensures exists c :: c in xs && EndpointSeen(c) == e {
      var i :| 0 <= i < |xs| && Endpoints(xs)[i] == e;
      assert xs[i] in xs;
    }
    forall r | r in Routes(xs) ensures exists c :: c in xs && RouteSeen(c) == r {
      var i :| 0 <= i < |xs| && Routes(xs)[i] == r;
      assert xs[i] in xs;
    }
  }

  /** `c` is at least as recent as `d` in both dimensions, and agrees with it wherever they are level. */
  predicate AtLeast(c: Candidate, d: Candidate) {
    && d.endpointSequence <= c.endpointSequence && (d.endpointSequence == c.endpointSequence ==> d.endpointId == c.endpointId)
    && d.routeSequence <= c.routeSequence && (d.routeSequence == c.routeSequence ==> d.canonical == c.canonical)
  }

  ghost predicate AtLeastAll(valid: seq<Candidate>, c: Candidate) {
    forall d :: d in valid ==> AtLeast(c, d)
  }

  lemma SeenOne(xs: seq<Candidate>, c: Candidate)
    requires c in xs
    ensures EndpointSeen(c) in Endpoints(xs) && RouteSeen(c) in Routes(xs)
  {
    var i :| 0 <= i < |xs| && xs[i] == c;
    assert Endpoints(xs)[i] == EndpointSeen(c) && Routes(xs)[i] == RouteSeen(c);
  }

  lemma TopIsAtLeast(valid: seq<Candidate>, c: Candidate)
    requires Top(Endpoints(valid), EndpointSeen(c)) && Top(Routes(valid), RouteSeen(c))
    ensures AtLeastAll(valid, c)
  {
    forall d | d in valid ensures AtLeast(c, d) {
      SeenOne(valid, d);
    }
  }

  lemma AtLeastIsTop(valid: seq<Candidate>, c: Candidate)
    requires AtLeastAll(valid, c)
    ensures Top(Endpoints(valid), EndpointSeen(c)) && Top(Routes(valid), RouteSeen(c))
  {
    forall i: nat | i < |valid| ensures AtLeast(c, valid[i]) {
      assert valid[i] in valid;
    }
  }

  /** A record realises both unequivocal maxima exactly when it is at least as recent as every other. */
  lemma RealisesIsGreatest(valid: seq<Candidate>, c: Candidate)
    requires c in valid
    ensures AtLeastAll(valid, c) <==>
            !BatchClaims(valid).endpoint.force && !BatchClaims(valid).route.force && Realises(c, BatchClaims(valid))
  {
    SeenOne(valid, c);
    ReduceIsTop(Endpoints(valid), EndpointSeen(c));
    ReduceIsTop(Routes(valid), RouteSeen(c));
    if AtLeastAll(valid, c) {
      AtLeastIsTop(valid, c);
    } else if Top(Endpoints(valid), EndpointSeen(c)) && Top(Routes(valid), RouteSeen(c)) {
      TopIsAtLeast(valid, c);
    }
  }

  /** The selection is a record at least as recent as all others; there is none only when no record is. */
  lemma SelectedIsGreatest(valid: seq<Candidate>)
    requires valid != []
    ensures Selected(valid).Some? ==> Selected(valid).value in valid && AtLeastAll(valid, Selected(valid).value)
    ensures Selected(valid).None? ==> forall c :: c in valid ==> !AtLeastAll(valid, c)
  {
    forall c | c in valid
      ensures AtLeastAll(valid, c) <==>
              !BatchClaims(valid).endpoint.force && !BatchClaims(valid).route.force && Realises(c, BatchClaims(valid))
    {
      RealisesIsGreatest(valid, c);
    }
  }

  /**
    Whatever the environment does: a selection that succeeds returns a usable record of the batch that is at least
    as recent as every usable one in both dimensions; nothing is pending, trusted time is exactly `now`, and the
    record passes the final gate.
   */
  lemma SelectionIsCurrent(w: World, token: nat, q: Request, s: Script)
    requires SelectAndObserve(w, token, q, s).result.Ok?
    ensures var r := SelectAndObserve(w, token, q, s);
            var c := r.result.value;
            && c in q.batch && Usable(c, q.scope)
            && (forall d :: d in q.batch && Usable(d, q.scope) ==> AtLeast(c, d))
            && r.world.memory.image.time == q.now
            && Bind(r.world.memory, q.scope, c, true, true) == Ok(Exactly(c))
  {
    var a := AdvanceTime(w, token, q.now, s.advanceHeld, s.time1, s.time2);
    AdvanceSettles(w, token, q.now, s.advanceHeld, s.time1, s.time2);
    var valid := Usables(q.batch, q.scope);
    var k := BatchClaims(valid);
    SelectedIsGreatest(valid);
    ObserveOk(a.world, token, Selected(valid), q.scope, k, q.now, s.observeHeld, s.observe1, s.observe2);
    var r := SelectAndObserve(w, token, q, s);
    VerdictOk(r.world.memory.image, q.scope, k, Selected(valid));
    assert Realises(r.result.value, k);
  }

  // ---- reducing a batch ----

  /** Observing records one after another. */
  function ObserveRecords(current: Option<Observation>, xs: seq<Candidate>): Option<Observation>
    decreases |xs|
  {
    if xs == [] then current else ObserveRecords(Some(NextEntry(current, RecordClaims(xs[0]))), xs[1..])
  }

  lemma {:induction false} ObserveRecordsByDimension(current: Option<Observation>, xs: seq<Candidate>)
    requires current.Some? ==> current.value.Valid()
    ensures EndpointOf(ObserveRecords(current, xs)) == ObserveEach(EndpointOf(current), Endpoints(xs))
    ensures RouteOf(ObserveRecords(current, xs)) == ObserveEach(RouteOf(current), Routes(xs))
    decreases |xs|
  {
    if xs != [] {
      NextEntryIsObserve(current, RecordClaims(xs[0]));
      ObserveRecordsByDimension(Some(NextEntry(current, RecordClaims(xs[0]))), xs[1..]);
      assert Endpoints(xs)[1..] == Endpoints(xs[1..]);
      assert Routes(xs)[1..] == Routes(xs[1..]);
    }
  }

  lemma SameSeen(xs: seq<Candidate>, ys: seq<Candidate>)
    requires forall c :: c in xs <==> c in ys
    ensures forall e :: e in Endpoints(xs) <==> e in Endpoints(ys)
    ensures forall r :: r in Routes(xs) <==> r in Routes(ys)
  {
    SeenAll(xs);
    SeenAll(ys);
  }

  /** A batch reduced to its two maxima leaves what its records would leave one at a time, in any order. */
  lemma BatchObservesLikeRecords(current: Option<Observation>, valid: seq<Candidate>, ys: seq<Candidate>)
    requires valid != [] && (current.Some? ==> current.value.Valid())
    requires forall c :: c in valid <==> c in ys
    ensures ObserveRecords(current, ys) == Some(NextEntry(current, BatchClaims(valid)))
  {
    SameSeen(valid, ys);
    BatchEqualsOneByOne(EndpointOf(current), Endpoints(valid), Endpoints(ys));
    BatchEqualsOneByOne(RouteOf(current), Routes(valid), Routes(ys));
    ObserveRecordsByDimension(current, ys);
    NextEntryIsObserve(current, BatchClaims(valid));
  }

  // ---- a healthy environment ----

  /** Storage is what the memory believes, up to its pending write, and the lease is current. */
  ghost predicate Ready(w: World, token: nat) {
    && token == w.register.fence
    && match w.memory.pending
       case None => w.register.durable == Some(w.memory.image)
       case Some(Absent) => w.register.durable.None? || w.register.durable == Some(w.memory.image)
       case Some(Prior(p)) => w.register.durable == Some(p) || w.register.durable == Some(w.memory.image)
  }

  /** Everything acknowledged: memory and storage are the same image. */
  function Acknowledged(image: Image, fence: nat): World {
    World(Memory(image, None), Register(fence, Some(image)))
  }

  lemma HealthyFlush(w: World, token: nat)
    requires Ready(w, token)
    ensures Flush(w, token, Good) == Step(Acknowledged(w.memory.image, token), Ok(()))
  {
  }

  function Timed(i: Image, now: nat): Image {
    if now == i.time then i else i.(time := now, revision := i.revision + 1)
  }

  lemma HealthyAdvance(w: World, token: nat, now: nat)
    requires Ready(w, token) && w.memory.image.time <= now && w.memory.image.revision + 1 < U64_MAX
    ensures AdvanceTime(w, token, now, true, Good, Good) == Step(Acknowledged(Timed(w.memory.image, now), token), Ok(()))
  {
    HealthyFlush(w, token);
    if now != w.memory.image.time {
      var next := PrepareTime(w.memory.image, now).value;
      HealthyFlush(World(next, Register(token, Some(w.memory.image))), token);
    }
  }

  /** The image after an observation that has room and revisions left. */
  function Observed(i: Image, scope: Scope, c: Claims): Image {
    if ObservationChanges(Entry(i, scope), c)
    then i.(entries := i.entries[scope := NextEntry(Entry(i, scope), c)], revision := i.revision + 1)
    else i
  }

  lemma HealthyObserve<T>(i: Image, token: nat, selected: Option<T>, scope: Scope, c: Claims)
    requires HasRoom(i, scope) && i.revision + 1 < U64_MAX
    ensures ApplyObservation(Acknowledged(i, token), token, selected, scope, c, i.time, true, Good, Good)
            == Step(Acknowledged(Observed(i, scope, c), token), Verdict(Observed(i, scope, c), scope, c, selected))
  {
    HealthyFlush(Acknowledged(i, token), token);
    WritesIffChanges(i, scope, c);
    if ObservationChanges(Entry(i, scope), c) {
      var next := PrepareObservation(i, scope, c, i.time).value;
      HealthyFlush(World(next, Register(token, Some(i))), token);
    }
  }

  lemma ObservedEntry(i: Image, scope: Scope, c: Claims)
    requires ValidImage(i)
    ensures Entry(Observed(i, scope, c), scope) == Some(NextEntry(Entry(i, scope), c))
  {
    NextEntryIsObserve(Entry(i, scope), c);
  }

  ghost predicate Able(w: World, token: nat, q: Request) {
    && Ready(w, token) && w.memory.image.time <= q.now && w.memory.image.revision + 2 < U64_MAX
    && q.network == w.memory.image.network && HasRoom(w.memory.image, q.scope)
  }

  /** A healthy selection in one line. */
  lemma HealthySelect(w: World, token: nat, q: Request)
    requires Able(w, token, q) && q.keyValid && |q.batch| <= MAX_RECORDS_PER_KEY && Usables(q.batch, q.scope) != []
    ensures var valid := Usables(q.batch, q.scope);
            var next := Observed(Timed(w.memory.image, q.now), q.scope, BatchClaims(valid));
            SelectAndObserve(w, token, q, Always(Good)) == Step(Acknowledged(next, token), Verdict(next, q.scope, BatchClaims(valid), Selected(valid)))
  {
    HealthyAdvance(w, token, q.now);
    var i := Timed(w.memory.image, q.now);
    assert SameRouteKey(i, q.scope.routeKey) == SameRouteKey(w.memory.image, q.scope.routeKey);
    var valid := Usables(q.batch, q.scope);
    HealthyObserve(i, token, Selected(valid), q.scope, BatchClaims(valid));
  }

  /** The durable selector leaves exactly the entry its usable records would leave one at a time, in any order. */
  lemma SelectionObservesEveryRecord(w: World, token: nat, q: Request, ys: seq<Candidate>)
    requires Able(w, token, q) && q.keyValid && |q.batch| <= MAX_RECORDS_PER_KEY && Usables(q.batch, q.scope) != []
    requires ValidImage(w.memory.image)
    requires forall c :: c in ys <==> c in q.batch && Usable(c, q.scope)
    ensures var r := SelectAndObserve(w, token, q, Always(Good));
            && Entry(r.world.memory.image, q.scope) == ObserveRecords(Entry(w.memory.image, q.scope), ys)
            && r.world.register.durable == Some(r.world.memory.image)
            && forall s :: s != q.scope ==> Entry(r.world.memory.image, s) == Entry(w.memory.image, s)
  {
    HealthySelect(w, token, q);
    var valid := Usables(q.batch, q.scope);
    ObservedEntry(Timed(w.memory.image, q.now), q.scope, BatchClaims(valid));
    BatchObservesLikeRecords(Entry(w.memory.image, q.scope), valid, ys);
  }

  // ---- the stateless selector ----

  function SelectStateless(scope: Scope, keyValid: bool, batch: seq<Candidate>): Result<Candidate, Error> {
    if |batch| > MAX_RECORDS_PER_KEY then Err(TooLarge)
    else if !keyValid then Err(InvalidKey)
    else
      var valid := Usables(batch, scope);
      if valid == [] then Err(NoRoute)
      else
        var k := BatchClaims(valid);
        if k.endpoint.force then Err(ConflictingSequence)
        else if k.route.force then Err(ConflictingSequence)
        else
          var first := FirstRealising(valid, k);
          if first.None? then Err(StaleSequence) else Ok(first.value)
  }

  /**
    On a scope never seen before, the durable and the stateless selector give the same answer, except that they
    check the key and the batch size in opposite orders.
   */
  lemma DurableMatchesStateless(w: World, token: nat, q: Request)
    requires Able(w, token, q) && q.scope !in w.memory.image.entries
    ensures SelectAndObserve(w, token, q, Always(Good)).result == SelectStateless(q.scope, q.keyValid, q.batch)
            <==> q.keyValid || |q.batch| <= MAX_RECORDS_PER_KEY
  {
    HealthyAdvance(w, token, q.now);
    var i := Timed(w.memory.image, q.now);
    assert SameRouteKey(i, q.scope.routeKey) == SameRouteKey(w.memory.image, q.scope.routeKey);
    if q.keyValid && |q.batch| <= MAX_RECORDS_PER_KEY && Usables(q.batch, q.scope) != [] {
      HealthySelect(w, token, q);
    }
  }

  // ---- the asynchronous hand-off ----

  /** The lease holds throughout; writes may still do anything. */
  predicate LeaseHeld(s: Script) {
    s.held && s.advanceHeld && s.time1.before && s.time2.before && s.observeHeld && s.observe1.before && s.observe2.before
  }

  /** The owned-snapshot form of `AdvanceTime`: flush, then prepare, hand over, write and acknowledge. */
  function AdvanceTimeAsync(w: World, token: nat, now: nat, first: Attempt, second: Attempt): Step<()> {
    if now < w.memory.image.time then Step(w, Err(ClockRollback))
    else
      var f := Flush(w, token, first);
      if f.result.Err? || now == w.memory.image.time then f
      else
        var g := AdvanceTime(f.world, token, now, true, HandOff, HandOff);
        if g.result != Err(Persist) then g else Flush(g.world, token, second)
  }

  lemma AdvanceTimeAsyncMatches(w: World, token: nat, now: nat, first: Attempt, second: Attempt)
    requires second.before
    ensures AdvanceTimeAsync(w, token, now, first, second) == AdvanceTime(w, token, now, true, first, second)
  {
  }

  /** Where the loop starts: time is advanced and nothing is pending. */
  ghost predicate LoopState(w: World, q: Request) {
    w.memory.pending.None? && w.memory.image.time == q.now && ValidImage(w.memory.image)
  }

  lemma QuietSelect(w: World, token: nat, q: Request, s: Script)
    requires LoopState(w, q) && LeaseHeld(s)
    ensures SelectAndObserve(w, token, q, s) == SelectSettled(w, token, q, s)
  {
  }

  /** A selection advances time, and stops there if that fails. */
  lemma AdvanceFirst(w: World, token: nat, q: Request, s: Script)
    requires LeaseHeld(s)
    ensures var a := AdvanceTime(w, token, q.now, true, s.time1, s.time2);
            SelectAndObserve(w, token, q, s)
            == if a.result.Err? then Step(a.world, Err(a.result.error)) else SelectSettled(a.world, token, q, s)
    ensures AdvanceTime(w, token, q.now, true, s.time1, s.time2).result != Err(NoRoute)
  {
  }

  /** A round that hands nothing over is the synchronous selection. */
  lemma RoundWithoutHandOff(w: World, token: nat, q: Request, s: Script)
    requires LoopState(w, q) && LeaseHeld(s)
    requires SelectAndObserve(w, token, q, Always(HandOff)).result != Err(Persist)
    ensures SelectAndObserve(w, token, q, Always(HandOff)) == SelectAndObserve(w, token, q, s)
  {
    QuietSelect(w, token, q, s);
    QuietSelect(w, token, q, Always(HandOff));
  }

  /** A round that hands a transition over leaves storage alone and has prepared exactly the observation. */
  lemma RoundWithHandOff(w: World, token: nat, q: Request)
    requires LoopState(w, q)
    requires SelectAndObserve(w, token, q, Always(HandOff)).result == Err(Persist)
    ensures |q.batch| <= MAX_RECORDS_PER_KEY && q.keyValid && q.network == w.memory.image.network && HasRoom(w.memory.image, q.scope)
    ensures Usables(q.batch, q.scope) != []
    ensures var k := BatchClaims(Usables(q.batch, q.scope));
            && ObservationChanges(Entry(w.memory.image, q.scope), k)
            && SelectAndObserve(w, token, q, Always(HandOff)).world
               == World(Memory(Observed(w.memory.image, q.scope, k), Some(Prior(w.memory.image))), w.register)
  {
    QuietSelect(w, token, q, Always(HandOff));
    WritesIffChanges(w.memory.image, q.scope, BatchClaims(Usables(q.batch, q.scope)));
  }

  /** The synchronous selection from the same state is that transition, written, then judged. */
  lemma SyncFromRound(w: World, token: nat, q: Request, s: Script)
    requires LoopState(w, q) && LeaseHeld(s)
    requires SelectAndObserve(w, token, q, Always(HandOff)).result == Err(Persist)
    ensures var valid := Usables(q.batch, q.scope);
            && valid != []
            && var h := SelectAndObserve(w, token, q, Always(HandOff)).world;
               var f := Flush(h, token, s.observe2);
               SelectAndObserve(w, token, q, s) == Step(f.world, if f.result.Err? then Err(f.result.error)
                 else Verdict(h.memory.image, q.scope, BatchClaims(valid), Selected(valid)))
  {
    RoundWithHandOff(w, token, q);
    QuietSelect(w, token, q, s);
    WritesIffChanges(w.memory.image, q.scope, BatchClaims(Usables(q.batch, q.scope)));
  }

  /** Re-observing an acknowledged batch changes nothing. */
  lemma SecondLookIsQuiet(i: Image, scope: Scope, c: Claims)
    requires ValidImage(i) && HasRoom(i, scope) && ObservationChanges(Entry(i, scope), c)
    ensures !Writes(Observed(i, scope, c), scope, c, i.time)
    ensures HasRoom(Observed(i, scope, c), scope) && ValidImage(Observed(i, scope, c))
  {
    NextEntryIsObserve(Entry(i, scope), c);
    WritesIffChanges(Observed(i, scope, c), scope, c);
  }

  /** So after one acknowledged hand-off the next round hands nothing over and returns the synchronous result. */
  lemma RoundAfterHandOff(w: World, token: nat, q: Request, s: Script)
    requires LoopState(w, q) && LeaseHeld(s)
    requires SelectAndObserve(w, token, q, Always(HandOff)).result == Err(Persist)
    requires Flush(SelectAndObserve(w, token, q, Always(HandOff)).world, token, s.observe2).result.Ok?
    ensures var f := Flush(SelectAndObserve(w, token, q, Always(HandOff)).world, token, s.observe2);
            && LoopState(f.world, q)
            && SelectAndObserve(f.world, token, q, Always(HandOff)) == SelectAndObserve(w, token, q, s)
            && SelectAndObserve(w, token, q, s).result != Err(Persist)
  {
    RoundWithHandOff(w, token, q);
    SyncFromRound(w, token, q, s);
    var k := BatchClaims(Usables(q.batch, q.scope));
    SecondLookIsQuiet(w.memory.image, q.scope, k);
    var f := Flush(SelectAndObserve(w, token, q, Always(HandOff)).world, token, s.observe2);
    QuietSelect(f.world, token, q, Always(HandOff));
  }

  // ---- a single record ----

  /** A batch without a usable record, said of one record. */
  function OfOne(s: Step<Candidate>): Step<Candidate> {
    s.(result := if s.result == Err(NoRoute) then Err(Unverified) else s.result)
  }

  lemma ReduceOne(x: Seen)
    ensures Reduce([x]) == Single(x)
  {
    assert Greatest([x]) == x.sequence && FirstAt([x], x.sequence) == x.id;
    assert !AnyOtherAt([x], x.sequence, x.id);
  }

  lemma OneRecord(record: Candidate, scope: Scope)
    ensures Usables([record], scope) == if Usable(record, scope) then [record] else []
    ensures BatchClaims([record]) == RecordClaims(record) && Selected([record]) == Some(record)
  {
    assert [record][..0] == [] && Usables([record][..0], scope) == [];
    assert Endpoints([record]) == [EndpointSeen(record)] && Routes([record]) == [RouteSeen(record)];
    ReduceOne(EndpointSeen(record));
    ReduceOne(RouteSeen(record));
  }

  /** No operation before the verdict reports that there was no route. */
  lemma NeverNoRoute(w: World, token: nat, q: Request, record: Candidate, s: Script)
    ensures ObserveRecord(w, token, q, record, s).result != Err(NoRoute)
  {
  }

  /** Observing one record is selecting from a batch of one, under any environment. */
  lemma ObserveRecordIsSelection(w: World, token: nat, q: Request, record: Candidate, s: Script)
    ensures ObserveRecord(w, token, q, record, s) == OfOne(SelectAndObserve(w, token, q.(batch := [record]), s))
  {
    hide AdvanceTime, ApplyObservation, Usables, BatchClaims, Selected;
    OneRecord(record, q.scope);
    NeverNoRoute(w, token, q, record, s);
  }

  lemma ObserveRecordAdvances(w: World, token: nat, q: Request, record: Candidate, s: Script)
    requires WellFormed(w.memory)
    ensures Advances(w.memory, ObserveRecord(w, token, q, record, s).world.memory)
  {
    hide ObserveRecord, SelectAndObserve, WellFormed, Advances;
    ObserveRecordIsSelection(w, token, q, record, s);
    SelectionAdvances(w, token, q.(batch := [record]), s);
  }

  /** A selection that succeeds leaves a memory whose one current record for the scope is what it returned. */
  ghost predicate Selects(m: Memory, q: Request, c: Candidate) {
    && c in q.batch && Usable(c, q.scope) && (forall d :: d in q.batch && Usable(d, q.scope) ==> AtLeast(c, d))
    && Holds(m, q, c)
  }

  ghost predicate Holds(m: Memory, q: Request, c: Candidate) {
    m.pending.None? && m.image.time == q.now && q.scope in m.image.entries && m.image.entries[q.scope] == Exactly(c)
  }

  lemma SelectionSelects(w: World, token: nat, q: Request, s: Script)
    ensures var r := SelectAndObserve(w, token, q, s);
            r.result.Ok? ==> Selects(r.world.memory, q, r.result.value)
  {
    hide SelectAndObserve;
    if SelectAndObserve(w, token, q, s).result.Ok? {
      SelectionIsCurrent(w, token, q, s);
    }
  }

  lemma ObservationHolds(w: World, token: nat, q: Request, record: Candidate, s: Script)
    ensures var r := ObserveRecord(w, token, q, record, s);
            r.result.Ok? ==> r.result.value == record && Holds(r.world.memory, q, record)
  {
    hide SelectAndObserve, ObserveRecord;
    ObserveRecordIsSelection(w, token, q, record, s);
    SelectionSelects(w, token, q.(batch := [record]), s);
  }

  /** Every lease check on the way has to say yes, and every write to land and be acknowledged, for a selection to succeed. */
  lemma SelectionNeedsLease(w: World, token: nat, q: Request, s: Script)
    requires SelectAndObserve(w, token, q, s).result.Ok?
    ensures s.held && s.advanceHeld && s.time1.before && s.observeHeld && s.observe1.before
    ensures w.memory.pending.Some? ==> s.time1.after && s.time1.fault.Healthy?
    ensures w.memory.image.time < q.now ==> s.time2 == Good
    ensures w.memory.image.time <= q.now && q.keyValid && q.network == w.memory.image.network && |q.batch| <= MAX_RECORDS_PER_KEY
  {
    hide Usables, BatchClaims, Selected;
  }

  /** A selection is refused for capacity only in a scope it has not seen, when the aggregate or its route key is full. */
  lemma RefusedSelectionIsFull(w: World, token: nat, q: Request, s: Script)
    requires SelectAndObserve(w, token, q, s).result == Err(Capacity)
    ensures q.scope !in w.memory.image.entries
    ensures |w.memory.image.entries| >= w.memory.image.capacity || |SameRouteKey(w.memory.image, q.scope.routeKey)| >= MAX_RECORDS_PER_KEY
  {
    hide Usables, BatchClaims, Selected, ApplyObservation;
    var a := AdvanceTime(w, token, q.now, s.advanceHeld, s.time1, s.time2);
    if a.result.Ok? {
      AdvanceSettles(w, token, q.now, s.advanceHeld, s.time1, s.time2);
      assert SameRouteKey(a.world.memory.image, q.scope.routeKey) == SameRouteKey(w.memory.image, q.scope.routeKey);
      var valid := Usables(q.batch, q.scope);
      if valid != [] && HasRoom(a.world.memory.image, q.scope) {
        RoomMeansNoRefusal(a.world, token, Selected(valid), q.scope, BatchClaims(valid), q.now, s.observeHeld, s.observe1, s.observe2);
      }
    }
  }

  lemma RoomMeansNoRefusal<T>(w: World, token: nat, selected: Option<T>, scope: Scope, c: Claims, now: nat, held: bool, first: Attempt, second: Attempt)
    requires HasRoom(w.memory.image, scope)
    ensures ApplyObservation(w, token, selected, scope, c, now, held, first, second).result != Err(Capacity)
  {
    FlushSettles(w, token, first);
  }
}
