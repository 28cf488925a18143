/**
  The leased persistence boundary around the route store: nothing leaves the service before the replay ledger it
  rests on is durable.

  A mutation runs on the volatile store, the ledger is captured, and the capture is written by compare-and-swap
  under a fencing token. A write may land and still be reported as failed; the transition then stays pending and is
  retried first by the next operation. Just before any write an earlier one may arrive, late or for the second time,
  and another owner may take the lease over.
 */
module PersistentRoutes {
  import opened Common
  import opened CasRegisters
  import opened Paths
  import opened RouteStores
  import opened RouteStoreInvariants
  import opened RouteStoreRuns
  import opened Tallies
  import L = ReplayLedger

  // ---- the local store ----

  datatype Pending = Pending(expected: Expectation<Snapshot>, proposed: Snapshot)

  datatype Local = Local(volatile: Store, acknowledged: Option<Snapshot>, pending: Option<Pending>)

  datatype Failure = Protocol(error: Error) | Uninitialized | Unsupported | LostLease | StorageFailed
  {
    /** A refusal that is sent to the peer, as opposed to a failure of the machinery. */
    predicate Emitted() { Protocol? || Uninitialized? || Unsupported? }
  }

  /** Storage, and every write ever sent to it: one may arrive, or arrive again, at any later time. */
  datatype Medium = Medium(fence: nat, durable: Option<Snapshot>, sent: set<Sending<Snapshot>>)

  datatype World = World(local: Local, register: Medium)

  datatype Step<+T> = Step(world: World, result: Result<T, Failure>)

  /** A register that holds nothing a decoder would refuse. */
  type Stored = r: Register<Snapshot> | r.durable.Some? ==> SnapshotOk(r.durable.value) witness Register(0, None)

  /**
    What happens around one write. Just before it an earlier write may arrive, and then another owner may take the
    lease over; and the write has its own fault.
   */
  datatype Fate = Fate(stray: Option<Sending<Snapshot>>, takeover: Option<Stored>, fault: Fault)

  function Arrives(m: Medium, v: Sending<Snapshot>): Medium {
    m.(durable := Arrived(Register(m.fence, m.durable), v).durable)
  }

  function Strayed(m: Medium, stray: Option<Sending<Snapshot>>): Medium {
    if stray.Some? && stray.value in m.sent then Arrives(m, stray.value) else m
  }

  /** After a takeover: a greater fence, and in storage whatever the other owner left. */
  function Overtaken(m: Medium, takeover: Option<Stored>): Medium {
    if takeover.Some? && m.fence < takeover.value.fence then m.(fence := takeover.value.fence, durable := takeover.value.durable) else m
  }

  function PersistPending(w: World, token: nat, fate: Fate): Step<()> {
    WritePending(w.(register := Overtaken(Strayed(w.register, fate.stray), fate.takeover)), token, fate.fault)
  }

  function WritePending(w: World, token: nat, fault: Fault): Step<()> {
    if w.local.pending.None? then Step(w, Ok(()))
    else if token != w.register.fence then Step(w, Err(LostLease))
    else
      var p := w.local.pending.value;
      var v := Sending(token, p.expected, p.proposed);
      var m := w.register.(sent := w.register.sent + {v});
      if Cas(Register(m.fence, m.durable), token, p.expected, p.proposed).None? || fault.FailsBefore? then Step(w.(register := m), Err(StorageFailed))
      else if fault.CommitsButFails? then Step(w.(register := Arrives(m, v)), Err(StorageFailed))
      else Step(World(w.local.(acknowledged := Some(p.proposed), pending := None), Arrives(m, v)), Ok(()))
  }

  datatype Captured = Captured(local: Local, result: Result<(), Failure>)

  function CaptureCurrent(l: Local, now: nat): Captured {
    if l.acknowledged.None? then Captured(l, Err(Uninitialized))
    else
      var p := TakeSnapshot(l.volatile, now);
      if p.result.Err? then Captured(l.(volatile := p.store), Err(Protocol(p.result.error)))
      else if Some(p.result.value) == l.acknowledged then Captured(l.(volatile := p.store), Ok(()))
      else Captured(l.(volatile := p.store, pending := Some(Pending(Prior(l.acknowledged.value), p.result.value))), Ok(()))
  }

  /** The result of an operation on the store. */
  ghost function Answer(s: Store, op: Operation): Result<nat, Error> {
    match op
    case StoreV3(c, vetting, current, held, now, source) =>
      FinishCurrent(PutV3(s, c, vetting, current, now, source), c.routeKey, held || !current).result
    case StorePlain(key, route, vetting, now, source) => PutPlain(s, key, route, vetting, now, source).result
    case RevalidateV3(routeKey, authority, held, now) => FinishCurrent(Revalidate(s, routeKey, authority, now), routeKey, held).result
    case _ => Ok(0)
  }

  ghost function RunPersisted(w: World, token: nat, now: nat, op: Operation, first: Fate, second: Fate): Step<nat> {
    var a := PersistPending(w, token, first);
    if a.result.Err? then Step(a.world, Err(a.result.error))
    else
      var s := a.world.local.volatile;
      CommitMutation(Mutated(a.world, Do(s, op)), token, now, Answer(s, op), second)
  }

  function Mutated(w: World, store: Store): World {
    w.(local := w.local.(volatile := store))
  }

  /** Capture what a mutation left, write it, and only then let its answer out. */
  function CommitMutation(w: World, token: nat, now: nat, answer: Result<nat, Error>, fate: Fate): Step<nat> {
    var c := CaptureCurrent(w.local, now);
    if c.result.Err? then Step(w.(local := c.local), Err(c.result.error))
    else
      var b := PersistPending(w.(local := c.local), token, fate);
      if b.result.Err? then Step(b.world, Err(b.result.error))
      else Step(b.world, Lifted(answer))
  }

  function Lifted<T>(r: Result<T, Error>): Result<T, Failure> {
    match r
    case Ok(v) => Ok(v)
    case Err(e) => Err(Protocol(e))
  }

  /** Storage as the loader found it under the lease: absent, or initialised with a revision floor kept elsewhere. */
  function Open(limits: Limits, durable: Option<Snapshot>, minimumRevision: nat, now: nat): Result<Local, Error> {
    match durable
    case None =>
      var p := TakeSnapshot(Fresh(limits), now);
      if p.result.Err? then Err(p.result.error)
      else Ok(Local(p.store, None, Some(Pending(Absent, p.result.value))))
    case Some(image) =>
      var r := Restore(Fresh(limits), image, now, minimumRevision);
      if r.result.Err? then Err(r.result.error)
      else
        var p := TakeSnapshot(r.store, now);
        if p.result.Err? then Err(p.result.error)
        else Ok(Local(p.store, Some(image), if p.result.value == image then None else Some(Pending(Prior(image), p.result.value))))
  }

  // ---- packets ----

  datatype Packet = Put(op: Operation) | Get(routeKey: nat, maximum: nat) | Other

  datatype Emission = Stored(until: nat) | Routes(named: seq<StoredRoute>, unnamed: seq<StoredRoute>) | Refused(why: Failure)

  /** What happens around each write a packet may cause, in order. */
  datatype Faults = Faults(retry: Fate, first: Fate, second: Fate, third: Fate, fourth: Fate)

  ghost function Handle(w: World, token: nat, packet: Packet, now: nat, f: Faults): Step<Emission> {
    var p := PersistPending(w, token, f.retry);
    if p.result.Err? then Step(p.world, Err(p.result.error))
    else
      match packet
      case Other => Step(p.world, Err(Unsupported))
      case Put(op) =>
        var r := RunPersisted(p.world, token, now, op, f.first, f.second);
        Step(r.world, if r.result.Err? then Err(r.result.error) else Ok(Stored(r.result.value)))
      case Get(routeKey, maximum) => HandleGet(p.world, token, routeKey, maximum, now, f)
  }

  /** Named routes first, then unnamed ones in the room that is left; each lookup has its own boundary. */
  ghost function HandleGet(w: World, token: nat, routeKey: nat, maximum: nat, now: nat, f: Faults): Step<Emission> {
    var named := Lookup(w.local.volatile, V3(routeKey), maximum, now).1;
    var a := RunPersisted(w, token, now, PruneList(V3(routeKey), now), f.first, f.second);
    if a.result.Err? then Step(a.world, Err(a.result.error))
    else
      var key := StoreKey(UnnamedV1, routeKey);
      var unnamed := Lookup(a.world.local.volatile, key, if |named| < maximum then maximum - |named| else 0, now).1;
      var b := RunPersisted(a.world, token, now, PruneList(key, now), f.third, f.fourth);
      Step(b.world, if b.result.Err? then Err(b.result.error) else Ok(Routes(named, unnamed)))
  }

  // ---- invariants of the local store ----

  /** A transition goes to a greater revision. */
  predicate Rises(expected: Expectation<Snapshot>, proposed: Snapshot) {
    expected.Prior? ==> expected.image.revision < proposed.revision
  }

  ghost predicate LocalOk(l: Local, expiryOf: Expiry) {
    && Inv(l.volatile, expiryOf)
    && match l.pending
       case None => l.acknowledged == Some(Capture(l.volatile))
       case Some(p) => p.proposed == Capture(l.volatile) && Expected(p.expected) == l.acknowledged && Rises(p.expected, p.proposed)
  }

  /** While our lease is the current one, storage holds what we acknowledged, or what we are about to. */
  ghost predicate DurableOk(w: World, token: nat) {
    && token <= w.register.fence
    && (token == w.register.fence ==>
      || w.register.durable == w.local.acknowledged
      || (w.local.pending.Some? && w.register.durable == Some(w.local.pending.value.proposed)))
  }

  /** A write sent under our lease is no further than our ledger, and can still change storage only if it is our pending one. */
  ghost predicate SendingOk(w: World, v: Sending<Snapshot>) {
    && Rises(v.expected, v.proposed)
    && v.proposed.revision <= w.local.volatile.revision
    && (w.register.durable == Expected(v.expected) ==> w.local.pending == Some(Pending(v.expected, v.proposed)))
  }

  ghost predicate SentOk(w: World, token: nat) {
    token == w.register.fence ==> forall v :: v in w.register.sent && v.token == token ==> SendingOk(w, v)
  }

  /** Neither what storage holds nor what is on its way is anything a decoder would refuse. */
  ghost predicate StorageOk(m: Medium) {
    && (m.durable.Some? ==> SnapshotOk(m.durable.value))
    && forall v :: v in m.sent ==> SnapshotOk(v.proposed) && v.token <= m.fence
  }

  ghost predicate WorldOk(w: World, token: nat, expiryOf: Expiry) {
    LocalOk(w.local, expiryOf) && DurableOk(w, token) && SentOk(w, token) && StorageOk(w.register)
  }

  /** Memory, acknowledgement and (while the lease is current) storage are the same ledger. */
  ghost predicate Settled(w: World, token: nat) {
    && w.local.pending.None?
    && w.local.acknowledged == Some(Capture(w.local.volatile))
    && (token == w.register.fence ==> w.register.durable == Some(Capture(w.local.volatile)))
  }

  /** An earlier write arrives: it moves storage, if at all, to what we have pending. */
  lemma ArrivalKeeps(w: World, token: nat, v: Sending<Snapshot>, expiryOf: Expiry)
    requires WorldOk(w, token, expiryOf) && v in w.register.sent
    ensures WorldOk(w.(register := Arrives(w.register, v)), token, expiryOf)
  {
    hide Inv, SnapshotOk;
    var n := w.(register := Arrives(w.register, v));
    if token == w.register.fence == v.token {
      assert SendingOk(w, v);
      forall u | u in n.register.sent && u.token == token ensures SendingOk(n, u) {
        assert SendingOk(w, u);
      }
    }
  }

  lemma TakeoverKeeps(w: World, token: nat, takeover: Option<Stored>, expiryOf: Expiry)
    requires WorldOk(w, token, expiryOf)
    ensures WorldOk(w.(register := Overtaken(w.register, takeover)), token, expiryOf)
  {
    hide Inv, SnapshotOk;
  }

  /** Sending our pending write, whether or not it arrives. */
  lemma SendKeeps(w: World, token: nat, expiryOf: Expiry)
    requires WorldOk(w, token, expiryOf) && token == w.register.fence && w.local.pending.Some?
    ensures var p := w.local.pending.value;
            WorldOk(w.(register := w.register.(sent := w.register.sent + {Sending(token, p.expected, p.proposed)})), token, expiryOf)
  {
    CapturedOk(w.local.volatile, expiryOf);
    hide Inv, SnapshotOk;
    var p := w.local.pending.value;
    var n := w.(register := w.register.(sent := w.register.sent + {Sending(token, p.expected, p.proposed)}));
    forall v | v in n.register.sent && v.token == token ensures SendingOk(n, v) {
      assert v in w.register.sent ==> SendingOk(w, v);
    }
  }

  lemma AcknowledgedKeeps(w: World, token: nat, expiryOf: Expiry)
    requires WorldOk(w, token, expiryOf) && token == w.register.fence && w.local.pending.Some?
    requires w.register.durable == Some(w.local.pending.value.proposed)
    ensures var n := w.(local := w.local.(acknowledged := Some(w.local.pending.value.proposed), pending := None));
            WorldOk(n, token, expiryOf) && Settled(n, token)
  {
    hide Inv, SnapshotOk;
    var n := w.(local := w.local.(acknowledged := Some(w.local.pending.value.proposed), pending := None));
    forall v | v in n.register.sent && v.token == token ensures SendingOk(n, v) {
      assert SendingOk(w, v);
    }
  }

  lemma WriteKeeps(w: World, token: nat, fault: Fault, expiryOf: Expiry)
    requires WorldOk(w, token, expiryOf)
    ensures var s := WritePending(w, token, fault);
            && WorldOk(s.world, token, expiryOf) && s.world.local.volatile == w.local.volatile
            && (s.result.Ok? ==> Settled(s.world, token)) && (s.result.Err? ==> !s.result.error.Emitted())
  {
    hide LocalOk, SentOk, StorageOk;
    if w.local.pending.Some? && token == w.register.fence {
      SendKeeps(w, token, expiryOf);
      var p := w.local.pending.value;
      var v := Sending(token, p.expected, p.proposed);
      var n := w.(register := w.register.(sent := w.register.sent + {v}));
      ArrivalKeeps(n, token, v, expiryOf);
      if Cas(Register(n.register.fence, n.register.durable), token, p.expected, p.proposed).Some? {
        AcknowledgedKeeps(n.(register := Arrives(n.register, v)), token, expiryOf);
      }
    } else {
      QuietIsSettled(w, token, expiryOf);
    }
  }

  lemma QuietIsSettled(w: World, token: nat, expiryOf: Expiry)
    requires WorldOk(w, token, expiryOf)
    ensures w.local.pending.None? ==> Settled(w, token)
  {
  }

  lemma PersistKeeps(w: World, token: nat, fate: Fate, expiryOf: Expiry)
    requires WorldOk(w, token, expiryOf)
    ensures var s := PersistPending(w, token, fate);
            && WorldOk(s.world, token, expiryOf) && s.world.local.volatile == w.local.volatile
            && (s.result.Ok? ==> Settled(s.world, token)) && (s.result.Err? ==> !s.result.error.Emitted())
  {
    hide WorldOk, Arrives, WritePending, Settled;
    var n := w;
    if fate.stray.Some? && fate.stray.value in w.register.sent {
      ArrivalKeeps(w, token, fate.stray.value, expiryOf);
      n := w.(register := Arrives(w.register, fate.stray.value));
    }
    TakeoverKeeps(n, token, fate.takeover, expiryOf);
    WriteKeeps(n.(register := Overtaken(n.register, fate.takeover)), token, fate.fault, expiryOf);
  }

  // ---- what a mutation does to the ledger ----

  /** The ledger has nothing left to prune at `now`. */
  ghost predicate Calm(b: Book, now: nat) {
    b.prunedThrough <= now && Lapsed(b.ledger, now) == {}
  }

  lemma CalmCaptures(s: Store, now: nat)
    requires Calm(BookOf(s), now)
    ensures TakeSnapshot(s, now) == Effect(s, Ok(Capture(s)))
  {
  }

  lemma PruneLedgerCalms(s: Store, now: nat)
    ensures var p := PruneLedger(s, now);
            if p.result.Ok? then Calm(BookOf(p.store), now) else p.store == s
  {
  }

  lemma CommittedCalm(s: Store, c: Candidate, next: L.Entry, items: seq<StoredRoute>, now: nat)
    requires Calm(BookOf(s), now) && now < next.retainUntil
    ensures Calm(BookOf(Committed(s, c, next, items)), now)
  {
    var t := Committed(s, c, next, items);
    forall k | k in t.ledger ensures k !in Lapsed(t.ledger, now) {
      assert k in s.ledger ==> k !in Lapsed(s.ledger, now);
    }
  }

  lemma InsertJudgedCalm(s: Store, c: Candidate, current: bool, now: nat, source: string)
    requires Calm(BookOf(s), now) && now < c.signedExpiry
    ensures var v := L.Classify(EntryAt(s.ledger, KeyOf(c)), SightingOf(c, now));
            Calm(BookOf(InsertJudged(s, c, v, current, now, source).store), now)
  {
    var o := SightingOf(c, now);
    var previous := EntryAt(s.ledger, KeyOf(c));
    L.NextEntryNeverErrs(previous, o);
    RetainedBeyond(previous, o);
    var a := LiveMatch(At(s.records, V3(c.routeKey)), c, L.Classify(previous, o));
    if a.Ok? {
      CommittedCalm(s, c, L.Observe(previous, o), Applied(At(s.records, V3(c.routeKey)), a.value, c, current, source), now);
    }
  }

  /** Either the ledger is as it was, or it has been pruned at `now`, so that a capture at `now` cannot fail. */
  ghost predicate SameOrCalm(b: Book, c: Book, now: nat) {
    b == c || Calm(c, now)
  }

  lemma InsertSettles(s: Store, c: Candidate, current: bool, now: nat, source: string)
    requires now < c.signedExpiry
    ensures SameOrCalm(BookOf(s), BookOf(Insert(s, c, current, now, source).store), now)
  {
    var p := PruneLedger(s, now);
    PruneLedgerCalms(s, now);
    if p.result.Ok? && LedgerPreflight(p.store, c, now).Ok? {
      InsertJudgedCalm(PruneKey(p.store, V3(c.routeKey), now), c, current, now, source);
    }
  }

  lemma PreflightSettles(s: Store, c: Candidate, now: nat, source: string, expiryOf: Expiry)
    requires Inv(s, expiryOf)
    ensures SameOrCalm(BookOf(s), BookOf(PreflightUntrusted(s, c, now, source).store), now)
  {
    PruneLedgerCalms(s, now);
    PreflightOnlyPrunes(s, c, now, source, expiryOf);
  }

  lemma PutV3Settles(s: Store, c: Candidate, vetting: Vetting, current: bool, now: nat, source: string, expiryOf: Expiry)
    requires Inv(s, expiryOf) && (vetting.Verified? ==> Vouched(c.(expires := vetting.until), now, expiryOf))
    ensures SameOrCalm(BookOf(s), BookOf(PutV3(s, c, vetting, current, now, source).store), now)
  {
    PutV3Ends(s, c, vetting, current, now, source);
    var untrusted := c.(expires := c.signedExpiry);
    PreflightSettles(s, untrusted, now, source, expiryOf);
    if vetting.Verified? {
      InsertSettles(PreflightUntrusted(s, untrusted, now, source).store, c.(expires := vetting.until), current, now, source);
    }
  }

  /** A mutation that happens at `now`, inside one life of the process. */
  predicate Happens(op: Operation, now: nat) {
    match op
    case WithdrawV3(_) => true
    case Restart(_, _) => false
    case _ => op.now == now
  }

  lemma DoSettles(s: Store, op: Operation, now: nat, expiryOf: Expiry)
    requires Inv(s, expiryOf) && Allowed(s, op, expiryOf) && Happens(op, now)
    ensures SameOrCalm(BookOf(s), BookOf(Do(s, op)), now)
  {
    match op
    case StoreV3(c, vetting, current, held, _, source) =>
      PutV3Settles(s, c, vetting, current, now, source, expiryOf);
      FinishKeepsBook(PutV3(s, c, vetting, current, now, source), c.routeKey, held || !current);
    case StorePlain(key, route, vetting, _, source) => PlainKeepsBook(s, key, route, vetting, now, source);
    case RevalidateV3(routeKey, authority, held, _) =>
      PruneLedgerCalms(s, now);
      FinishKeepsBook(Revalidate(s, routeKey, authority, now), routeKey, held);
      assert BookOf(Revalidate(s, routeKey, authority, now).store) == BookOf(PruneLedger(s, now).store);
    case WithdrawV3(_) =>
    case PruneV3(_) => PruneLedgerCalms(s, now);
    case PruneList(_, _) =>
  }

  // ---- the boundary ----

  lemma CaptureKeeps(l: Local, store: Store, now: nat, expiryOf: Expiry)
    requires LocalOk(l, expiryOf) && l.pending.None? && Inv(store, expiryOf)
    requires SameOrCalm(BookOf(l.volatile), BookOf(store), now) && Evolves(BookOf(l.volatile), BookOf(store))
    ensures var c := CaptureCurrent(l.(volatile := store), now);
            && LocalOk(c.local, expiryOf) && c.local.acknowledged == l.acknowledged && l.volatile.revision <= c.local.volatile.revision
            && (c.result.Err? ==> c.local.pending.None? && c.result.error.Emitted())
  {
    PruneLedgerKeeps(store, now, expiryOf);
    PruneLedgerCalms(store, now);
    PruneLedgerEvolves(store, now);
    EvolvesTransitive(BookOf(l.volatile), BookOf(store), BookOf(PruneLedger(store, now).store));
    if Calm(BookOf(store), now) {
      CalmCaptures(store, now);
    }
  }

  /** No write sent before can still change storage, so a new ledger and a new pending write disturb none. */
  lemma CapturedSent(w: World, token: nat, l: Local)
    requires DurableOk(w, token) && SentOk(w, token) && w.local.pending.None? && w.local.acknowledged == Some(Capture(w.local.volatile))
    requires l.acknowledged == w.local.acknowledged && w.local.volatile.revision <= l.volatile.revision
    ensures SentOk(w.(local := l), token)
  {
    if token == w.register.fence {
      forall v | v in w.register.sent && v.token == token ensures SendingOk(w.(local := l), v) {
        assert SendingOk(w, v);
      }
    }
  }

  lemma CommitKeeps(w: World, token: nat, now: nat, mutated: Store, answer: Result<nat, Error>, fate: Fate, expiryOf: Expiry)
    requires WorldOk(w, token, expiryOf) && Settled(w, token) && Inv(mutated, expiryOf)
    requires SameOrCalm(BookOf(w.local.volatile), BookOf(mutated), now) && Evolves(BookOf(w.local.volatile), BookOf(mutated))
    ensures var r := CommitMutation(Mutated(w, mutated), token, now, answer, fate);
            && WorldOk(r.world, token, expiryOf)
            && ((r.result.Ok? || r.result.error.Emitted()) ==> Settled(r.world, token))
  {
    hide Inv, SameOrCalm, Evolves, CaptureCurrent, StorageOk, PersistPending;
    CaptureKeeps(w.local, mutated, now, expiryOf);
    var c := CaptureCurrent(w.local.(volatile := mutated), now);
    CapturedSent(w, token, c.local);
    QuietIsSettled(w.(local := c.local), token, expiryOf);
    PersistKeeps(w.(local := c.local), token, fate, expiryOf);
  }

  /**
    Persist before emit, for one mutation: whatever the writes do, an outcome that may be sent (a success or a
    protocol error, including a failed capture) is only reached with memory, acknowledgement and storage agreeing.
   */
  lemma RunKeeps(w: World, token: nat, now: nat, op: Operation, first: Fate, second: Fate, expiryOf: Expiry)
    requires WorldOk(w, token, expiryOf) && Allowed(w.local.volatile, op, expiryOf) && Happens(op, now)
    ensures var r := RunPersisted(w, token, now, op, first, second);
            && WorldOk(r.world, token, expiryOf)
            && ((r.result.Ok? || r.result.error.Emitted()) ==> Settled(r.world, token))
  {
    PersistKeeps(w, token, first, expiryOf);
    var a := PersistPending(w, token, first);
    if a.result.Ok? {
      var s := a.world.local.volatile;
      DoKeeps(s, op, expiryOf);
      DoEvolves(s, op, expiryOf);
      DoSettles(s, op, now, expiryOf);
      CommitKeeps(a.world, token, now, Do(s, op), Answer(s, op), second, expiryOf);
    }
  }

  // ---- opening ----

  /** A pending write fails as a lost lease exactly when the fence has moved on, and then touches nothing. */
  lemma WriteFails(w: World, token: nat, fault: Fault)
    ensures var s := WritePending(w, token, fault);
            && (s.result == Err(LostLease) <==> w.local.pending.Some? && token != w.register.fence)
            && (s.result == Err(LostLease) ==> s.world == w)
            && (s.result.Err? ==> s.world.local == w.local)
            && (s.result.Ok? && w.local.pending.Some? ==>
                  && s.world.local == w.local.(acknowledged := Some(w.local.pending.value.proposed), pending := None)
                  && s.world.register.durable == Some(w.local.pending.value.proposed))
  {
  }

  /** A service opens on storage only at or above the floor kept elsewhere, and acknowledges exactly what storage holds. */
  lemma OpenFloor(limits: Limits, durable: Option<Snapshot>, floor: nat, now: nat)
    requires Open(limits, durable, floor, now).Ok?
    ensures var l := Open(limits, durable, floor, now).value;
            && l.acknowledged == durable && l.volatile.records == map[]
            && (durable.Some? ==> floor <= durable.value.revision && durable.value.capacity == limits.total && durable.value.perKey == limits.perKey)
            && (l.pending.None? ==> durable == Some(Capture(l.volatile)))
            && (l.pending.Some? ==> l.pending.value == Pending(if durable.None? then Absent else Prior(durable.value), Capture(l.volatile)))
  {
  }

  /** Whatever a restart prunes away, it does so under a greater revision. */
  lemma OpenRises(limits: Limits, image: Snapshot, minimumRevision: nat, now: nat)
    requires Restore(Fresh(limits), image, now, minimumRevision).result.Ok?
    ensures var s := Restore(Fresh(limits), image, now, minimumRevision).store;
            Capture(PruneLedger(s, now).store) != image ==> image.revision < PruneLedger(s, now).store.revision
  {
    var s := Restore(Fresh(limits), image, now, minimumRevision).store;
    PruneLedgerEvolves(s, now);
    var kept := Retained(image.ledger, now);
    if |kept| == |image.ledger| {
      AllRetained(image.ledger, now);
      assert Capture(s) == image;
    }
  }

  lemma AllRetained(ledger: map<LedgerKey, L.Entry>, now: nat)
    requires |Retained(ledger, now)| == |ledger|
    ensures Retained(ledger, now) == ledger
  {
    var kept := Retained(ledger, now);
    assert |kept.Keys| == |kept| && |ledger.Keys| == |ledger| && kept.Keys <= ledger.Keys;
    SubsetSame(kept.Keys, ledger.Keys);
  }

  lemma SubsetSame<T>(a: set<T>, b: set<T>)
    requires a <= b && |a| == |b|
    ensures a == b
  {
    assert b == a + (b - a);
  }

  lemma OpenKeeps(limits: Limits, register: Medium, minimumRevision: nat, now: nat, expiryOf: Expiry)
    requires limits.Valid() && StorageOk(register) && (forall v :: v in register.sent ==> v.token < register.fence)
    requires Open(limits, register.durable, minimumRevision, now).Ok?
    ensures WorldOk(World(Open(limits, register.durable, minimumRevision, now).value, register), register.fence, expiryOf)
  {
    FreshOk(limits, expiryOf);
    match register.durable
    case None => PruneLedgerKeeps(Fresh(limits), now, expiryOf);
    case Some(image) =>
      OpenRises(limits, image, minimumRevision, now);
      RestoreKeeps(Fresh(limits), image, now, minimumRevision, expiryOf);
      PruneLedgerKeeps(Restore(Fresh(limits), image, now, minimumRevision).store, now, expiryOf);
  }

  // ---- packets ----

  ghost predicate Admissible(s: Store, packet: Packet, now: nat, expiryOf: Expiry) {
    packet.Put? ==> Allowed(s, packet.op, expiryOf) && Happens(packet.op, now)
  }

  /** Every named route of a response is the durable ledger's current record for its scope. */
  ghost predicate Backed(w: World, packet: Packet, e: Emission, expiryOf: Expiry) {
    packet.Get? && e.Routes? ==> forall x :: x in e.named ==> Served(w.local.volatile, packet.routeKey, x, expiryOf)
  }

  /** A captured ledger keeps every entry that backs a route still alive at `now`. */
  lemma CaptureServes(l: Local, routeKey: nat, x: StoredRoute, now: nat, expiryOf: Expiry)
    requires Served(l.volatile, routeKey, x, expiryOf) && now < expiryOf(x.raw)
    ensures Served(CaptureCurrent(l, now).local.volatile, routeKey, x, expiryOf)
  {
  }

  /** A lookup run keeps serving the routes that were alive before it. */
  lemma LookupRunServes(w: World, token: nat, now: nat, key: StoreKey, first: Fate, second: Fate, routeKey: nat, x: StoredRoute, expiryOf: Expiry)
    requires Served(w.local.volatile, routeKey, x, expiryOf) && now < expiryOf(x.raw)
    ensures Served(RunPersisted(w, token, now, PruneList(key, now), first, second).world.local.volatile, routeKey, x, expiryOf)
  {
    var a := PersistPending(w, token, first);
    var s := a.world.local.volatile;
    CaptureServes(a.world.local.(volatile := Do(s, PruneList(key, now))), routeKey, x, now, expiryOf);
  }

  lemma NamedAlive(w: World, routeKey: nat, maximum: nat, now: nat, expiryOf: Expiry)
    requires Inv(w.local.volatile, expiryOf)
    ensures forall x :: x in Lookup(w.local.volatile, V3(routeKey), maximum, now).1 ==> Served(w.local.volatile, routeKey, x, expiryOf) && now < expiryOf(x.raw)
  {
    var s := w.local.volatile;
    LookupServesLedger(s, routeKey, maximum, now, expiryOf);
    var t := Lookup(s, V3(routeKey), maximum, now);
    forall x | x in t.1 ensures now < expiryOf(x.raw) {
      LookupWithinExpiry(s, routeKey, maximum, now, expiryOf, x);
    }
  }

  lemma LookupWithinExpiry(s: Store, routeKey: nat, maximum: nat, now: nat, expiryOf: Expiry, x: StoredRoute)
    requires Inv(s, expiryOf) && x in Lookup(s, V3(routeKey), maximum, now).1
    ensures x.expires <= expiryOf(x.raw) && now < x.expires
  {
    var at := EffectiveNow(s, HrmNamedV3, now);
    var p := PruneKey(s, V3(routeKey), at);
    PruneKeyKeeps(s, V3(routeKey), at, expiryOf);
    var items := At(p.records, V3(routeKey));
    RankedSame(items);
    VisibleIs(p, V3(routeKey), Ranked(items), at);
    assert x in items;
    var i: nat :| i < |items| && items[i] == x;
    AtLiveOk(p, V3(routeKey), expiryOf);
  }

  lemma GetKeeps(w: World, token: nat, routeKey: nat, maximum: nat, now: nat, f: Faults, expiryOf: Expiry)
    requires WorldOk(w, token, expiryOf)
    ensures var r := HandleGet(w, token, routeKey, maximum, now, f);
            && WorldOk(r.world, token, expiryOf)
            && ((r.result.Ok? || r.result.error.Emitted()) ==> Settled(r.world, token))
  {
    RunKeeps(w, token, now, PruneList(V3(routeKey), now), f.first, f.second, expiryOf);
    var a := RunPersisted(w, token, now, PruneList(V3(routeKey), now), f.first, f.second);
    if a.result.Ok? {
      RunKeeps(a.world, token, now, PruneList(StoreKey(UnnamedV1, routeKey), now), f.third, f.fourth, expiryOf);
    }
  }

  lemma GetBacked(w: World, token: nat, routeKey: nat, maximum: nat, now: nat, f: Faults, expiryOf: Expiry)
    requires WorldOk(w, token, expiryOf) && HandleGet(w, token, routeKey, maximum, now, f).result.Ok?
    ensures var r := HandleGet(w, token, routeKey, maximum, now, f);
            Backed(r.world, Get(routeKey, maximum), r.result.value, expiryOf)
  {
    NamedAlive(w, routeKey, maximum, now, expiryOf);
    var named := Lookup(w.local.volatile, V3(routeKey), maximum, now).1;
    var a := RunPersisted(w, token, now, PruneList(V3(routeKey), now), f.first, f.second);
    var key := StoreKey(UnnamedV1, routeKey);
    var b := RunPersisted(a.world, token, now, PruneList(key, now), f.third, f.fourth);
    forall x | x in named ensures Served(b.world.local.volatile, routeKey, x, expiryOf) {
      LookupRunServes(w, token, now, V3(routeKey), f.first, f.second, routeKey, x, expiryOf);
      LookupRunServes(a.world, token, now, key, f.third, f.fourth, routeKey, x, expiryOf);
    }
  }

  /** Persist before emit, for a whole packet. */
  lemma HandleKeeps(w: World, token: nat, packet: Packet, now: nat, f: Faults, expiryOf: Expiry)
    requires WorldOk(w, token, expiryOf) && Admissible(w.local.volatile, packet, now, expiryOf)
    ensures var r := Handle(w, token, packet, now, f);
            && WorldOk(r.world, token, expiryOf)
            && ((r.result.Ok? || r.result.error.Emitted()) ==> Settled(r.world, token))
            && (r.result.Ok? ==> Backed(r.world, packet, r.result.value, expiryOf))
  {
    PersistKeeps(w, token, f.retry, expiryOf);
    var p := PersistPending(w, token, f.retry);
    if p.result.Ok? {
      match packet
      case Other =>
      case Put(op) => RunKeeps(p.world, token, now, op, f.first, f.second, expiryOf);
      case Get(routeKey, maximum) =>
        GetKeeps(p.world, token, routeKey, maximum, now, f, expiryOf);
        if HandleGet(p.world, token, routeKey, maximum, now, f).result.Ok? {
          GetBacked(p.world, token, routeKey, maximum, now, f, expiryOf);
        }
    }
  }
}
