/** Whole runs of the route store, restarts included. */
module RouteStoreRuns {
  import opened Common
  import opened Paths
  import opened Tallies
  import opened RouteStores
  import opened RouteStoreInvariants
  import Replay
  import L = ReplayLedger

  // ---- lookup ----

  lemma {:induction false} VisibleIs(s: Store, key: StoreKey, items: seq<StoredRoute>, now: nat)
    ensures forall x :: x in Visible(s, key, items, now) <==> x in items && !Hidden(s, key, x, now)
    ensures (forall x :: x in items ==> !Hidden(s, key, x, now)) ==> Visible(s, key, items, now) == items
  {
    if items != [] {
      VisibleIs(s, key, items[1..], now);
      assert items == [items[0]] + items[1..];
      assert items[0] in items;
      assert forall x :: x in items[1..] ==> x in items;
    }
  }

  lemma RankedSame(items: seq<StoredRoute>)
    ensures forall x :: x in Ranked(items) <==> x in items
  {
    forall x ensures x in Ranked(items) <==> x in items {
      assert multiset(Ranked(items)) == multiset(items);
      assert x in Ranked(items) <==> x in multiset(Ranked(items));
      assert x in items <==> x in multiset(items);
    }
  }

  lemma PrunedServes(s: Store, routeKey: nat, now: nat, expiryOf: Expiry)
    requires Inv(s, expiryOf) && s.prunedThrough <= now
    ensures var p := PruneKey(s, V3(routeKey), now);
            forall x :: x in At(p.records, V3(routeKey)) ==> Served(s, routeKey, x, expiryOf) && x.expires > now && !Hidden(p, V3(routeKey), x, now)
  {
    var p := PruneKey(s, V3(routeKey), now);
    PruneKeyKeeps(s, V3(routeKey), now, expiryOf);
    var items := At(p.records, V3(routeKey));
    forall x | x in items ensures Served(s, routeKey, x, expiryOf) && x.expires > now && !Hidden(p, V3(routeKey), x, now) {
      var i: nat :| i < |items| && items[i] == x;
      PrunedMatches(p, routeKey, now, expiryOf, i);
    }
  }

  /**
    A version-3 lookup serves only routes that realise both unconflicted high-waters of their ledger scope and are
    still within their cache life; the conflict filter never has anything to hide.
   */
  lemma LookupServesLedger(s: Store, routeKey: nat, maximum: nat, now: nat, expiryOf: Expiry)
    requires Inv(s, expiryOf)
    ensures var t := Lookup(s, V3(routeKey), maximum, now);
            && Inv(t.0, expiryOf) && t.0.ledger == s.ledger && t.0.revision == s.revision
            && |t.1| == Min(Min(maximum, MAX_RECORDS_PER_KEY), |At(t.0.records, V3(routeKey))|)
            && forall x :: x in t.1 ==> Served(s, routeKey, x, expiryOf) && x.expires > now
  {
    hide Inv, Served, Hidden, Put, Unexpired;
    var at := EffectiveNow(s, HrmNamedV3, now);
    var p := PruneKey(s, V3(routeKey), at);
    PruneKeyKeeps(s, V3(routeKey), at, expiryOf);
    PrunedServes(s, routeKey, at, expiryOf);
    var items := At(p.records, V3(routeKey));
    RankedSame(items);
    VisibleIs(p, V3(routeKey), Ranked(items), at);
    SameLength(Ranked(items), items);
    assert Lookup(s, V3(routeKey), maximum, now).1 <= Ranked(items);
  }

  lemma SameLength(a: seq<StoredRoute>, b: seq<StoredRoute>)
    requires multiset(a) == multiset(b)
    ensures |a| == |b|
  {
    assert |multiset(a)| == |a| && |multiset(b)| == |b|;
  }

  /** A route that may be served: the ledger knows it as the current one. */
  ghost predicate Served(s: Store, routeKey: nat, item: StoredRoute, expiryOf: Expiry) {
    var k := LedgerKey(routeKey, item.endpointKey);
    k in s.ledger && Matches(s.ledger[k], item) && expiryOf(item.raw) <= s.ledger[k].retainUntil
  }

  // ---- steps ----

  datatype Operation =
    | StoreV3(c: Candidate, vetting: Vetting, current: bool, held: bool, now: nat, source: string)
    | StorePlain(key: StoreKey, route: PlainRoute, vetting: Vetting, now: nat, source: string)
    | RevalidateV3(routeKey: nat, authority: Authority, held: bool, now: nat)
    | WithdrawV3(routeKey: nat)
    | PruneV3(now: nat)
    | PruneList(key: StoreKey, now: nat)
    | Restart(now: nat, minimumRevision: nat)

  ghost function Do(s: Store, op: Operation): Store {
    match op
    case StoreV3(c, vetting, current, held, now, source) =>
      FinishCurrent(PutV3(s, c, vetting, current, now, source), c.routeKey, held || !current).store
    case StorePlain(key, route, vetting, now, source) => PutPlain(s, key, route, vetting, now, source).store
    case RevalidateV3(routeKey, authority, held, now) => FinishCurrent(Revalidate(s, routeKey, authority, now), routeKey, held).store
    case WithdrawV3(routeKey) => Withdraw(s, routeKey)
    case PruneV3(now) => PruneLedger(s, now).store
    case PruneList(key, now) => PruneKey(s, key, EffectiveNow(s, key.model, now))
    case Restart(now, minimum) => Restore(Fresh(s.limits), Capture(s), now, minimum).store
  }

  /** What the verifiers guarantee, and that a restart which fails does not go on. */
  ghost predicate Allowed(s: Store, op: Operation, expiryOf: Expiry) {
    match op
    case StoreV3(c, vetting, current, held, now, source) =>
      vetting.Verified? ==> Vouched(c.(expires := vetting.until), now, expiryOf)
    case StorePlain(key, route, vetting, now, source) => !key.model.HrmNamedV3?
    case RevalidateV3(routeKey, authority, held, now) => Sound(authority, expiryOf)
    case Restart(now, minimum) => Restore(Fresh(s.limits), Capture(s), now, minimum).result.Ok?
    case _ => true
  }

  lemma DoKeeps(s: Store, op: Operation, expiryOf: Expiry)
    requires Inv(s, expiryOf) && Allowed(s, op, expiryOf)
    ensures Inv(Do(s, op), expiryOf)
  {
    match op
    case StoreV3(c, vetting, current, held, now, source) =>
      PutV3Keeps(s, c, vetting, current, now, source, expiryOf);
      WithdrawKeeps(PutV3(s, c, vetting, current, now, source).store, c.routeKey, expiryOf);
    case StorePlain(key, route, vetting, now, source) => PutPlainKeeps(s, key, route, vetting, now, source, expiryOf);
    case RevalidateV3(routeKey, authority, held, now) =>
      RevalidateKeeps(s, routeKey, authority, now, expiryOf);
      WithdrawKeeps(Revalidate(s, routeKey, authority, now).store, routeKey, expiryOf);
    case WithdrawV3(routeKey) => WithdrawKeeps(s, routeKey, expiryOf);
    case PruneV3(now) => PruneLedgerKeeps(s, now, expiryOf);
    case PruneList(key, now) => PruneKeyKeeps(s, key, EffectiveNow(s, key.model, now), expiryOf);
    case Restart(now, minimum) =>
      FreshOk(s.limits, expiryOf);
      CapturedOk(s, expiryOf);
      RestoreKeeps(Fresh(s.limits), Capture(s), now, minimum, expiryOf);
  }

  // ---- how the ledger moves ----

  /** The durable part of a store. */
  datatype Book = Book(limits: Limits, ledger: map<LedgerKey, L.Entry>, revision: nat, prunedThrough: nat)

  function BookOf(s: Store): Book {
    Book(s.limits, s.ledger, s.revision, s.prunedThrough)
  }

  /** Either the ledger is untouched or its revision has grown. */
  ghost predicate LedgerMoves(s: Book, t: Book) {
    && s.limits == t.limits && s.prunedThrough <= t.prunedThrough
    && (s.revision < t.revision || s == t)
  }

  /** An entry only grows, and is forgotten only once its retention horizon has been pruned away. */
  ghost predicate Remembers(s: Book, t: Book) {
    forall k :: k in s.ledger ==>
      || s.ledger[k].retainUntil <= t.prunedThrough
      || (k in t.ledger && EntryGrows(s.ledger[k], t.ledger[k]))
  }

  predicate EntryGrows(a: L.Entry, b: L.Entry) {
    L.Grows(a.endpoint, b.endpoint) && L.Grows(a.route, b.route) && a.retainUntil <= b.retainUntil
  }

  ghost predicate Evolves(s: Book, t: Book) {
    LedgerMoves(s, t) && Remembers(s, t)
  }

  lemma EvolvesTransitive(s: Book, t: Book, u: Book)
    requires Evolves(s, t) && Evolves(t, u)
    ensures Evolves(s, u)
  {
  }

  lemma PruneLedgerEvolves(s: Store, now: nat)
    ensures Evolves(BookOf(s), BookOf(PruneLedger(s, now).store))
  {
  }

  lemma CommittedEvolves(s: Store, c: Candidate, o: L.Sighting, items: seq<StoredRoute>)
    ensures Evolves(BookOf(s), BookOf(Committed(s, c, L.Observe(EntryAt(s.ledger, KeyOf(c)), o), items)))
  {
    if KeyOf(c) in s.ledger {
      L.CountersGrow(s.ledger[KeyOf(c)], o);
      L.ChangesIff(s.ledger[KeyOf(c)], o);
    }
  }

  lemma InsertJudgedEvolves(s: Store, c: Candidate, currentVerified: bool, now: nat, source: string)
    ensures var v := L.Classify(EntryAt(s.ledger, KeyOf(c)), SightingOf(c, now));
            Evolves(BookOf(s), BookOf(InsertJudged(s, c, v, currentVerified, now, source).store))
  {
    var o := SightingOf(c, now);
    var v := L.Classify(EntryAt(s.ledger, KeyOf(c)), o);
    L.NextEntryNeverErrs(EntryAt(s.ledger, KeyOf(c)), o);
    var a := LiveMatch(At(s.records, V3(c.routeKey)), c, v);
    if a.Ok? {
      CommittedEvolves(s, c, o, Applied(At(s.records, V3(c.routeKey)), a.value, c, currentVerified, source));
    }
  }

  lemma InsertEvolves(s: Store, c: Candidate, currentVerified: bool, now: nat, source: string)
    ensures Evolves(BookOf(s), BookOf(Insert(s, c, currentVerified, now, source).store))
  {
    var p := PruneLedger(s, now);
    PruneLedgerEvolves(s, now);
    if p.result.Ok? && LedgerPreflight(p.store, c, now).Ok? {
      var q := PruneKey(p.store, V3(c.routeKey), now);
      InsertJudgedEvolves(q, c, currentVerified, now, source);
      EvolvesTransitive(BookOf(s), BookOf(q), BookOf(Insert(s, c, currentVerified, now, source).store));
    }
  }

  lemma PreflightEvolves(s: Store, c: Candidate, now: nat, source: string, expiryOf: Expiry)
    requires Inv(s, expiryOf)
    ensures Evolves(BookOf(s), BookOf(PreflightUntrusted(s, c, now, source).store))
  {
    PruneLedgerEvolves(s, now);
    PreflightOnlyPrunes(s, c, now, source, expiryOf);
  }

  /** The three stores a version-3 admission may end in. */
  lemma PutV3Ends(s: Store, c: Candidate, vetting: Vetting, current: bool, now: nat, source: string)
    ensures var p := PreflightUntrusted(s, c.(expires := c.signedExpiry), now, source).store;
            var r := PutV3(s, c, vetting, current, now, source).store;
            r == s || r == p || (vetting.Verified? && r == Insert(p, c.(expires := vetting.until), current, now, source).store)
  {
  }

  lemma Lands(s: Book, p: Book, i: Book, r: Book)
    requires Evolves(s, p) && Evolves(p, i) && (r == s || r == p || r == i)
    ensures Evolves(s, r)
  {
    EvolvesTransitive(s, p, i);
  }

  lemma PutV3Evolves(s: Store, c: Candidate, vetting: Vetting, current: bool, now: nat, source: string, expiryOf: Expiry)
    requires Inv(s, expiryOf)
    ensures Evolves(BookOf(s), BookOf(PutV3(s, c, vetting, current, now, source).store))
  {
    var untrusted, trusted := c.(expires := c.signedExpiry), c.(expires := if vetting.Verified? then vetting.until else 0);
    var p := PreflightUntrusted(s, untrusted, now, source).store;
    PutV3Ends(s, c, vetting, current, now, source);
    PreflightEvolves(s, untrusted, now, source, expiryOf);
    InsertEvolves(p, trusted, current, now, source);
    Lands(BookOf(s), BookOf(p), BookOf(Insert(p, trusted, current, now, source).store), BookOf(PutV3(s, c, vetting, current, now, source).store));
  }

  lemma RestartEvolves(s: Store, now: nat, minimum: nat, expiryOf: Expiry)
    requires Inv(s, expiryOf) && Restore(Fresh(s.limits), Capture(s), now, minimum).result.Ok?
    ensures Evolves(BookOf(s), BookOf(Restore(Fresh(s.limits), Capture(s), now, minimum).store))
  {
    PruneLedgerEvolves(s, now);
    RestartRefines(s, now, minimum, expiryOf);
  }

  lemma FinishKeepsBook<T>(e: Effect<T>, routeKey: nat, held: bool)
    ensures BookOf(FinishCurrent(e, routeKey, held).store) == BookOf(e.store)
  {
  }

  lemma StoreV3Evolves(s: Store, c: Candidate, vetting: Vetting, current: bool, held: bool, now: nat, source: string, expiryOf: Expiry)
    requires Inv(s, expiryOf)
    ensures Evolves(BookOf(s), BookOf(FinishCurrent(PutV3(s, c, vetting, current, now, source), c.routeKey, held).store))
  {
    PutV3Evolves(s, c, vetting, current, now, source, expiryOf);
    FinishKeepsBook(PutV3(s, c, vetting, current, now, source), c.routeKey, held);
  }

  lemma RevalidateEvolves(s: Store, routeKey: nat, authority: Authority, held: bool, now: nat)
    ensures Evolves(BookOf(s), BookOf(FinishCurrent(Revalidate(s, routeKey, authority, now), routeKey, held).store))
  {
    PruneLedgerEvolves(s, now);
    FinishKeepsBook(Revalidate(s, routeKey, authority, now), routeKey, held);
    assert BookOf(Revalidate(s, routeKey, authority, now).store) == BookOf(PruneLedger(s, now).store);
  }

  lemma PlainKeepsBook(s: Store, key: StoreKey, r: PlainRoute, vetting: Vetting, now: nat, source: string)
    ensures BookOf(PutPlain(s, key, r, vetting, now, source).store) == BookOf(s)
  {
  }

  lemma Unmoved(b: Book)
    ensures Evolves(b, b)
  {
  }

  lemma DoEvolves(s: Store, op: Operation, expiryOf: Expiry)
    requires Inv(s, expiryOf) && Allowed(s, op, expiryOf)
    ensures Evolves(BookOf(s), BookOf(Do(s, op)))
  {
    Unmoved(BookOf(s));
    match op
    case StoreV3(c, vetting, current, held, now, source) => StoreV3Evolves(s, c, vetting, current, held || !current, now, source, expiryOf);
    case StorePlain(key, route, vetting, now, source) => PlainKeepsBook(s, key, route, vetting, now, source);
    case RevalidateV3(routeKey, authority, held, now) => RevalidateEvolves(s, routeKey, authority, held, now);
    case WithdrawV3(_) =>
    case PruneV3(now) => PruneLedgerEvolves(s, now);
    case PruneList(_, _) =>
    case Restart(now, minimum) => RestartEvolves(s, now, minimum, expiryOf);
  }

  // ---- runs ----

  ghost function Steps(expiryOf: Expiry): (Store, Store) -> bool {
    (s, t) => exists op :: Allowed(s, op, expiryOf) && t == Do(s, op)
  }

  /** A run: any operations, restarts included, from an empty store. */
  ghost predicate Run(states: seq<Store>, limits: Limits, expiryOf: Expiry) {
    limits.Valid() && Trace(Steps(expiryOf), states) && states[0] == Fresh(limits)
  }

  ghost function Invariant(expiryOf: Expiry): Store -> bool {
    s => Inv(s, expiryOf)
  }

  ghost function Evolving(): (Store, Store) -> bool {
    (s, t) => Evolves(BookOf(s), BookOf(t))
  }

  lemma StepKeeps(s: Store, t: Store, expiryOf: Expiry)
    requires Invariant(expiryOf)(s) && Steps(expiryOf)(s, t)
    ensures Invariant(expiryOf)(t) && Evolving()(s, t)
  {
    var op :| Allowed(s, op, expiryOf) && t == Do(s, op);
    DoKeeps(s, op, expiryOf);
    DoEvolves(s, op, expiryOf);
  }

  lemma EvolvingOrders()
    ensures forall s :: Evolving()(s, s)
    ensures forall s, t, u :: Evolving()(s, t) && Evolving()(t, u) ==> Evolving()(s, u)
  {
    forall s, t, u | Evolving()(s, t) && Evolving()(t, u) ensures Evolving()(s, u) {
      EvolvesTransitive(BookOf(s), BookOf(t), BookOf(u));
    }
  }

  lemma RunKeeps(states: seq<Store>, limits: Limits, expiryOf: Expiry, n: nat)
    requires Run(states, limits, expiryOf) && n < |states|
    ensures Inv(states[n], expiryOf)
  {
    FreshOk(limits, expiryOf);
    forall s, t | Invariant(expiryOf)(s) && Steps(expiryOf)(s, t) ensures Invariant(expiryOf)(t) {
      StepKeeps(s, t, expiryOf);
    }
    Always(Steps(expiryOf), Invariant(expiryOf), states, n);
  }

  lemma RunEvolves(states: seq<Store>, limits: Limits, expiryOf: Expiry, i: nat, j: nat)
    requires Run(states, limits, expiryOf) && i <= j < |states|
    ensures Evolves(BookOf(states[i]), BookOf(states[j]))
  {
    FreshOk(limits, expiryOf);
    forall s, t | Invariant(expiryOf)(s) && Steps(expiryOf)(s, t) ensures Invariant(expiryOf)(t) && Evolving()(s, t) {
      StepKeeps(s, t, expiryOf);
    }
    EvolvingOrders();
    Along(Steps(expiryOf), Invariant(expiryOf), Evolving(), states, i, j);
  }

  /** In every run the consistency errors are unreachable. */
  lemma NeverInconsistent(
    states: seq<Store>, limits: Limits, expiryOf: Expiry, n: nat, c: Candidate, vetting: Vetting, current: bool, now: nat, source: string)
    requires Run(states, limits, expiryOf) && n < |states|
    requires vetting.Verified? ==> Vouched(c.(expires := vetting.until), now, expiryOf)
    ensures Consistent(PutV3(states[n], c, vetting, current, now, source).result)
  {
    RunKeeps(states, limits, expiryOf, n);
    PutV3Keeps(states[n], c, vetting, current, now, source, expiryOf);
  }

  /** A revision identifies a ledger state, across restarts. */
  lemma RevisionsIdentifyLedgers(states: seq<Store>, limits: Limits, expiryOf: Expiry, i: nat, j: nat)
    requires Run(states, limits, expiryOf) && i < |states| && j < |states| && states[i].revision == states[j].revision
    ensures BookOf(states[i]) == BookOf(states[j])
  {
    if i <= j {
      RunEvolves(states, limits, expiryOf, i, j);
    } else {
      RunEvolves(states, limits, expiryOf, j, i);
    }
  }

  /**
    Replay safety of what is served: a route served later in the same scope is never behind one served earlier, nor
    a different one at the same sequence, unless the earlier one's signed life is already pruned away.
   */
  lemma ServedNeverGoesBack(states: seq<Store>, limits: Limits, expiryOf: Expiry, i: nat, j: nat, routeKey: nat, x: StoredRoute, y: StoredRoute)
    requires Run(states, limits, expiryOf) && i <= j < |states|
    requires Served(states[i], routeKey, x, expiryOf) && Served(states[j], routeKey, y, expiryOf) && x.endpointKey == y.endpointKey
    ensures || expiryOf(x.raw) <= states[j].prunedThrough
            || (&& x.endpointSequence <= y.endpointSequence && (x.endpointSequence == y.endpointSequence ==> x.endpointId == y.endpointId)
                && x.sequence <= y.sequence && (x.sequence == y.sequence ==> x.raw == y.raw))
  {
    RunEvolves(states, limits, expiryOf, i, j);
  }

  // ---- after a restart ----

  /** Two stores that may differ in what is live but not in what the ledger knows. */
  ghost predicate SameLedger(s: Store, t: Store) {
    BookOf(s) == BookOf(t)
  }

  /** Refused for want of live room, which is the one thing a restart may change. */
  predicate Full<T>(r: Result<T, Error>) {
    r == Err(Capacity)
  }

  lemma JudgedByLedger(s: Store, t: Store, c: Candidate, current: bool, now: nat, source: string, expiryOf: Expiry)
    requires Judgeable(s, c, now, expiryOf) && Judgeable(t, c, now, expiryOf) && SameLedger(s, t)
    ensures var v := L.Classify(EntryAt(s.ledger, KeyOf(c)), SightingOf(c, now));
            var a, b := InsertJudged(s, c, v, current, now, source), InsertJudged(t, c, v, current, now, source);
            Full(a.result) || Full(b.result) || (SameLedger(a.store, b.store) && SameVerdict(a.result, b.result))
  {
    LiveMatchAgrees(s, c, now, expiryOf);
    LiveMatchAgrees(t, c, now, expiryOf);
    L.NextEntryNeverErrs(EntryAt(s.ledger, KeyOf(c)), SightingOf(c, now));
  }

  predicate SameVerdict<T>(a: Result<T, Error>, b: Result<T, Error>) {
    (a.Ok? <==> b.Ok?) && (a.Err? ==> a.error == b.error)
  }

  lemma PrunesAlike(s: Store, t: Store, c: Candidate, now: nat)
    requires SameLedger(s, t)
    ensures var p, q := PruneLedger(s, now), PruneLedger(t, now);
            && p.result == q.result && SameLedger(p.store, q.store)
            && LedgerPreflight(p.store, c, now) == LedgerPreflight(q.store, c, now)
  {
  }

  /** A restarted store admits and rejects exactly as the running one would have. */
  lemma RestartAdmitsAlike(s: Store, t: Store, c: Candidate, current: bool, now: nat, source: string, expiryOf: Expiry)
    requires Inv(s, expiryOf) && Inv(t, expiryOf) && SameLedger(s, t)
    ensures var a, b := Insert(s, c, current, now, source), Insert(t, c, current, now, source);
            Full(a.result) || Full(b.result) || (SameLedger(a.store, b.store) && SameVerdict(a.result, b.result))
  {
    var p, q := PruneLedger(s, now), PruneLedger(t, now);
    PrunesAlike(s, t, c, now);
    if p.result.Ok? && LedgerPreflight(p.store, c, now).Ok? {
      ReachesJudgement(s, c, now, expiryOf);
      ReachesJudgement(t, c, now, expiryOf);
      JudgedByLedger(PruneKey(p.store, V3(c.routeKey), now), PruneKey(q.store, V3(c.routeKey), now), c, current, now, source, expiryOf);
    }
  }
}
