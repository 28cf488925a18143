/**
  The invariant of the route store, that every operation keeps it, and what follows: live routes and ledger always
  agree, the consistency errors are unreachable, quotas hold, and a restart loses nothing the ledger knew.

  `expiryOf` gives the expiry signed inside a record's bytes; the lemmas hold for any such function.
 */
module RouteStoreInvariants {
  import opened Common
  import opened Tallies
  import opened RouteStores
  import Replay
  import L = ReplayLedger

  type Expiry = nat -> nat

  // ---- the invariant ----

  ghost predicate Distinct(items: seq<StoredRoute>) {
    forall i, j :: 0 <= i < j < |items| ==> items[i].endpointKey != items[j].endpointKey
  }

  /** The entry records exactly this live route, unequivocally, in both dimensions. */
  predicate Matches(e: L.Entry, item: StoredRoute) {
    && e.endpoint == Replay.Counter(item.endpointSequence, false, item.endpointId)
    && e.route == Replay.Counter(item.sequence, false, item.raw)
  }

  /**
    A live route realises both high-waters of its scope and is remembered at least as long as it is signed for,
    or its signed life ended before the ledger was last pruned.
   */
  ghost predicate ItemOk(item: StoredRoute, e: Option<L.Entry>, prunedThrough: nat, expiryOf: Expiry) {
    && item.expires <= expiryOf(item.raw)
    && (expiryOf(item.raw) <= prunedThrough || (e.Some? && Matches(e.value, item) && expiryOf(item.raw) <= e.value.retainUntil))
  }

  ghost predicate LiveListOk(s: Store, routeKey: nat, items: seq<StoredRoute>, expiryOf: Expiry) {
    forall i :: 0 <= i < |items| ==> ItemOk(items[i], EntryAt(s.ledger, LedgerKey(routeKey, items[i].endpointKey)), s.prunedThrough, expiryOf)
  }

  ghost predicate LiveOk(s: Store, expiryOf: Expiry) {
    forall k :: k in s.records && k.model.HrmNamedV3? ==> LiveListOk(s, k.routeKey, s.records[k], expiryOf)
  }

  ghost predicate ListOk(s: Store, items: seq<StoredRoute>) {
    Distinct(items) && |items| <= s.limits.perKey
  }

  ghost predicate ListsOk(s: Store) {
    forall k :: k in s.records ==> s.records[k] != [] && ListOk(s, s.records[k])
  }

  ghost predicate QuotasOk(s: Store) {
    && Size(s.records) <= s.limits.total
    && forall source :: SourceCount(s.records, source) <= s.limits.perSource
  }

  ghost predicate LedgerOk(s: Store) {
    && |s.ledger| <= s.limits.total
    && |s.ledger| <= s.revision < U64_MAX
    && (forall r :: |RouteKeys(s.ledger, r)| <= s.limits.perKey)
    && (s.revision == 0 ==> s.prunedThrough == 0)
    && forall k :: k in s.ledger ==> s.ledger[k].retainUntil > s.prunedThrough && Positive(s.ledger[k])
  }

  /** Verified sequences are never zero. */
  predicate Positive(e: L.Entry) {
    e.endpoint.high > 0 && e.route.high > 0
  }

  ghost predicate Inv(s: Store, expiryOf: Expiry) {
    s.limits.Valid() && ListsOk(s) && LiveOk(s, expiryOf) && QuotasOk(s) && LedgerOk(s)
  }

  lemma FreshOk(limits: Limits, expiryOf: Expiry)
    requires limits.Valid()
    ensures Inv(Fresh(limits), expiryOf)
  {
    assert forall r :: RouteKeys(Fresh(limits).ledger, r) == {};
  }

  /** What verification guarantees about a candidate. */
  ghost predicate Vouched(c: Candidate, now: nat, expiryOf: Expiry) {
    && c.signedExpiry == expiryOf(c.raw) && now < c.signedExpiry && c.expires <= c.signedExpiry
    && 0 < c.endpointSequence && 0 < c.sequence
  }

  // ---- lists ----

  lemma {:induction false} UnexpiredIs(items: seq<StoredRoute>, now: nat)
    ensures forall i :: 0 <= i < |Unexpired(items, now)| ==> Unexpired(items, now)[i] in items && Unexpired(items, now)[i].expires > now
    ensures |Unexpired(items, now)| <= |items|
    ensures Distinct(items) ==> Distinct(Unexpired(items, now))
  {
    if items != [] {
      UnexpiredIs(items[..|items| - 1], now);
    }
  }

  lemma {:induction false} UnexpiredSources(items: seq<StoredRoute>, now: nat, source: string)
    ensures FromSource(Unexpired(items, now), source) <= FromSource(items, source)
  {
    if items != [] {
      UnexpiredSources(items[..|items| - 1], now, source);
      AppendSources(Unexpired(items[..|items| - 1], now), items[|items| - 1], source);
    }
  }

  lemma AppendSources(items: seq<StoredRoute>, x: StoredRoute, source: string)
    ensures FromSource(items + [x], source) == FromSource(items, source) + if x.source == source then 1 else 0
  {
    assert (items + [x])[..|items|] == items;
  }

  lemma {:induction false} RemoveAtSources(items: seq<StoredRoute>, i: nat, source: string)
    requires i < |items|
    ensures FromSource(RemoveAt(items, i), source) == FromSource(items, source) - if items[i].source == source then 1 else 0
    ensures items[i].source == source ==> FromSource(items, source) > 0
  {
    var n := |items| - 1;
    if i == n {
      assert RemoveAt(items, i) == items[..n];
    } else {
      RemoveAtSources(items[..n], i, source);
      assert RemoveAt(items, i) == RemoveAt(items[..n], i) + [items[n]];
      AppendSources(RemoveAt(items[..n], i), items[n], source);
    }
  }

  lemma {:induction false} UpdateSources(items: seq<StoredRoute>, i: nat, x: StoredRoute, source: string)
    requires i < |items| && x.source == items[i].source
    ensures FromSource(items[i := x], source) == FromSource(items, source)
  {
    var n := |items| - 1;
    if i == n {
      assert items[i := x][..n] == items[..n];
    } else {
      assert items[i := x][..n] == items[..n][i := x];
      UpdateSources(items[..n], i, x, source);
    }
  }

  /** `x` is `y` with its cache bound renewed by current authority. */
  predicate Renews(x: StoredRoute, y: StoredRoute, authority: Authority) {
    authority(y.raw).Some? && x == y.(expires := authority(y.raw).value, currentVerified := true)
  }

  /** The revalidated list keeps some of the routes, renewing nothing but their cache bound. */
  lemma {:induction false} RevalidatedIs(items: seq<StoredRoute>, authority: Authority, i: nat) returns (j: nat)
    requires i < |Revalidated(items, authority)|
    ensures j < |items| && Renews(Revalidated(items, authority)[i], items[j], authority)
  {
    var n := |items| - 1;
    if i < |Revalidated(items[..n], authority)| {
      j := RevalidatedIs(items[..n], authority, i);
    } else {
      j := n;
    }
  }

  lemma AppendDistinct(items: seq<StoredRoute>, x: StoredRoute)
    requires Distinct(items) && forall i :: 0 <= i < |items| ==> items[i].endpointKey != x.endpointKey
    ensures Distinct(items + [x])
  {
  }

  lemma {:induction false} RevalidatedDistinct(items: seq<StoredRoute>, authority: Authority)
    requires Distinct(items)
    ensures Distinct(Revalidated(items, authority))
  {
    if items != [] {
      var n := |items| - 1;
      var front := Revalidated(items[..n], authority);
      RevalidatedDistinct(items[..n], authority);
      forall i: nat | i < |front| ensures front[i].endpointKey != items[n].endpointKey {
        var j := RevalidatedIs(items[..n], authority, i);
      }
      AppendDistinct(front, items[n]);
    }
  }

  lemma {:induction false} RevalidatedCounts(items: seq<StoredRoute>, authority: Authority, source: string)
    ensures |Revalidated(items, authority)| <= |items|
    ensures FromSource(Revalidated(items, authority), source) <= FromSource(items, source)
  {
    if items != [] {
      var n := |items| - 1;
      RevalidatedCounts(items[..n], authority, source);
      if authority(items[n].raw).Some? {
        AppendSources(Revalidated(items[..n], authority), items[n].(expires := authority(items[n].raw).value, currentVerified := true), source);
      }
    }
  }

  // ---- replacing one list ----

  lemma PutCounts(records: map<StoreKey, seq<StoredRoute>>, key: StoreKey, items: seq<StoredRoute>, source: string)
    ensures Size(Put(records, key, items)) == Size(records) - |At(records, key)| + |items|
    ensures SourceCount(Put(records, key, items), source) == SourceCount(records, source) - FromSource(At(records, key), source) + FromSource(items, source)
  {
    SumPut(records, key, items, (xs: seq<StoredRoute>) => |xs|);
    SumPut(records, key, items, (xs: seq<StoredRoute>) => FromSource(xs, source));
  }

  /** A list is counted in the whole. */
  lemma AtCounts(records: map<StoreKey, seq<StoredRoute>>, key: StoreKey, source: string)
    ensures |At(records, key)| <= Size(records) && FromSource(At(records, key), source) <= SourceCount(records, source)
  {
    PutCounts(records, key, [], source);
  }

  lemma PutListKeeps(s: Store, key: StoreKey, items: seq<StoredRoute>, expiryOf: Expiry)
    requires s.limits.Valid() && ListsOk(s) && LiveOk(s, expiryOf) && ListOk(s, items)
    requires key.model.HrmNamedV3? ==> LiveListOk(s, key.routeKey, items, expiryOf)
    ensures ListsOk(s.(records := Put(s.records, key, items))) && LiveOk(s.(records := Put(s.records, key, items)), expiryOf)
  {
    var t := s.(records := Put(s.records, key, items));
    forall k | k in t.records && k.model.HrmNamedV3? ensures LiveListOk(t, k.routeKey, t.records[k], expiryOf) {
      assert k != key ==> LiveListOk(s, k.routeKey, s.records[k], expiryOf);
    }
  }

  lemma ShrinkQuotas(s: Store, key: StoreKey, items: seq<StoredRoute>)
    requires QuotasOk(s) && |items| <= |At(s.records, key)|
    requires forall source :: FromSource(items, source) <= FromSource(At(s.records, key), source)
    ensures QuotasOk(s.(records := Put(s.records, key, items)))
  {
    PutCounts(s.records, key, items, "");
    forall source ensures SourceCount(Put(s.records, key, items), source) <= s.limits.perSource {
      PutCounts(s.records, key, items, source);
    }
  }

  /** Replacing a list by one that counts no more, per source and in all, keeps the invariant. */
  lemma ShrinkKeeps(s: Store, key: StoreKey, items: seq<StoredRoute>, expiryOf: Expiry)
    requires Inv(s, expiryOf) && Distinct(items) && |items| <= |At(s.records, key)|
    requires forall source :: FromSource(items, source) <= FromSource(At(s.records, key), source)
    requires key.model.HrmNamedV3? ==> LiveListOk(s, key.routeKey, items, expiryOf)
    ensures Inv(s.(records := Put(s.records, key, items)), expiryOf)
  {
    AtLiveOk(s, key, expiryOf);
    PutListKeeps(s, key, items, expiryOf);
    ShrinkQuotas(s, key, items);
  }

  lemma AtLiveOk(s: Store, key: StoreKey, expiryOf: Expiry)
    requires Inv(s, expiryOf)
    ensures ListOk(s, At(s.records, key))
    ensures key.model.HrmNamedV3? ==> LiveListOk(s, key.routeKey, At(s.records, key), expiryOf)
  {
  }

  lemma PruneKeyKeeps(s: Store, key: StoreKey, now: nat, expiryOf: Expiry)
    requires Inv(s, expiryOf)
    ensures Inv(PruneKey(s, key, now), expiryOf)
    ensures forall i :: 0 <= i < |At(PruneKey(s, key, now).records, key)| ==> At(PruneKey(s, key, now).records, key)[i].expires > now
  {
    var items := At(s.records, key);
    AtLiveOk(s, key, expiryOf);
    UnexpiredIs(items, now);
    forall source ensures FromSource(Unexpired(items, now), source) <= FromSource(items, source) {
      UnexpiredSources(items, now, source);
    }
    ShrinkKeeps(s, key, Unexpired(items, now), expiryOf);
  }

  lemma WithdrawKeeps(s: Store, routeKey: nat, expiryOf: Expiry)
    requires Inv(s, expiryOf)
    ensures Inv(Withdraw(s, routeKey), expiryOf)
    ensures At(Withdraw(s, routeKey).records, V3(routeKey)) == [] && Withdraw(s, routeKey).ledger == s.ledger
  {
    ShrinkKeeps(s, V3(routeKey), [], expiryOf);
  }

  // ---- pruning the ledger ----

  lemma RetainedCounts(ledger: map<LedgerKey, L.Entry>, now: nat, routeKey: nat)
    ensures |Retained(ledger, now)| + |Lapsed(ledger, now)| == |ledger|
    ensures |RouteKeys(Retained(ledger, now), routeKey)| <= |RouteKeys(ledger, routeKey)|
  {
    var kept := Retained(ledger, now);
    assert ledger.Keys == kept.Keys + Lapsed(ledger, now);
    assert |ledger.Keys| == |ledger| && |kept.Keys| == |kept|;
    Subset(RouteKeys(kept, routeKey), RouteKeys(ledger, routeKey));
  }

  lemma PruneLedgerLive(s: Store, now: nat, expiryOf: Expiry)
    requires LiveOk(s, expiryOf)
    ensures LiveOk(PruneLedger(s, now).store, expiryOf)
  {
    var t := PruneLedger(s, now).store;
    forall k | k in t.records && k.model.HrmNamedV3? ensures LiveListOk(t, k.routeKey, t.records[k], expiryOf) {
      assert LiveListOk(s, k.routeKey, s.records[k], expiryOf);
    }
  }

  lemma PruneLedgerKeeps(s: Store, now: nat, expiryOf: Expiry)
    requires Inv(s, expiryOf)
    ensures Inv(PruneLedger(s, now).store, expiryOf)
    ensures PruneLedger(s, now).result.Ok? ==> PruneLedger(s, now).store.prunedThrough <= now
  {
    var t := PruneLedger(s, now).store;
    PruneLedgerLive(s, now, expiryOf);
    if t != s {
      RetainedCounts(s.ledger, now, 0);
      forall r ensures |RouteKeys(t.ledger, r)| <= s.limits.perKey {
        RetainedCounts(s.ledger, now, r);
      }
    }
  }

  // ---- insertion ----

  /** After both prunings every remaining live route realises its ledger entry. */
  lemma PrunedMatches(s: Store, routeKey: nat, now: nat, expiryOf: Expiry, i: nat)
    requires Inv(s, expiryOf) && s.prunedThrough <= now && i < |At(s.records, V3(routeKey))|
    requires At(s.records, V3(routeKey))[i].expires > now
    ensures var item := At(s.records, V3(routeKey))[i];
            var k := LedgerKey(routeKey, item.endpointKey);
            k in s.ledger && Matches(s.ledger[k], item) && expiryOf(item.raw) <= s.ledger[k].retainUntil
  {
    AtLiveOk(s, V3(routeKey), expiryOf);
  }

  /** The live side never disagrees with the ledger's verdict. */
  lemma LiveMatchAgrees(s: Store, c: Candidate, now: nat, expiryOf: Expiry)
    requires Inv(s, expiryOf) && s.prunedThrough <= now
    requires forall i :: 0 <= i < |At(s.records, V3(c.routeKey))| ==> At(s.records, V3(c.routeKey))[i].expires > now
    ensures var v := L.Classify(EntryAt(s.ledger, KeyOf(c)), SightingOf(c, now));
            var a := LiveMatch(At(s.records, V3(c.routeKey)), c, v);
            a.Ok? && (a.value.Accepts() <==> v.MatchesFinal())
  {
    var items := At(s.records, V3(c.routeKey));
    var previous := FindEndpoint(items, c.endpointKey);
    if previous.Some? {
      PrunedMatches(s, c.routeKey, now, expiryOf, previous.value);
    }
  }

  predicate Consistent<T>(r: Result<T, Error>) {
    r.Err? ==> !r.error.Inconsistent? && r.error != Rejected(L.Incomplete)
  }

  /** The state in which an insertion is judged. */
  ghost predicate Judgeable(s: Store, c: Candidate, now: nat, expiryOf: Expiry) {
    && Inv(s, expiryOf) && s.prunedThrough <= now
    && (forall i :: 0 <= i < |At(s.records, V3(c.routeKey))| ==> At(s.records, V3(c.routeKey))[i].expires > now)
    && (KeyOf(c) !in s.ledger ==> |s.ledger| < s.limits.total && |RouteKeys(s.ledger, c.routeKey)| < s.limits.perKey)
  }

  lemma ReachesJudgement(s: Store, c: Candidate, now: nat, expiryOf: Expiry)
    requires Inv(s, expiryOf) && PruneLedger(s, now).result.Ok? && LedgerPreflight(PruneLedger(s, now).store, c, now).Ok?
    ensures Judgeable(PruneKey(PruneLedger(s, now).store, V3(c.routeKey), now), c, now, expiryOf)
  {
    PruneLedgerKeeps(s, now, expiryOf);
    PruneKeyKeeps(PruneLedger(s, now).store, V3(c.routeKey), now, expiryOf);
  }

  /** A route that agrees with the ledger as it will be once `next` is written for the candidate's scope. */
  ghost predicate ItemAgrees(s: Store, c: Candidate, next: L.Entry, item: StoredRoute, expiryOf: Expiry) {
    ItemOk(item, if item.endpointKey == c.endpointKey then Some(next) else EntryAt(s.ledger, LedgerKey(c.routeKey, item.endpointKey)),
           s.prunedThrough, expiryOf)
  }

  /** The list an action leaves agrees with the entry that is about to be written. */
  lemma AppliedLive(s: Store, c: Candidate, a: LiveAction, currentVerified: bool, now: nat, source: string, expiryOf: Expiry)
    requires Judgeable(s, c, now, expiryOf) && Vouched(c, now, expiryOf)
    requires var v := L.Classify(EntryAt(s.ledger, KeyOf(c)), SightingOf(c, now));
             LiveMatch(At(s.records, V3(c.routeKey)), c, v) == Ok(a)
    ensures var next := L.Observe(EntryAt(s.ledger, KeyOf(c)), SightingOf(c, now));
            var items := Applied(At(s.records, V3(c.routeKey)), a, c, currentVerified, source);
            forall i :: 0 <= i < |items| ==> ItemAgrees(s, c, next, items[i], expiryOf)
  {
    hide L.Observe, L.Classify, Vouched;
    var o := SightingOf(c, now);
    var next := L.Observe(EntryAt(s.ledger, KeyOf(c)), o);
    var was := At(s.records, V3(c.routeKey));
    var items := Applied(was, a, c, currentVerified, source);
    AtLiveOk(s, V3(c.routeKey), expiryOf);
    forall i | 0 <= i < |items| ensures ItemAgrees(s, c, next, items[i], expiryOf) {
      if items[i].endpointKey == c.endpointKey {
        if a.New? || a.Replace? {
          NewItemAgrees(s, c, currentVerified, now, source, expiryOf);
        } else {
          KeptItemAgrees(s, c, a, currentVerified, now, expiryOf);
        }
      }
    }
  }

  lemma NewItemAgrees(s: Store, c: Candidate, currentVerified: bool, now: nat, source: string, expiryOf: Expiry)
    requires Vouched(c, now, expiryOf)
    requires L.Classify(EntryAt(s.ledger, KeyOf(c)), SightingOf(c, now)).MatchesFinal()
    ensures ItemAgrees(s, c, L.Observe(EntryAt(s.ledger, KeyOf(c)), SightingOf(c, now)), ItemFor(c, currentVerified, source), expiryOf)
  {
    L.AcceptedIff(EntryAt(s.ledger, KeyOf(c)), SightingOf(c, now));
    if KeyOf(c) in s.ledger {
      KeptCounters(s.ledger[KeyOf(c)], SightingOf(c, now));
    }
  }

  /** An endpoint's own live route, when it is refreshed or kept. */
  lemma KeptItemAgrees(s: Store, c: Candidate, a: LiveAction, currentVerified: bool, now: nat, expiryOf: Expiry)
    requires Judgeable(s, c, now, expiryOf) && Vouched(c, now, expiryOf) && (a.Refresh? || a.KeepRejected?)
    requires var v := L.Classify(EntryAt(s.ledger, KeyOf(c)), SightingOf(c, now));
             LiveMatch(At(s.records, V3(c.routeKey)), c, v) == Ok(a)
    ensures var next := L.Observe(EntryAt(s.ledger, KeyOf(c)), SightingOf(c, now));
            var items := At(s.records, V3(c.routeKey));
            && (a.Refresh? ==> ItemAgrees(s, c, next, Refreshed(items[a.index], c, currentVerified), expiryOf))
            && forall i :: 0 <= i < |items| && items[i].endpointKey == c.endpointKey ==> ItemAgrees(s, c, next, items[i], expiryOf)
  {
    KeptCounters(s.ledger[KeyOf(c)], SightingOf(c, now));
    L.ChangesIff(s.ledger[KeyOf(c)], SightingOf(c, now));
    var items := At(s.records, V3(c.routeKey));
    forall i: nat | i < |items| && items[i].endpointKey == c.endpointKey
      ensures Matches(s.ledger[KeyOf(c)], items[i]) && expiryOf(items[i].raw) <= s.ledger[KeyOf(c)].retainUntil
    {
      PrunedMatches(s, c.routeKey, now, expiryOf, i);
    }
    AtLiveOk(s, V3(c.routeKey), expiryOf);
  }

  /** At most one route per endpoint, whatever the action. */
  lemma AppliedDistinct(items: seq<StoredRoute>, a: LiveAction, c: Candidate, v: L.Verdict, currentVerified: bool, source: string)
    requires Distinct(items) && LiveMatch(items, c, v) == Ok(a)
    ensures Distinct(Applied(items, a, c, currentVerified, source))
    ensures a.RemoveRejected? ==> forall x :: x in Applied(items, a, c, currentVerified, source) ==> x.endpointKey != c.endpointKey
  {
  }

  lemma KeptCounters(e: L.Entry, o: L.Sighting)
    ensures !L.Classify(Some(e), o).Mutates() ==>
              L.Observe(Some(e), o).endpoint == e.endpoint && L.Observe(Some(e), o).route == e.route
    ensures o.retainUntil <= L.Observe(Some(e), o).retainUntil
  {
  }

  lemma LedgerUpdateCounts(ledger: map<LedgerKey, L.Entry>, k: LedgerKey, e: L.Entry, r: nat)
    ensures k in ledger ==> |ledger[k := e]| == |ledger| && RouteKeys(ledger[k := e], r) == RouteKeys(ledger, r)
    ensures k !in ledger ==> |ledger[k := e]| == |ledger| + 1
    ensures k !in ledger ==> |RouteKeys(ledger[k := e], r)| == |RouteKeys(ledger, r)| + if r == k.routeKey then 1 else 0
  {
    var n := ledger[k := e];
    assert |n.Keys| == |n| && |ledger.Keys| == |ledger|;
    if k in ledger {
      assert n.Keys == ledger.Keys;
      assert RouteKeys(n, r) == RouteKeys(ledger, r);
    } else {
      assert n.Keys == ledger.Keys + {k};
      if r == k.routeKey {
        assert RouteKeys(n, r) == RouteKeys(ledger, r) + {k};
      } else {
        assert RouteKeys(n, r) == RouteKeys(ledger, r);
      }
    }
  }

  /** Writing the entry and the list together. */
  lemma CommittedLive(s: Store, c: Candidate, next: L.Entry, items: seq<StoredRoute>, expiryOf: Expiry)
    requires ListsOk(s) && LiveOk(s, expiryOf) && ListOk(s, items)
    requires forall i :: 0 <= i < |items| ==> ItemAgrees(s, c, next, items[i], expiryOf)
    ensures ListsOk(Committed(s, c, next, items)) && LiveOk(Committed(s, c, next, items), expiryOf)
  {
    var t := Committed(s, c, next, items);
    forall k | k in t.records && k.model.HrmNamedV3? ensures LiveListOk(t, k.routeKey, t.records[k], expiryOf) {
      if k.routeKey != c.routeKey {
        assert LiveListOk(s, k.routeKey, s.records[k], expiryOf);
      }
    }
  }

  lemma CommittedLedger(s: Store, c: Candidate, next: L.Entry, items: seq<StoredRoute>)
    requires LedgerOk(s) && s.prunedThrough < next.retainUntil && Positive(next)
    requires KeyOf(c) !in s.ledger ==> |s.ledger| < s.limits.total && |RouteKeys(s.ledger, c.routeKey)| < s.limits.perKey
    requires EntryAt(s.ledger, KeyOf(c)) == Some(next) || NextRevision(s.revision).Ok?
    ensures LedgerOk(Committed(s, c, next, items))
  {
    forall r ensures |RouteKeys(Committed(s, c, next, items).ledger, r)| <= s.limits.perKey {
      LedgerUpdateCounts(s.ledger, KeyOf(c), next, r);
    }
    LedgerUpdateCounts(s.ledger, KeyOf(c), next, 0);
  }

  /** How an action moves the counts. */
  lemma AppliedCounts(items: seq<StoredRoute>, a: LiveAction, c: Candidate, currentVerified: bool, from: string, source: string)
    requires (a.Replace? || a.Refresh?) ==> a.index < |items|
    requires a.RemoveRejected? && a.at.Some? ==> a.at.value < |items|
    ensures var after := Applied(items, a, c, currentVerified, from);
            && |after| <= |items| + (if a.New? then 1 else 0)
            && FromSource(after, source) <= FromSource(items, source)
                 + (if (a.New? || (a.Replace? && items[a.index].source != from)) && source == from then 1 else 0)
  {
    match a
    case New => AppendSources(items, ItemFor(c, currentVerified, from), source);
    case Replace(i) =>
      RemoveAtSources(items, i, source);
      AppendSources(RemoveAt(items, i), ItemFor(c, currentVerified, from), source);
    case Refresh(i) => UpdateSources(items, i, Refreshed(items[i], c, currentVerified), source);
    case RemoveRejected(at) => if at.Some? { RemoveAtSources(items, at.value, source); }
    case KeepRejected =>
  }

  lemma CommittedQuotas(s: Store, c: Candidate, next: L.Entry, a: LiveAction, currentVerified: bool, from: string)
    requires QuotasOk(s) && Fits(s, c, from, a)
    requires (a.Replace? || a.Refresh?) ==> a.index < |At(s.records, V3(c.routeKey))|
    requires a.RemoveRejected? && a.at.Some? ==> a.at.value < |At(s.records, V3(c.routeKey))|
    ensures QuotasOk(Committed(s, c, next, Applied(At(s.records, V3(c.routeKey)), a, c, currentVerified, from)))
  {
    var items := At(s.records, V3(c.routeKey));
    var after := Applied(items, a, c, currentVerified, from);
    PutCounts(s.records, V3(c.routeKey), after, "");
    AppliedCounts(items, a, c, currentVerified, from, "");
    forall source
      ensures SourceCount(Put(s.records, V3(c.routeKey), after), source) <= s.limits.perSource
    {
      PutCounts(s.records, V3(c.routeKey), after, source);
      AppliedCounts(items, a, c, currentVerified, from, source);
    }
  }

  /** Whatever a judged insertion writes keeps the invariant. */
  lemma CommittedKeeps(s: Store, c: Candidate, a: LiveAction, currentVerified: bool, now: nat, source: string, expiryOf: Expiry)
    requires Judgeable(s, c, now, expiryOf) && Vouched(c, now, expiryOf) && Fits(s, c, source, a)
    requires var v := L.Classify(EntryAt(s.ledger, KeyOf(c)), SightingOf(c, now));
             LiveMatch(At(s.records, V3(c.routeKey)), c, v) == Ok(a)
    requires var next := L.Observe(EntryAt(s.ledger, KeyOf(c)), SightingOf(c, now));
             EntryAt(s.ledger, KeyOf(c)) == Some(next) || NextRevision(s.revision).Ok?
    ensures Inv(Committed(s, c, L.Observe(EntryAt(s.ledger, KeyOf(c)), SightingOf(c, now)),
                          Applied(At(s.records, V3(c.routeKey)), a, c, currentVerified, source)), expiryOf)
  {
    var items := At(s.records, V3(c.routeKey));
    var after := Applied(items, a, c, currentVerified, source);
    var next := L.Observe(EntryAt(s.ledger, KeyOf(c)), SightingOf(c, now));
    AtLiveOk(s, V3(c.routeKey), expiryOf);
    AppliedDistinct(items, a, c, L.Classify(EntryAt(s.ledger, KeyOf(c)), SightingOf(c, now)), currentVerified, source);
    AppliedCounts(items, a, c, currentVerified, source, source);
    AppliedLive(s, c, a, currentVerified, now, source, expiryOf);
    CommittedLive(s, c, next, after, expiryOf);
    RetainedBeyond(EntryAt(s.ledger, KeyOf(c)), SightingOf(c, now));
    CommittedLedger(s, c, next, after);
    CommittedQuotas(s, c, next, a, currentVerified, source);
  }

  lemma RetainedBeyond(previous: Option<L.Entry>, o: L.Sighting)
    ensures o.retainUntil <= L.Observe(previous, o).retainUntil
    ensures o.endpoint.sequence <= L.Observe(previous, o).endpoint.high && o.route.sequence <= L.Observe(previous, o).route.high
  {
  }

  /** A judged insertion keeps the invariant and raises no consistency error. */
  lemma InsertJudgedKeeps(s: Store, c: Candidate, currentVerified: bool, now: nat, source: string, expiryOf: Expiry)
    requires Judgeable(s, c, now, expiryOf) && Vouched(c, now, expiryOf)
    ensures var v := L.Classify(EntryAt(s.ledger, KeyOf(c)), SightingOf(c, now));
            var e := InsertJudged(s, c, v, currentVerified, now, source);
            Inv(e.store, expiryOf) && Consistent(e.result)
  {
    var previous := EntryAt(s.ledger, KeyOf(c));
    var o := SightingOf(c, now);
    LiveMatchAgrees(s, c, now, expiryOf);
    L.NextEntryNeverErrs(previous, o);
    var a := LiveMatch(At(s.records, V3(c.routeKey)), c, L.Classify(previous, o)).value;
    if Fits(s, c, source, a) && (previous == Some(L.Observe(previous, o)) || NextRevision(s.revision).Ok?) {
      CommittedKeeps(s, c, a, currentVerified, now, source, expiryOf);
    }
  }

  lemma InsertKeeps(s: Store, c: Candidate, currentVerified: bool, now: nat, source: string, expiryOf: Expiry)
    requires Inv(s, expiryOf) && Vouched(c, now, expiryOf)
    ensures Inv(Insert(s, c, currentVerified, now, source).store, expiryOf) && Consistent(Insert(s, c, currentVerified, now, source).result)
  {
    PruneLedgerKeeps(s, now, expiryOf);
    var p := PruneLedger(s, now);
    if p.result.Ok? && LedgerPreflight(p.store, c, now).Ok? {
      ReachesJudgement(s, c, now, expiryOf);
      InsertJudgedKeeps(PruneKey(p.store, V3(c.routeKey), now), c, currentVerified, now, source, expiryOf);
    }
  }

  lemma PreflightLiveConsistent(s: Store, c: Candidate, now: nat, source: string, expiryOf: Expiry)
    requires Judgeable(s, c, now, expiryOf)
    ensures var e := PreflightLive(s, c, source, L.Classify(EntryAt(s.ledger, KeyOf(c)), SightingOf(c, now)));
            e.store == s && Consistent(e.result)
  {
    LiveMatchAgrees(s, c, now, expiryOf);
  }

  /** The cheap checks on unverified input prune and nothing more. */
  lemma PreflightOnlyPrunes(s: Store, c: Candidate, now: nat, source: string, expiryOf: Expiry)
    requires Inv(s, expiryOf)
    ensures var e := PreflightUntrusted(s, c, now, source);
            && Inv(e.store, expiryOf) && Consistent(e.result)
            && (e.store == PruneLedger(s, now).store || e.store == PruneKey(PruneLedger(s, now).store, V3(c.routeKey), now))
  {
    PruneLedgerKeeps(s, now, expiryOf);
    var p := PruneLedger(s, now);
    if p.result.Ok? && LedgerPreflight(p.store, c, now).Ok? {
      ReachesJudgement(s, c, now, expiryOf);
      L.NextEntryNeverErrs(EntryAt(p.store.ledger, KeyOf(c)), SightingOf(c, now));
      PreflightLiveConsistent(PruneKey(p.store, V3(c.routeKey), now), c, now, source, expiryOf);
    }
  }

  lemma PutV3Keeps(s: Store, c: Candidate, vetting: Vetting, currentVerified: bool, now: nat, source: string, expiryOf: Expiry)
    requires Inv(s, expiryOf) && (vetting.Verified? ==> Vouched(c.(expires := vetting.until), now, expiryOf))
    ensures Inv(PutV3(s, c, vetting, currentVerified, now, source).store, expiryOf)
    ensures Consistent(PutV3(s, c, vetting, currentVerified, now, source).result)
  {
    hide PreflightUntrusted, Insert, Inv, Vouched;
    PreflightOnlyPrunes(s, c.(expires := c.signedExpiry), now, source, expiryOf);
    var p := PreflightUntrusted(s, c.(expires := c.signedExpiry), now, source);
    if vetting.Verified? {
      InsertKeeps(p.store, c.(expires := vetting.until), currentVerified, now, source, expiryOf);
    }
  }

  // ---- the older models ----

  lemma AppendQuotas(s: Store, key: StoreKey, kept: seq<StoredRoute>, x: StoredRoute)
    requires QuotasOk(s) && |kept| <= |At(s.records, key)|
    requires forall source :: FromSource(kept, source) <= FromSource(At(s.records, key), source)
    requires Size(s.records) - |At(s.records, key)| + |kept| < s.limits.total
    requires SourceCount(s.records, x.source) - FromSource(At(s.records, key), x.source) + FromSource(kept, x.source) < s.limits.perSource
    ensures QuotasOk(s.(records := Put(s.records, key, kept + [x])))
  {
    PutCounts(s.records, key, kept + [x], "");
    forall source ensures SourceCount(Put(s.records, key, kept + [x]), source) <= s.limits.perSource {
      PutCounts(s.records, key, kept + [x], source);
      AppendSources(kept, x, source);
    }
  }

  lemma PlainCommitKeeps(p: Store, key: StoreKey, r: PlainRoute, source: string, expiryOf: Expiry)
    requires Inv(p, expiryOf) && !key.model.HrmNamedV3? && PlainPreflight(p, key, r, source).Ok?
    ensures var kept := Without(At(p.records, key), PlainPreflight(p, key, r, source).value);
            Inv(p.(records := Put(p.records, key, kept + [PlainItem(r, source)])), expiryOf)
  {
    var items := At(p.records, key);
    var at := PlainPreflight(p, key, r, source).value;
    AtLiveOk(p, key, expiryOf);
    AtCounts(p.records, key, source);
    assert SourceCount(p.records, source) <= p.limits.perSource;
    if at.Some? {
      forall from ensures FromSource(RemoveAt(items, at.value), from) <= FromSource(items, from) {
        RemoveAtSources(items, at.value, from);
      }
      RemoveAtSources(items, at.value, source);
    }
    AppendDistinct(Without(items, at), PlainItem(r, source));
    PutListKeeps(p, key, Without(items, at) + [PlainItem(r, source)], expiryOf);
    AppendQuotas(p, key, Without(items, at), PlainItem(r, source));
  }

  lemma PutPlainKeeps(s: Store, key: StoreKey, r: PlainRoute, vetting: Vetting, now: nat, source: string, expiryOf: Expiry)
    requires Inv(s, expiryOf) && !key.model.HrmNamedV3?
    ensures Inv(PutPlain(s, key, r, vetting, now, source).store, expiryOf)
  {
    var p := PruneKey(s, key, now);
    PruneKeyKeeps(s, key, now, expiryOf);
    if PlainPreflight(p, key, r, source).Ok? {
      PlainCommitKeeps(p, key, r, source, expiryOf);
    }
  }

  // ---- revalidation ----

  /** Current authority may shorten or renew a cache bound, never beyond what the record was signed for. */
  ghost predicate Sound(authority: Authority, expiryOf: Expiry) {
    forall raw :: authority(raw).Some? ==> authority(raw).value <= expiryOf(raw)
  }

  lemma RevalidatedLive(s: Store, routeKey: nat, items: seq<StoredRoute>, authority: Authority, expiryOf: Expiry)
    requires LiveListOk(s, routeKey, items, expiryOf) && Sound(authority, expiryOf)
    ensures LiveListOk(s, routeKey, Revalidated(items, authority), expiryOf)
  {
    var after := Revalidated(items, authority);
    forall i: nat | i < |after|
      ensures ItemOk(after[i], EntryAt(s.ledger, LedgerKey(routeKey, after[i].endpointKey)), s.prunedThrough, expiryOf)
    {
      var j := RevalidatedIs(items, authority, i);
      assert ItemOk(items[j], EntryAt(s.ledger, LedgerKey(routeKey, items[j].endpointKey)), s.prunedThrough, expiryOf);
    }
  }

  lemma RevalidateKeeps(s: Store, routeKey: nat, authority: Authority, now: nat, expiryOf: Expiry)
    requires Inv(s, expiryOf) && Sound(authority, expiryOf)
    ensures Inv(Revalidate(s, routeKey, authority, now).store, expiryOf)
  {
    PruneLedgerKeeps(s, now, expiryOf);
    var p := PruneLedger(s, now).store;
    var items := At(p.records, V3(routeKey));
    AtLiveOk(p, V3(routeKey), expiryOf);
    RevalidatedLive(p, routeKey, items, authority, expiryOf);
    RevalidatedDistinct(items, authority);
    RevalidatedCounts(items, authority, "");
    forall source ensures FromSource(Revalidated(items, authority), source) <= FromSource(items, source) {
      RevalidatedCounts(items, authority, source);
    }
    ShrinkKeeps(p, V3(routeKey), Revalidated(items, authority), expiryOf);
  }

  // ---- restoring ----

  lemma RestoreKeeps(s: Store, image: Snapshot, now: nat, minimumRevision: nat, expiryOf: Expiry)
    requires s.limits.Valid() && Inv(s, expiryOf) && SnapshotOk(image)
    ensures Inv(Restore(s, image, now, minimumRevision).store, expiryOf)
  {
    var t := Restore(s, image, now, minimumRevision).store;
    if t != s {
      RetainedCounts(image.ledger, now, 0);
      forall r ensures |RouteKeys(t.ledger, r)| <= s.limits.perKey {
        RetainedCounts(image.ledger, now, r);
      }
    }
  }

  /** What decoding a snapshot has checked. */
  ghost predicate SnapshotOk(image: Snapshot) {
    && |image.ledger| <= image.revision < U64_MAX
    && (forall r :: |RouteKeys(image.ledger, r)| <= image.perKey)
    && (image.revision == 0 ==> image.prunedThrough == 0)
    && forall k :: k in image.ledger ==> image.ledger[k].retainUntil > image.prunedThrough && Positive(image.ledger[k])
  }

  lemma CapturedOk(s: Store, expiryOf: Expiry)
    requires Inv(s, expiryOf)
    ensures SnapshotOk(Capture(s))
  {
  }

  /**
    Restart refines running: restoring what a store captured, into a fresh store at `now`, gives the same ledger,
    revision, prune floor and error as pruning that store at `now`. Only the live routes are gone.
   */
  lemma RestartRefines(s: Store, now: nat, minimumRevision: nat, expiryOf: Expiry)
    requires Inv(s, expiryOf) && minimumRevision <= s.revision
    ensures var r := Restore(Fresh(s.limits), Capture(s), now, minimumRevision);
            var p := PruneLedger(s, now);
            && (r.result.Ok? <==> p.result.Ok?) && (r.result.Err? ==> r.result.error == p.result.error)
            && (r.result.Ok? ==> r.store == p.store.(records := map[]))
  {
    RetainedCounts(s.ledger, now, 0);
    if Lapsed(s.ledger, now) == {} {
      assert forall k :: k in s.ledger ==> k !in Lapsed(s.ledger, now);
      assert Retained(s.ledger, now) == s.ledger;
    }
  }
}
