/**
  The route store as the program keeps it: the maps of the specification plus the counters derived from them,
  updated in place. Every method is proved to keep the counters exact and to do what the specification says.
 */
module RouteStoreObjects {
  import opened Common
  import opened Tallies
  import opened RouteStores
  import opened RouteStoreInvariants
  import opened RouteLives
  import L = ReplayLedger

  // ---- loops over one list ----

  lemma HeadSources(items: seq<StoredRoute>, source: string)
    requires items != []
    ensures FromSource(items, source) == FromSource(items[1..], source) + if items[0].source == source then 1 else 0
  {
    RemoveAtSources(items, 0, source);
    assert RemoveAt(items, 0) == items[1..];
  }

  type Records = map<StoreKey, seq<StoredRoute>>

  /** The source counts are exactly the true ones. */
  ghost predicate Exact(counts: map<string, nat>, records: Records) {
    NoZeros(counts) && forall source :: Count(counts, source) == SourceCount(records, source)
  }

  /** The same while one list is being worked on: the other lists, what is kept so far, what is still to be looked at. */
  ghost predicate Counts(counts: map<string, nat>, others: Records, kept: seq<StoredRoute>, todo: seq<StoredRoute>) {
    && NoZeros(counts)
    && forall source :: Count(counts, source) == SourceCount(others, source) + FromSource(kept, source) + FromSource(todo, source)
  }

  lemma KeepCounts(counts: map<string, nat>, others: Records, kept: seq<StoredRoute>, todo: seq<StoredRoute>, x: StoredRoute)
    requires todo != [] && x.source == todo[0].source && Counts(counts, others, kept, todo)
    ensures Counts(counts, others, kept + [x], todo[1..])
  {
    forall source ensures Count(counts, source) == SourceCount(others, source) + FromSource(kept + [x], source) + FromSource(todo[1..], source) {
      AppendSources(kept, x, source);
      HeadSources(todo, source);
    }
  }

  lemma DropCounts(counts: map<string, nat>, others: Records, kept: seq<StoredRoute>, todo: seq<StoredRoute>)
    requires todo != [] && Counts(counts, others, kept, todo)
    ensures Count(counts, todo[0].source) > 0
    ensures Counts(Decrement(counts, todo[0].source), others, kept, todo[1..])
  {
    HeadSources(todo, todo[0].source);
    DecrementCounts(counts, todo[0].source);
    var left := Decrement(counts, todo[0].source);
    forall source ensures Count(left, source) == SourceCount(others, source) + FromSource(kept, source) + FromSource(todo[1..], source) {
      HeadSources(todo, source);
    }
  }

  /** The counts of a list about to be worked on, split from the rest. */
  lemma SplitCounts(counts: map<string, nat>, records: Records, key: StoreKey)
    requires Exact(counts, records)
    ensures Counts(counts, Put(records, key, []), [], At(records, key)) && |At(records, key)| <= Size(records)
  {
    AtCounts(records, key, "");
    forall source ensures SourceCount(records, source) == SourceCount(Put(records, key, []), source) + FromSource(At(records, key), source) {
      PutCounts(records, key, [], source);
    }
  }

  /** And put back. */
  lemma JoinCounts(counts: map<string, nat>, records: Records, key: StoreKey, kept: seq<StoredRoute>)
    requires Counts(counts, Put(records, key, []), kept, [])
    ensures Exact(counts, Put(records, key, kept)) && Size(Put(records, key, kept)) == Size(records) - |At(records, key)| + |kept|
  {
    PutCounts(records, key, kept, "");
    forall source ensures Count(counts, source) == SourceCount(Put(records, key, kept), source) {
      PutCounts(records, key, kept, source);
      PutCounts(records, key, [], source);
    }
  }

  lemma TakeOutCounts(counts: map<string, nat>, records: Records, key: StoreKey, i: nat)
    requires Exact(counts, records) && i < |At(records, key)|
    ensures Count(counts, At(records, key)[i].source) > 0
    ensures Exact(Decrement(counts, At(records, key)[i].source), Put(records, key, RemoveAt(At(records, key), i)))
    ensures Size(Put(records, key, RemoveAt(At(records, key), i))) == Size(records) - 1
  {
    var items := At(records, key);
    var from := items[i].source;
    AtCounts(records, key, from);
    RemoveAtSources(items, i, from);
    DecrementCounts(counts, from);
    PutCounts(records, key, RemoveAt(items, i), "");
    forall source ensures Count(Decrement(counts, from), source) == SourceCount(Put(records, key, RemoveAt(items, i)), source) {
      PutCounts(records, key, RemoveAt(items, i), source);
      RemoveAtSources(items, i, source);
    }
  }

  lemma AppendCounts(counts: map<string, nat>, records: Records, key: StoreKey, item: StoredRoute)
    requires Exact(counts, records)
    ensures Exact(Increment(counts, item.source), Put(records, key, At(records, key) + [item]))
    ensures Size(Put(records, key, At(records, key) + [item])) == Size(records) + 1
  {
    var items := At(records, key) + [item];
    IncrementCounts(counts, item.source);
    PutCounts(records, key, items, "");
    forall source ensures Count(Increment(counts, item.source), source) == SourceCount(Put(records, key, items), source) {
      PutCounts(records, key, items, source);
      AppendSources(At(records, key), item, source);
    }
  }

  lemma ReplaceCounts(counts: map<string, nat>, records: Records, key: StoreKey, i: nat, item: StoredRoute)
    requires Exact(counts, records) && i < |At(records, key)| && item.source == At(records, key)[i].source
    ensures Exact(counts, Put(records, key, At(records, key)[i := item]))
    ensures Size(Put(records, key, At(records, key)[i := item])) == Size(records)
  {
    var items := At(records, key)[i := item];
    PutCounts(records, key, items, "");
    forall source ensures Count(counts, source) == SourceCount(Put(records, key, items), source) {
      PutCounts(records, key, items, source);
      UpdateSources(At(records, key), i, item, source);
    }
  }

  /** The route counts are exactly the ledger's. */
  ghost predicate RoutesExact(counts: map<nat, nat>, ledger: map<LedgerKey, L.Entry>) {
    NoZeros(counts) && forall r :: Count(counts, r) == |RouteKeys(ledger, r)|
  }

  lemma EntryCounts(counts: map<nat, nat>, ledger: map<LedgerKey, L.Entry>, k: LedgerKey, e: L.Entry)
    requires RoutesExact(counts, ledger)
    ensures RoutesExact(if k in ledger then counts else Increment(counts, k.routeKey), ledger[k := e])
  {
    IncrementCounts(counts, k.routeKey);
    var after := if k in ledger then counts else Increment(counts, k.routeKey);
    forall r ensures Count(after, r) == |RouteKeys(ledger[k := e], r)| {
      LedgerUpdateCounts(ledger, k, e, r);
    }
  }

  /** Drop the expired routes of a list, taking each off the counts. */
  method Sift(items: seq<StoredRoute>, now: nat, counts: map<string, nat>, size: nat, ghost others: Records)
    returns (kept: seq<StoredRoute>, left: map<string, nat>, count: nat)
    requires Counts(counts, others, [], items) && |items| <= size
    ensures kept == Unexpired(items, now) && Counts(left, others, kept, []) && count == size - |items| + |kept|
  {
    kept, left, count := [], counts, size;
    for i := 0 to |items|
      invariant kept == Unexpired(items[..i], now)
      invariant Counts(left, others, kept, items[i..])
      invariant |kept| <= i && count == size - i + |kept|
    {
      assert items[..i + 1][..i] == items[..i] && items[i..][1..] == items[i + 1..];
      if items[i].expires <= now {
        DropCounts(left, others, kept, items[i..]);
        left := Decrement(left, items[i].source);
        count := count - 1;
      } else {
        KeepCounts(left, others, kept, items[i..], items[i]);
        kept := kept + [items[i]];
      }
    }
    assert items[..|items|] == items;
  }

  /** Re-check every route of a list against current authority, dropping those it no longer supports. */
  method Recheck(items: seq<StoredRoute>, authority: Authority, counts: map<string, nat>, size: nat, ghost others: Records)
    returns (kept: seq<StoredRoute>, left: map<string, nat>, count: nat)
    requires Counts(counts, others, [], items) && |items| <= size
    ensures kept == Revalidated(items, authority) && Counts(left, others, kept, []) && count == size - |items| + |kept|
  {
    kept, left, count := [], counts, size;
    for i := 0 to |items|
      invariant kept == Revalidated(items[..i], authority)
      invariant Counts(left, others, kept, items[i..])
      invariant |kept| <= i && count == size - i + |kept|
    {
      assert items[..i + 1][..i] == items[..i] && items[i..][1..] == items[i + 1..];
      match authority(items[i].raw) {
        case Some(until) =>
          var item := items[i].(expires := until, currentVerified := true);
          KeepCounts(left, others, kept, items[i..], item);
          kept := kept + [item];
        case None =>
          DropCounts(left, others, kept, items[i..]);
          left := Decrement(left, items[i].source);
          count := count - 1;
      }
    }
    assert items[..|items|] == items;
  }

  /** The part of the ledger counted so far. */
  ghost function Part(ledger: map<LedgerKey, L.Entry>, todo: set<LedgerKey>): map<LedgerKey, L.Entry> {
    map k | k in ledger && k !in todo :: ledger[k]
  }

  lemma PartCounts(counts: map<nat, nat>, ledger: map<LedgerKey, L.Entry>, todo: set<LedgerKey>, key: LedgerKey)
    requires RoutesExact(counts, Part(ledger, todo)) && key in todo && key in ledger
    ensures RoutesExact(Increment(counts, key.routeKey), Part(ledger, todo - {key}))
  {
    EntryCounts(counts, Part(ledger, todo), key, ledger[key]);
    assert Part(ledger, todo - {key}) == Part(ledger, todo)[key := ledger[key]];
  }

  /** Count the ledger's scopes per route key from scratch. */
  method CountRoutes(ledger: map<LedgerKey, L.Entry>) returns (counts: map<nat, nat>)
    ensures RoutesExact(counts, ledger)
  {
    counts := map[];
    var todo := ledger.Keys;
    assert forall r :: RouteKeys(Part(ledger, todo), r) == {};
    while todo != {}
      invariant todo <= ledger.Keys && RoutesExact(counts, Part(ledger, todo))
    {
      var key :| key in todo;
      PartCounts(counts, ledger, todo, key);
      todo := todo - {key};
      counts := Increment(counts, key.routeKey);
    }
    assert Part(ledger, todo) == ledger;
  }

  // ---- the object ----

  lemma NoneToRecheck(authority: Authority)
    ensures Revalidated([], authority) == []
  {
  }

  class RouteStore {
    const limits: Limits
    var records: map<StoreKey, seq<StoredRoute>>
    var ledger: map<LedgerKey, L.Entry>
    var routeCounts: map<nat, nat>
    var revision: nat
    var prunedThrough: nat
    var sourceCounts: map<string, nat>
    var size: nat

    function View(): Store
      reads this
    {
      Store(limits, records, ledger, revision, prunedThrough)
    }

    /** The derived counters are exactly the true counts, with no zero entries. */
    ghost predicate Valid()
      reads this
    {
      && size == Size(records) && Exact(sourceCounts, records) && RoutesExact(routeCounts, ledger)
      && forall k :: k in records ==> records[k] != []
    }

    constructor(limits: Limits)
      ensures Valid() && View() == Fresh(limits)
    {
      this.limits := limits;
      records, ledger, routeCounts, revision, prunedThrough, sourceCounts, size := map[], map[], map[], 0, 0, map[], 0;
      new;
      assert forall r :: RouteKeys(ledger, r) == {};
    }

    method PruneStoreKey(key: StoreKey, now: nat)
      requires Valid()
      modifies this
      ensures Valid() && View() == PruneKey(old(View()), key, now)
    {
      if key !in records {
        assert records - {key} == records;
        return;
      }
      ghost var before := records;
      SplitCounts(sourceCounts, records, key);
      var items := records[key];
      var kept, left, count := Sift(items, now, sourceCounts, size, Put(before, key, []));
      records := if kept == [] then records - {key} else records[key := kept];
      sourceCounts, size := left, count;
      JoinCounts(sourceCounts, before, key, kept);
    }

    method RemoveLive(routeKey: nat) returns (removed: nat)
      requires Valid()
      modifies this
      ensures Valid() && View() == Withdraw(old(View()), routeKey) && removed == |At(old(records), V3(routeKey))|
    {
      var key := V3(routeKey);
      removed := |At(records, key)|;
      ghost var before := records;
      SplitCounts(sourceCounts, records, key);
      var kept, left, count := Recheck(At(records, key), _ => None, sourceCounts, size, Put(before, key, []));
      NothingSupported(At(records, key));
      records := records - {key};
      sourceCounts, size := left, count;
      JoinCounts(sourceCounts, before, key, kept);
    }

    method PruneLedger(now: nat) returns (r: Result<nat, Error>)
      requires Valid()
      modifies this
      ensures Valid() && Effect(View(), r) == RouteStores.PruneLedger(old(View()), now)
    {
      if now < prunedThrough {
        return Err(ClockRollback);
      }
      var removed := |Lapsed(ledger, now)|;
      if removed == 0 {
        return Ok(0);
      }
      if revision + 1 >= U64_MAX {
        return Err(RevisionExhausted);
      }
      ledger := Retained(ledger, now);
      routeCounts := CountRoutes(ledger);
      revision := revision + 1;
      prunedThrough := now;
      return Ok(removed);
    }

    method Revalidate(routeKey: nat, authority: Authority, now: nat) returns (r: Result<nat, Error>)
      requires Valid()
      modifies this
      ensures Valid() && Effect(View(), r) == RouteStores.Revalidate(old(View()), routeKey, authority, now)
      ensures r.Ok? ==> Supports(old(At(records, V3(routeKey))), At(records, V3(routeKey)), authority)
    {
      hide Supports, Revalidated, Lapsed, Retained, RouteKeys;
      SupportedOnly(View(), routeKey, authority, now);
      r := PruneLedger(now);
      if r.Err? {
        return;
      }
      var key := V3(routeKey);
      if key !in records {
        assert records - {key} == records;
        NoneToRecheck(authority);
        return Ok(0);
      }
      ghost var before := records;
      SplitCounts(sourceCounts, records, key);
      var kept, left, count := Recheck(records[key], authority, sourceCounts, size, Put(before, key, []));
      records := if kept == [] then records - {key} else records[key := kept];
      sourceCounts, size := left, count;
      JoinCounts(sourceCounts, before, key, kept);
      return Ok(|kept|);
    }

    /** The quotas, read off the counters. */
    method Preflight(c: Candidate, source: string, v: L.Verdict) returns (a: Result<LiveAction, Error>)
      requires Valid()
      ensures a == LivePreflight(View(), c, source, v)
    {
      var items := At(records, V3(c.routeKey));
      a := LiveMatch(items, c, v);
      if a.Err? {
        return;
      }
      if a.value.New? && (|items| >= limits.perKey || size >= limits.total) {
        return Err(Capacity);
      }
      var replacesOwn := a.value.Replace? && items[a.value.index].source == source;
      if !a.value.Refresh? && !a.value.RemoveRejected? && !a.value.KeepRejected?
         && Count(sourceCounts, source) >= limits.perSource && !replacesOwn {
        return Err(Capacity);
      }
    }

    method LedgerCheck(c: Candidate, now: nat) returns (v: Result<L.Verdict, Error>)
      requires Valid()
      ensures v == LedgerPreflight(View(), c, now)
    {
      if KeyOf(c) !in ledger && (|ledger| >= limits.total || Count(routeCounts, c.routeKey) >= limits.perKey) {
        return Err(Capacity);
      }
      return Ok(L.Classify(EntryAt(ledger, KeyOf(c)), SightingOf(c, now)));
    }

    /** Take one route out of a list, and its count with it. */
    method TakeOut(key: StoreKey, i: nat)
      requires Valid() && i < |At(records, key)|
      modifies this
      ensures Valid() && View() == old(View()).(records := Put(old(records), key, RemoveAt(old(At(records, key)), i)))
    {
      TakeOutCounts(sourceCounts, records, key, i);
      var items := records[key];
      var kept := RemoveAt(items, i);
      records := if kept == [] then records - {key} else records[key := kept];
      sourceCounts := Decrement(sourceCounts, items[i].source);
      size := size - 1;
    }

    /** Add one route at the end of a list. */
    method Append(key: StoreKey, item: StoredRoute)
      requires Valid()
      modifies this
      ensures Valid() && View() == old(View()).(records := Put(old(records), key, old(At(records, key)) + [item]))
    {
      AppendCounts(sourceCounts, records, key, item);
      records := records[key := At(records, key) + [item]];
      sourceCounts := Increment(sourceCounts, item.source);
      size := size + 1;
    }

    /** Add a route, first taking out the one it replaces, if any. */
    method Supersede(key: StoreKey, at: Option<nat>, item: StoredRoute)
      requires Valid() && (at.Some? ==> at.value < |At(records, key)|)
      modifies this
      ensures Valid() && View() == old(View()).(records := Put(old(records), key, Without(old(At(records, key)), at) + [item]))
    {
      if at.Some? {
        TakeOut(key, at.value);
      }
      Append(key, item);
    }

    /** Replace one route by another of the same source. */
    method Replace(key: StoreKey, i: nat, item: StoredRoute)
      requires Valid() && i < |At(records, key)| && At(records, key)[i].source == item.source
      modifies this
      ensures Valid() && View() == old(View()).(records := Put(old(records), key, old(At(records, key))[i := item]))
    {
      ReplaceCounts(sourceCounts, records, key, i, item);
      records := records[key := records[key][i := item]];
    }

    method WriteEntry(k: LedgerKey, e: L.Entry)
      requires Valid()
      modifies this
      ensures Valid() && View() == old(View()).(ledger := old(ledger)[k := e], revision := old(revision) + 1)
    {
      EntryCounts(routeCounts, ledger, k, e);
      if k !in ledger {
        routeCounts := Increment(routeCounts, k.routeKey);
      }
      ledger := ledger[k := e];
      revision := revision + 1;
    }

    /** Carry out a live action on its list. */
    method Act(c: Candidate, a: LiveAction, currentVerified: bool, source: string) returns (until: nat)
      requires Valid()
      requires (a.Replace? || a.Refresh?) ==> a.index < |At(records, V3(c.routeKey))|
      requires a.RemoveRejected? && a.at.Some? ==> a.at.value < |At(records, V3(c.routeKey))|
      modifies this
      ensures Valid()
      ensures View() == old(View()).(records := Put(old(records), V3(c.routeKey), Applied(old(At(records, V3(c.routeKey))), a, c, currentVerified, source)))
      ensures until == StoredUntil(old(At(records, V3(c.routeKey))), a, c, currentVerified)
    {
      var key := V3(c.routeKey);
      until := c.expires;
      match a {
        case New =>
          Supersede(key, None, ItemFor(c, currentVerified, source));
        case Replace(i) =>
          Supersede(key, Some(i), ItemFor(c, currentVerified, source));
        case Refresh(i) =>
          var item := Refreshed(records[key][i], c, currentVerified);
          until := item.expires;
          Replace(key, i, item);
        case RemoveRejected(at) =>
          if at.Some? {
            TakeOut(key, at.value);
          }
        case KeepRejected =>
      }
    }

    method InsertVerified(c: Candidate, currentVerified: bool, now: nat, source: string) returns (r: Result<nat, Error>)
      requires Valid()
      modifies this
      ensures Valid() && Effect(View(), r) == Insert(old(View()), c, currentVerified, now, source)
      ensures old(Distinct(At(records, V3(c.routeKey)))) ==> Lives(old(View()), Effect(View(), r), c, c.expires, currentVerified, now)
    {
      hide Lives, Distinct;
      if Distinct(At(records, V3(c.routeKey))) {
        InsertLives(View(), c, currentVerified, now, source);
      }
      var pruned := PruneLedger(now);
      if pruned.Err? {
        return Err(pruned.error);
      }
      var v := LedgerCheck(c, now);
      if v.Err? {
        return Err(v.error);
      }
      PruneStoreKey(V3(c.routeKey), now);
      r := InsertPruned(c, v.value, currentVerified, now, source);
    }

    method InsertPruned(c: Candidate, v: L.Verdict, currentVerified: bool, now: nat, source: string) returns (r: Result<nat, Error>)
      requires Valid()
      modifies this
      ensures Valid() && Effect(View(), r) == InsertJudged(old(View()), c, v, currentVerified, now, source)
    {
      var a := Preflight(c, source, v);
      if a.Err? {
        return Err(a.error);
      }
      var previous := EntryAt(ledger, KeyOf(c));
      var next := L.NextEntry(previous, v, SightingOf(c, now));
      if next.None? {
        return Err(Inconsistent(EntryChanged));
      }
      if previous != next && revision + 1 >= U64_MAX {
        return Err(RevisionExhausted);
      }
      if a.value.Accepts() != v.MatchesFinal() {
        return Err(Inconsistent(DispositionsDisagree));
      }
      var until := Act(c, a.value, currentVerified, source);
      if previous != next {
        WriteEntry(KeyOf(c), next.value);
      }
      return Outcome(v, until);
    }

    method PutNamedV3(c: Candidate, vetting: Vetting, currentVerified: bool, now: nat, source: string) returns (r: Result<nat, Error>)
      requires Valid()
      modifies this
      ensures Valid() && Effect(View(), r) == PutV3(old(View()), c, vetting, currentVerified, now, source)
      ensures old(Distinct(At(records, V3(c.routeKey)))) ==>
                (r.Ok? ==> vetting.Verified?) && Lives(old(View()), Effect(View(), r), c, if vetting.Verified? then vetting.until else 0, currentVerified, now)
    {
      hide Lives, Distinct;
      if Distinct(At(records, V3(c.routeKey))) {
        PublicationLives(View(), c, vetting, currentVerified, now, source);
      }
      if now < prunedThrough {
        return Err(ClockRollback);
      }
      if source == "" {
        return Err(EmptySource);
      }
      if Stopped(vetting).Some? {
        return Err(Stopped(vetting).value);
      }
      var checked := CheckUntrusted(c.(expires := c.signedExpiry), now, source);
      if checked.Err? {
        return Err(checked.error);
      }
      if vetting.Unverified? {
        return Err(NotVerified);
      }
      r := InsertVerified(c.(expires := vetting.until), currentVerified, now, source);
    }

    method CheckUntrusted(c: Candidate, now: nat, source: string) returns (r: Result<(), Error>)
      requires Valid()
      modifies this
      ensures Valid() && Effect(View(), r) == PreflightUntrusted(old(View()), c, now, source)
    {
      var pruned := PruneLedger(now);
      if pruned.Err? {
        return Err(pruned.error);
      }
      var v := LedgerCheck(c, now);
      if v.Err? {
        return Err(v.error);
      }
      if Futile(View(), c, v.value, now) {
        return Err(Refusal(v.value));
      }
      PruneStoreKey(V3(c.routeKey), now);
      var a := Preflight(c, source, v.value);
      return if a.Err? then Err(a.error) else Ok(());
    }

    method CheckPlain(key: StoreKey, route: PlainRoute, source: string) returns (a: Result<Option<nat>, Error>)
      requires Valid()
      ensures a == PlainPreflight(View(), key, route, source)
    {
      var items := At(records, key);
      var previous := FindEndpoint(items, route.endpointKey);
      var crowded := Count(sourceCounts, source) >= limits.perSource;
      if previous.Some? {
        if items[previous.value].sequence >= route.sequence {
          return Err(StaleSequence);
        }
        if crowded && items[previous.value].source != source {
          return Err(Capacity);
        }
      } else if |items| >= limits.perKey || size >= limits.total || crowded {
        return Err(Capacity);
      }
      return Ok(previous);
    }

    method PutPlainRoute(key: StoreKey, route: PlainRoute, vetting: Vetting, now: nat, source: string) returns (r: Result<nat, Error>)
      requires Valid()
      modifies this
      ensures Valid() && Effect(View(), r) == PutPlain(old(View()), key, route, vetting, now, source)
      ensures old(Distinct(At(records, key))) ==> (r.Ok? ==> vetting.Verified?) && PlainLife(old(View()), Effect(View(), r), key, route, now)
    {
      hide PlainLife, Distinct;
      if Distinct(At(records, key)) {
        PlainLives(View(), key, route, vetting, now, source);
      }
      if source == "" {
        return Err(EmptySource);
      }
      if Stopped(vetting).Some? {
        return Err(Stopped(vetting).value);
      }
      PruneStoreKey(key, now);
      var a := CheckPlain(key, route, source);
      if a.Err? {
        return Err(a.error);
      }
      if !vetting.Verified? {
        return Err(NotVerified);
      }
      Supersede(key, a.value, PlainItem(route, source));
      return Ok(route.expires);
    }

    method Get(key: StoreKey, maximum: nat, now: nat) returns (found: seq<StoredRoute>)
      requires Valid()
      modifies this
      ensures Valid() && (View(), found) == Lookup(old(View()), key, maximum, now)
      ensures Shows(old(View()), key, maximum, if key.model.HrmNamedV3? && now < old(prunedThrough) then old(prunedThrough) else now, found)
    {
      hide Shows;
      LookupShows(View(), key, maximum, now);
      var at := EffectiveNow(View(), key.model, now);
      PruneStoreKey(key, at);
      found := Visible(View(), key, Ranked(At(records, key)), at);
      var limit := Min(maximum, MAX_RECORDS_PER_KEY);
      if |found| > limit {
        found := found[..limit];
      }
    }

    method RestoreLedger(image: Snapshot, now: nat, minimumRevision: nat) returns (r: Result<(), Error>)
      requires Valid()
      modifies this
      ensures Valid() && Effect(View(), r) == Restore(old(View()), image, now, minimumRevision)
    {
      if View() != Fresh(limits) || image.capacity != limits.total || image.perKey != limits.perKey
         || |image.ledger| > limits.total || image.revision < minimumRevision {
        return Err(Incompatible);
      }
      if now < image.prunedThrough {
        return Err(ClockRollback);
      }
      var kept := Retained(image.ledger, now);
      if |kept| != |image.ledger| && image.revision + 1 >= U64_MAX {
        return Err(RevisionExhausted);
      }
      if |kept| == |image.ledger| {
        revision, prunedThrough := image.revision, image.prunedThrough;
      } else {
        revision, prunedThrough := image.revision + 1, now;
      }
      ledger := kept;
      routeCounts := CountRoutes(kept);
      return Ok(());
    }
  }

  lemma {:induction false} NothingSupported(items: seq<StoredRoute>)
    ensures Revalidated(items, _ => None) == []
  {
    if items != [] {
      NothingSupported(items[..|items| - 1]);
    }
  }
}
