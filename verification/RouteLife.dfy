/** What the operations do to live routes, told without the functions that do it. */
module RouteLives {
  import opened Common
  import opened Tallies
  import opened RouteStores
  import opened RouteStoreInvariants
  import opened RouteStoreRuns
  import L = ReplayLedger

  // ---- lookup ----

  /** Held under the key, not expired, and for version 3 not in a scope the ledger still holds conflicted. */
  ghost predicate Showable(s: Store, key: StoreKey, x: StoredRoute, now: nat) {
    && x in At(s.records, key) && now < x.expires
    && (key.model.HrmNamedV3? && LedgerKey(key.routeKey, x.endpointKey) in s.ledger ==>
          var e := s.ledger[LedgerKey(key.routeKey, x.endpointKey)];
          now < e.retainUntil ==> !e.endpoint.conflicted && !e.route.conflicted)
  }

  /** The answer of a lookup: showable routes, greatest sequence first, within the limit, and none left out but for the limit. */
  ghost predicate Shows(s: Store, key: StoreKey, maximum: nat, now: nat, r: seq<StoredRoute>) {
    && |r| <= maximum && |r| <= MAX_RECORDS_PER_KEY && multiset(r) <= multiset(At(s.records, key))
    && (forall x :: x in r ==> Showable(s, key, x, now))
    && Ordered(r)
    && forall y :: Showable(s, key, y, now) && y !in r ==>
         (|r| == maximum || |r| == MAX_RECORDS_PER_KEY) && forall x :: x in r ==> x.sequence >= y.sequence
  }

  ghost predicate Ordered(r: seq<StoredRoute>) {
    forall i, j :: 0 <= i < j < |r| ==> r[i].sequence >= r[j].sequence
  }

  lemma {:induction false} UnexpiredExactly(items: seq<StoredRoute>, now: nat)
    ensures forall x :: x in Unexpired(items, now) <==> x in items && now < x.expires
    ensures multiset(Unexpired(items, now)) <= multiset(items)
  {
    if items != [] {
      UnexpiredExactly(items[..|items| - 1], now);
      assert items == items[..|items| - 1] + [items[|items| - 1]];
    }
  }

  lemma {:induction false} DescendingOrdered(items: seq<StoredRoute>)
    requires Descending(items)
    ensures Ordered(items)
  {
    if |items| > 1 {
      DescendingOrdered(items[1..]);
      forall i, j | 0 <= i < j < |items| ensures items[i].sequence >= items[j].sequence {
        if i == 0 {
          assert items[1..][0].sequence >= items[1..][j - 1].sequence;
        } else {
          assert items[i] == items[1..][i - 1] && items[j] == items[1..][j - 1];
        }
      }
    }
  }

  lemma {:induction false} VisibleKeeps(s: Store, key: StoreKey, items: seq<StoredRoute>, now: nat)
    requires Ordered(items)
    ensures Ordered(Visible(s, key, items, now)) && multiset(Visible(s, key, items, now)) <= multiset(items)
  {
    if items != [] {
      assert Ordered(items[1..]) by {
        forall i, j | 0 <= i < j < |items[1..]| ensures items[1..][i].sequence >= items[1..][j].sequence {
          assert items[1..][i] == items[i + 1] && items[1..][j] == items[j + 1];
        }
      }
      VisibleKeeps(s, key, items[1..], now);
      VisibleIs(s, key, items[1..], now);
      assert items == [items[0]] + items[1..];
      var rest := Visible(s, key, items[1..], now);
      if !Hidden(s, key, items[0], now) {
        HeadOrdered(items, rest);
      }
    }
  }

  lemma HeadOrdered(items: seq<StoredRoute>, rest: seq<StoredRoute>)
    requires items != [] && Ordered(items) && Ordered(rest) && forall x :: x in rest ==> x in items[1..]
    ensures Ordered([items[0]] + rest)
  {
    var r := [items[0]] + rest;
    forall i, j | 0 <= i < j < |r| ensures r[i].sequence >= r[j].sequence {
      assert r[j] == rest[j - 1] && rest[j - 1] in rest;
      if i == 0 {
        var k: nat :| k < |items[1..]| && items[1..][k] == r[j];
        assert items[k + 1] == r[j];
      } else {
        assert r[i] == rest[i - 1];
      }
    }
  }

  lemma PrefixKeeps(a: seq<StoredRoute>, n: nat)
    requires n <= |a| && Ordered(a)
    ensures multiset(a[..n]) <= multiset(a) && Ordered(a[..n]) && forall x :: x in a[..n] ==> x in a
  {
    assert a == a[..n] + a[n..];
  }

  /** The limit keeps the greatest sequences. */
  lemma LimitKeepsGreatest(found: seq<StoredRoute>, limit: nat, y: StoredRoute)
    requires Ordered(found) && limit <= |found| && y in found && y !in found[..limit]
    ensures forall x :: x in found[..limit] ==> x.sequence >= y.sequence
  {
    var j: nat :| j < |found| && found[j] == y;
    var r := found[..limit];
    forall x | x in r ensures x.sequence >= y.sequence {
      var i: nat :| i < limit && r[i] == x;
    }
  }

  /** The routes a lookup finds, before the limit. */
  ghost predicate Finds(s: Store, key: StoreKey, now: nat, found: seq<StoredRoute>) {
    && multiset(found) <= multiset(At(s.records, key)) && Ordered(found)
    && forall x :: x in found <==> Showable(s, key, x, now)
  }

  lemma VisibleFinds(s: Store, key: StoreKey, now: nat)
    ensures var p := PruneKey(s, key, now);
            Finds(s, key, now, Visible(p, key, Ranked(At(p.records, key)), now))
  {
    hide Put, Unexpired, Ranked, Visible, Hidden, Showable, Ordered, At;
    var p := PruneKey(s, key, now);
    var live := Unexpired(At(s.records, key), now);
    UnexpiredExactly(At(s.records, key), now);
    PutAt(s.records, key, live);
    var ranked := Ranked(live);
    RankedSame(live);
    DescendingOrdered(ranked);
    VisibleKeeps(p, key, ranked, now);
    VisibleIs(p, key, ranked, now);
    forall x ensures x in Visible(p, key, ranked, now) <==> Showable(s, key, x, now) {
      HiddenIs(s, p, key, x, now);
    }
  }

  lemma LimitShows(s: Store, key: StoreKey, maximum: nat, now: nat, found: seq<StoredRoute>)
    requires Finds(s, key, now, found)
    ensures var limit := if maximum < MAX_RECORDS_PER_KEY then maximum else MAX_RECORDS_PER_KEY;
            Shows(s, key, maximum, now, if |found| > limit then found[..limit] else found)
  {
    hide Showable, Ordered, At;
    var limit := if maximum < MAX_RECORDS_PER_KEY then maximum else MAX_RECORDS_PER_KEY;
    if |found| > limit {
      PrefixKeeps(found, limit);
      var r := found[..limit];
      forall y | Showable(s, key, y, now) && y !in r ensures forall x :: x in r ==> x.sequence >= y.sequence {
        LimitKeepsGreatest(found, limit, y);
      }
    }
  }

  /** Every lookup, of any model and in any store, answers so; it drops the expired routes of the key and nothing else. */
  lemma LookupShows(s: Store, key: StoreKey, maximum: nat, now: nat)
    ensures var at := if key.model.HrmNamedV3? && now < s.prunedThrough then s.prunedThrough else now;
            var t := Lookup(s, key, maximum, now);
            Shows(s, key, maximum, at, t.1) && t.0 == PruneKey(s, key, at)
  {
    hide Put, Ranked, Visible, Finds, Shows, PruneKey;
    var at := EffectiveNow(s, key.model, now);
    VisibleFinds(s, key, at);
    var p := PruneKey(s, key, at);
    LimitShows(s, key, maximum, at, Visible(p, key, Ranked(At(p.records, key)), at));
  }

  lemma PutAt(records: map<StoreKey, seq<StoredRoute>>, key: StoreKey, items: seq<StoredRoute>)
    ensures At(Put(records, key, items), key) == items
    ensures forall k :: k != key ==> At(Put(records, key, items), k) == At(records, k)
  {
  }

  lemma HiddenIs(s: Store, p: Store, key: StoreKey, x: StoredRoute, now: nat)
    requires p.ledger == s.ledger
    ensures Showable(s, key, x, now) <==> x in At(s.records, key) && now < x.expires && !Hidden(p, key, x, now)
  {
  }

  // ---- admission of a version-3 record ----

  /** The stored route is this very record. */
  predicate IsRecord(x: StoredRoute, c: Candidate) {
    && x.endpointKey == c.endpointKey && x.endpointSequence == c.endpointSequence && x.endpointId == c.endpointId
    && x.sequence == c.sequence && x.raw == c.raw
  }

  /**
    The one route an admission may add to a list or change in it: the record itself. Current authority gives it exactly
    the bound; plain admission gives it at most the bound, never verifies it, and never touches it if it is verified
    already nor lets it live longer than it would have.
   */
  ghost predicate Changed(was: seq<StoredRoute>, y: StoredRoute, c: Candidate, until: nat, current: bool, now: nat) {
    && IsRecord(y, c)
    && (if current then y.currentVerified && y.expires == until
        else
          && !y.currentVerified && y.expires <= until
          && forall x :: x in was && now < x.expires && IsRecord(x, c) ==> !x.currentVerified && y.expires <= x.expires)
  }

  ghost predicate OnlyChanges(was: seq<StoredRoute>, after: seq<StoredRoute>, c: Candidate, until: nat, current: bool, now: nat) {
    forall y :: y in after ==> y in was || Changed(was, y, c, until, current, now)
  }

  /** The answer to a publication: the life of the route that is now in the list. */
  ghost predicate Answers(after: seq<StoredRoute>, c: Candidate, until: nat, current: bool, answer: nat) {
    && (exists y :: y in after && IsRecord(y, c) && y.expires == answer && (current ==> y.currentVerified))
    && (current ==> answer == until)
  }

  lemma AppliedChanges(items: seq<StoredRoute>, c: Candidate, v: L.Verdict, a: LiveAction, current: bool, source: string, now: nat)
    requires LiveMatch(items, c, v) == Ok(a) && Distinct(items)
    ensures OnlyChanges(items, Applied(items, a, c, current, source), c, c.expires, current, now)
    ensures a.Accepts() ==> Answers(Applied(items, a, c, current, source), c, c.expires, current, StoredUntil(items, a, c, current))
  {
    var after := Applied(items, a, c, current, source);
    match a
    case New =>
      assert ItemFor(c, current, source) in after;
      assert forall x :: x in items ==> x.endpointKey != c.endpointKey;
    case Replace(i) =>
      assert after[|after| - 1] == ItemFor(c, current, source);
      assert !IsRecord(items[i], c);
      forall x | x in items && x.endpointKey == c.endpointKey ensures x == items[i] {
        var j: nat :| j < |items| && items[j] == x;
      }
    case Refresh(i) =>
      assert after[i] == Refreshed(items[i], c, current);
      forall x | x in items && IsRecord(x, c) ensures x == items[i] {
        var j: nat :| j < |items| && items[j] == x;
      }
    case RemoveRejected(at) =>
    case KeepRejected =>
  }

  lemma OnlyChangesWiden(items: seq<StoredRoute>, was: seq<StoredRoute>, after: seq<StoredRoute>, c: Candidate, until: nat, current: bool, now: nat)
    requires OnlyChanges(items, after, c, until, current, now)
    requires (forall x :: x in items ==> x in was) && forall x :: x in was && now < x.expires ==> x in items
    ensures OnlyChanges(was, after, c, until, current, now)
  {
  }

  /** What an effect on the store says of the lists: one list changes, as described. */
  ghost predicate Lives(s: Store, e: Effect<nat>, c: Candidate, until: nat, current: bool, now: nat) {
    var was, after := At(s.records, V3(c.routeKey)), At(e.store.records, V3(c.routeKey));
    && (forall k :: k != V3(c.routeKey) ==> At(e.store.records, k) == At(s.records, k))
    && OnlyChanges(was, after, c, until, current, now)
    && (forall x :: x in was && now < x.expires && x.endpointKey != c.endpointKey ==> x in after)
    && (e.result.Ok? ==> Answers(after, c, until, current, e.result.value))
    && (e.result.Err? ==> forall y :: y in after ==> y in was)
  }

  lemma JudgedLives(s: Store, c: Candidate, v: L.Verdict, current: bool, now: nat, source: string)
    requires Distinct(At(s.records, V3(c.routeKey)))
    ensures Lives(s, InsertJudged(s, c, v, current, now, source), c, c.expires, current, now)
  {
    hide Put, At, OnlyChanges, Answers, LiveMatch, Fits, Applied, StoredUntil, Distinct;
    var items := At(s.records, V3(c.routeKey));
    NothingChanges(items, c, c.expires, current, now);
    var a := LivePreflight(s, c, source, v);
    if a.Ok? {
      var after := Applied(items, a.value, c, current, source);
      AppliedChanges(items, c, v, a.value, current, source, now);
      OthersStay(items, c, v, a.value, current, source);
      RejectionAddsNothing(items, c, v, a.value, current, source);
      PutAt(s.records, V3(c.routeKey), after);
      OutcomeOk(v, StoredUntil(items, a.value, c, current));
    }
  }

  lemma RejectionAddsNothing(items: seq<StoredRoute>, c: Candidate, v: L.Verdict, a: LiveAction, current: bool, source: string)
    requires LiveMatch(items, c, v) == Ok(a)
    ensures !v.MatchesFinal() ==> forall y :: y in Applied(items, a, c, current, source) ==> y in items
  {
  }

  lemma OutcomeOk(v: L.Verdict, until: nat)
    ensures Outcome(v, until).Ok? <==> v.MatchesFinal()
    ensures Outcome(v, until).Ok? ==> Outcome(v, until).value == until
  {
  }

  lemma NothingChanges(items: seq<StoredRoute>, c: Candidate, until: nat, current: bool, now: nat)
    ensures OnlyChanges(items, items, c, until, current, now)
  {
  }

  lemma OthersStay(items: seq<StoredRoute>, c: Candidate, v: L.Verdict, a: LiveAction, current: bool, source: string)
    requires LiveMatch(items, c, v) == Ok(a)
    ensures forall x :: x in items && x.endpointKey != c.endpointKey ==> x in Applied(items, a, c, current, source)
  {
    hide RemoveAt;
    match a
    case New =>
    case Replace(i) => RemoveAtMembers(items, i);
    case Refresh(i) => UpdatedMembers(items, i, Refreshed(items[i], c, current));
    case RemoveRejected(at) =>
      if at.Some? {
        RemoveAtMembers(items, at.value);
      }
    case KeepRejected =>
  }

  lemma UpdatedMembers(items: seq<StoredRoute>, i: nat, y: StoredRoute)
    requires i < |items|
    ensures forall x :: x in items ==> x == items[i] || x in items[i := y]
  {
    forall x | x in items ensures x == items[i] || x in items[i := y] {
      var j: nat :| j < |items| && items[j] == x;
      assert j != i ==> items[i := y][j] == x;
    }
  }

  /** A list that pruning at `now` may have shortened. */
  ghost predicate Thinned(was: seq<StoredRoute>, items: seq<StoredRoute>, now: nat) {
    && (forall x :: x in items ==> x in was)
    && (forall x :: x in was && now < x.expires ==> x in items)
    && (Distinct(was) ==> Distinct(items))
  }

  /** Only the list of one route key was pruned. */
  ghost predicate ListThinned(s: Store, t: Store, routeKey: nat, now: nat) {
    && (forall k :: k != V3(routeKey) ==> At(t.records, k) == At(s.records, k))
    && Thinned(At(s.records, V3(routeKey)), At(t.records, V3(routeKey)), now)
  }

  lemma PrunedThinned(s: Store, routeKey: nat, now: nat)
    ensures ListThinned(s, PruneLedger(s, now).store, routeKey, now)
    ensures ListThinned(s, PruneKey(PruneLedger(s, now).store, V3(routeKey), now), routeKey, now)
  {
    hide Put, At, Unexpired, Distinct, Lapsed, Retained;
    var items := At(s.records, V3(routeKey));
    UnexpiredExactly(items, now);
    UnexpiredIs(items, now);
    assert PruneLedger(s, now).store.records == s.records;
    PutAt(s.records, V3(routeKey), Unexpired(items, now));
  }

  lemma LivesAfterThinning(s: Store, p: Store, e: Effect<nat>, c: Candidate, until: nat, current: bool, now: nat)
    requires ListThinned(s, p, c.routeKey, now) && Lives(p, e, c, until, current, now)
    ensures Lives(s, e, c, until, current, now)
  {
    hide At, Answers;
    OnlyChangesWiden(At(p.records, V3(c.routeKey)), At(s.records, V3(c.routeKey)), At(e.store.records, V3(c.routeKey)), c, until, current, now);
  }

  lemma RefusalLives(s: Store, p: Store, e: Effect<nat>, c: Candidate, until: nat, current: bool, now: nat)
    requires ListThinned(s, p, c.routeKey, now) && e.store == p && e.result.Err?
    ensures Lives(s, e, c, until, current, now)
  {
  }

  lemma InsertLives(s: Store, c: Candidate, current: bool, now: nat, source: string)
    requires Distinct(At(s.records, V3(c.routeKey)))
    ensures Lives(s, Insert(s, c, current, now, source), c, c.expires, current, now)
  {
    hide Lives, ListThinned, InsertJudged, PruneKey, LedgerPreflight;
    PrunedThinned(s, c.routeKey, now);
    var p := PruneLedger(s, now);
    var v := LedgerPreflight(p.store, c, now);
    var e := Insert(s, c, current, now, source);
    if p.result.Ok? && v.Ok? {
      var q := PruneKey(p.store, V3(c.routeKey), now);
      ThinnedDistinct(s, q, c.routeKey, now);
      JudgedLives(q, c, v.value, current, now, source);
      LivesAfterThinning(s, q, e, c, c.expires, current, now);
    } else {
      RefusalLives(s, p.store, e, c, c.expires, current, now);
    }
  }

  lemma ThinnedDistinct(s: Store, t: Store, routeKey: nat, now: nat)
    requires ListThinned(s, t, routeKey, now) && Distinct(At(s.records, V3(routeKey)))
    ensures Distinct(At(t.records, V3(routeKey)))
  {
  }

  lemma AtDistinct(s: Store, key: StoreKey, expiryOf: Expiry)
    requires Inv(s, expiryOf)
    ensures Distinct(At(s.records, key))
  {
  }

  /**
    What publishing a version-3 record does to live routes, on every path. One list is touched; only the record itself
    may be added or changed, within the bound it was vetted for; no unexpired route of another endpoint is lost; and an
    answer is exactly the life of the route that is now there.
   */
  lemma PublicationLives(s: Store, c: Candidate, vetting: Vetting, current: bool, now: nat, source: string)
    requires Distinct(At(s.records, V3(c.routeKey)))
    ensures var e := PutV3(s, c, vetting, current, now, source);
            && (e.result.Ok? ==> vetting.Verified?)
            && Lives(s, e, c, if vetting.Verified? then vetting.until else 0, current, now)
  {
    hide Lives, ListThinned, Insert, PreflightUntrusted, At;
    var until := if vetting.Verified? then vetting.until else 0;
    var untrusted, trusted := c.(expires := c.signedExpiry), c.(expires := until);
    var e := PutV3(s, c, vetting, current, now, source);
    var p := PreflightUntrusted(s, untrusted, now, source);
    PreflightThins(s, untrusted, now, source);
    AlreadyThin(s, c.routeKey, now);
    if e.result.Err? && (e.store == s || e.store == p.store) {
      RefusalLives(s, e.store, e, c, until, current, now);
    } else {
      ThinnedDistinct(s, p.store, c.routeKey, now);
      InsertLives(p.store, trusted, current, now, source);
      SameRecordLives(p.store, e, trusted, c, until, current, now);
      LivesAfterThinning(s, p.store, e, c, until, current, now);
    }
  }

  lemma PreflightThins(s: Store, c: Candidate, now: nat, source: string)
    ensures ListThinned(s, PreflightUntrusted(s, c, now, source).store, c.routeKey, now)
  {
    hide ListThinned, PruneLedger, PruneKey, LedgerPreflight, Futile, LivePreflight;
    PrunedThinned(s, c.routeKey, now);
  }

  lemma AlreadyThin(s: Store, routeKey: nat, now: nat)
    ensures ListThinned(s, s, routeKey, now)
  {
  }

  lemma SameRecordLives(s: Store, e: Effect<nat>, c: Candidate, d: Candidate, until: nat, current: bool, now: nat)
    requires Lives(s, e, c, until, current, now) && d == c.(expires := d.expires)
    ensures Lives(s, e, d, until, current, now)
  {
    hide At;
    var was, after := At(s.records, V3(c.routeKey)), At(e.store.records, V3(c.routeKey));
    assert forall x: StoredRoute :: IsRecord(x, c) == IsRecord(x, d);
    assert forall y :: Changed(was, y, c, until, current, now) ==> Changed(was, y, d, until, current, now);
  }

  /** So re-publishing without authority never lengthens the life of a live route nor changes whether it is verified. */
  lemma RepublicationNeverExtends(
    s: Store, c: Candidate, vetting: Vetting, now: nat, source: string, expiryOf: Expiry, x: StoredRoute, y: StoredRoute)
    requires Inv(s, expiryOf) && x in At(s.records, V3(c.routeKey)) && now < x.expires
    requires y in At(PutV3(s, c, vetting, false, now, source).store.records, V3(c.routeKey))
    requires y == x.(expires := y.expires, currentVerified := y.currentVerified, source := y.source, sampleable := y.sampleable)
    ensures y.expires <= x.expires && y.currentVerified == x.currentVerified
  {
    AtDistinct(s, V3(c.routeKey), expiryOf);
    PublicationLives(s, c, vetting, false, now, source);
    var was := At(s.records, V3(c.routeKey));
    if y in was {
      var i: nat, j: nat :| i < |was| && j < |was| && was[i] == x && was[j] == y;
      assert i == j;
    }
  }

  // ---- publication in the older models ----

  /**
    One list is touched; only the route itself is added, and only with success; an unexpired route leaves it only for a
    greater sequence of the same endpoint; and the answer is the life of the route that is now there.
   */
  ghost predicate PlainLife(s: Store, e: Effect<nat>, key: StoreKey, r: PlainRoute, now: nat) {
    var was, after := At(s.records, key), At(e.store.records, key);
    && (forall k :: k != key ==> At(e.store.records, k) == At(s.records, k))
    && (forall y :: y in after ==> y in was || (e.result.Ok? && IsPlain(y, r)))
    && (forall x :: x in was && now < x.expires ==> x in after || (e.result.Ok? && x.endpointKey == r.endpointKey && x.sequence < r.sequence))
    && (e.result.Ok? ==>
          && e.result.value == r.expires && (exists y :: y in after && IsPlain(y, r))
          && forall x :: x in was && now < x.expires && x.endpointKey == r.endpointKey ==> x.sequence < r.sequence)
  }

  /** What publishing a version-1 or version-2 route does to live routes, on every path. */
  lemma PlainLives(s: Store, key: StoreKey, r: PlainRoute, vetting: Vetting, now: nat, source: string)
    requires Distinct(At(s.records, key))
    ensures var e := PutPlain(s, key, r, vetting, now, source);
            (e.result.Ok? ==> vetting.Verified?) && PlainLife(s, e, key, r, now)
  {
    hide Put, At, Unexpired, Distinct, PlainLife, PlainPreflight, Without;
    var was := At(s.records, key);
    var live := Unexpired(was, now);
    UnexpiredExactly(was, now);
    UnexpiredIs(was, now);
    PutAt(s.records, key, live);
    var p := PruneKey(s, key, now);
    var a := PlainPreflight(p, key, r, source);
    var e := PutPlain(s, key, r, vetting, now, source);
    if e.result.Ok? {
      PreflightAllows(p, key, r, source);
      ReplacedPlain(live, a.value, r, source);
      PutAt(p.records, key, Without(live, a.value) + [PlainItem(r, source)]);
      PlainDone(s, p, e, key, r, now);
    } else {
      PlainRefused(s, e, key, r, now);
    }
  }

  lemma PreflightAllows(p: Store, key: StoreKey, r: PlainRoute, source: string)
    ensures var a := PlainPreflight(p, key, r, source);
            var live := At(p.records, key);
            a.Ok? ==> a.value == FindEndpoint(live, r.endpointKey) && (a.value.Some? ==> live[a.value.value].sequence < r.sequence)
  {
    hide Size, SourceCount, At;
  }

  lemma PlainRefused(s: Store, e: Effect<nat>, key: StoreKey, r: PlainRoute, now: nat)
    requires e.result.Err? && forall k :: k != key ==> At(e.store.records, k) == At(s.records, k)
    requires forall x :: x in At(e.store.records, key) ==> x in At(s.records, key)
    requires forall x :: x in At(s.records, key) && now < x.expires ==> x in At(e.store.records, key)
    ensures PlainLife(s, e, key, r, now)
  {
    hide At;
  }

  lemma PlainDone(s: Store, p: Store, e: Effect<nat>, key: StoreKey, r: PlainRoute, now: nat)
    requires e.result == Ok(r.expires) && forall k :: k != key ==> At(e.store.records, k) == At(s.records, k)
    requires forall x :: x in At(p.records, key) <==> x in At(s.records, key) && now < x.expires
    requires Replaces(At(p.records, key), At(e.store.records, key), r)
    ensures PlainLife(s, e, key, r, now)
  {
    hide At;
  }

  /** The route takes the place of a lower sequence of its endpoint, or a new one. */
  ghost predicate Replaces(live: seq<StoredRoute>, after: seq<StoredRoute>, r: PlainRoute) {
    && (forall y :: y in after ==> y in live || IsPlain(y, r))
    && (forall x :: x in live ==> x in after || (x.endpointKey == r.endpointKey && x.sequence < r.sequence))
    && (exists y :: y in after && IsPlain(y, r))
    && forall x :: x in live && x.endpointKey == r.endpointKey ==> x.sequence < r.sequence
  }

  predicate IsPlain(y: StoredRoute, r: PlainRoute) {
    y.endpointKey == r.endpointKey && y.sequence == r.sequence && y.expires == r.expires && y.raw == r.raw && y.sampleable == r.sampleable
  }

  lemma ReplacedPlain(live: seq<StoredRoute>, at: Option<nat>, r: PlainRoute, source: string)
    requires Distinct(live) && at == FindEndpoint(live, r.endpointKey) && (at.Some? ==> live[at.value].sequence < r.sequence)
    ensures Replaces(live, Without(live, at) + [PlainItem(r, source)], r)
  {
    hide RemoveAt;
    var rest := Without(live, at);
    var item := PlainItem(r, source);
    assert item in rest + [item] && IsPlain(item, r);
    if at.Some? {
      RemoveAtMembers(live, at.value);
      forall x | x in live && x.endpointKey == r.endpointKey ensures x == live[at.value] {
        var j: nat :| j < |live| && live[j] == x;
      }
    }
  }

  lemma RemoveAtMembers(items: seq<StoredRoute>, i: nat)
    requires i < |items|
    ensures forall x :: x in RemoveAt(items, i) ==> x in items
    ensures forall x :: x in items ==> x == items[i] || x in RemoveAt(items, i)
  {
    forall x | x in items ensures x == items[i] || x in RemoveAt(items, i) {
      var j: nat :| j < |items| && items[j] == x;
      if j != i {
        assert RemoveAt(items, i)[if j < i then j else j - 1] == x;
      }
    }
  }

  // ---- whole runs ----

  ghost predicate OpRun(states: seq<Store>, ops: seq<Operation>, limits: Limits, expiryOf: Expiry) {
    && limits.Valid() && |states| == |ops| + 1 && states[0] == Fresh(limits)
    && forall i :: 0 <= i < |ops| ==> Allowed(states[i], ops[i], expiryOf) && states[i + 1] == Do(states[i], ops[i])
  }

  lemma {:induction false} OpRunKeeps(states: seq<Store>, ops: seq<Operation>, limits: Limits, expiryOf: Expiry, n: nat)
    requires OpRun(states, ops, limits, expiryOf) && n < |states|
    ensures Inv(states[n], expiryOf)
  {
    hide Inv, Allowed, Do;
    if n == 0 {
      FreshOk(limits, expiryOf);
    } else {
      OpRunKeeps(states, ops, limits, expiryOf, n - 1);
      DoKeeps(states[n - 1], ops[n - 1], expiryOf);
    }
  }

  /** One record under one route key. */
  datatype RouteId = RouteId(routeKey: nat, endpointKey: nat, endpointSequence: nat, endpointId: nat, sequence: nat, raw: nat)

  function IdOf(routeKey: nat, x: StoredRoute): RouteId {
    RouteId(routeKey, x.endpointKey, x.endpointSequence, x.endpointId, x.sequence, x.raw)
  }

  function CandidateId(c: Candidate): RouteId {
    RouteId(c.routeKey, c.endpointKey, c.endpointSequence, c.endpointId, c.sequence, c.raw)
  }

  /** The last bound current authority gave a record: by an accepted publication, or by a revalidation of its namespace. */
  ghost function Bound(states: seq<Store>, ops: seq<Operation>, n: nat, id: RouteId): Option<nat>
    requires n <= |ops| && |states| == |ops| + 1
  {
    if n == 0 then None
    else BoundAfter(states[n - 1], ops[n - 1], id, Bound(states, ops, n - 1, id))
  }

  ghost function BoundAfter(s: Store, op: Operation, id: RouteId, before: Option<nat>): Option<nat> {
    match op
    case StoreV3(c, vetting, current, held, now, source) =>
      if current && vetting.Verified? && CandidateId(c) == id && PutV3(s, c, vetting, current, now, source).result.Ok? then Some(vetting.until) else before
    case RevalidateV3(routeKey, authority, held, now) =>
      if routeKey == id.routeKey && Revalidate(s, routeKey, authority, now).result.Ok? then authority(id.raw) else before
    case _ => before
  }

  /** Every verified route of the store lives exactly as long as authority last said. */
  ghost predicate Faithful(s: Store, bound: RouteId -> Option<nat>) {
    forall k: nat, x :: x in At(s.records, V3(k)) && x.currentVerified ==> bound(IdOf(k, x)) == Some(x.expires)
  }

  /** Exactly the routes authority supports, each verified and with exactly its bound. */
  ghost predicate Supports(was: seq<StoredRoute>, after: seq<StoredRoute>, authority: Authority) {
    && (forall y :: y in after ==>
          y.currentVerified && authority(y.raw) == Some(y.expires) && exists x :: x in was && y == x.(expires := y.expires, currentVerified := true))
    && forall x :: x in was && authority(x.raw).Some? ==> x.(expires := authority(x.raw).value, currentVerified := true) in after
  }

  lemma {:induction false} RevalidatedAll(items: seq<StoredRoute>, authority: Authority)
    ensures Supports(items, Revalidated(items, authority), authority)
  {
    if items != [] {
      var last := items[|items| - 1];
      assert items == items[..|items| - 1] + [last];
      RevalidatedAll(items[..|items| - 1], authority);
      if authority(last.raw).Some? {
        var y := last.(expires := authority(last.raw).value, currentVerified := true);
        assert last in items && y == last.(expires := y.expires, currentVerified := true);
      }
    }
  }

  /** A revalidation keeps exactly the supported routes of its namespace, and touches no other list. */
  lemma RevalidationLives(s: Store, routeKey: nat, authority: Authority, now: nat)
    ensures var e := Revalidate(s, routeKey, authority, now);
            var was, after := At(s.records, V3(routeKey)), At(e.store.records, V3(routeKey));
            && (forall k :: k != V3(routeKey) ==> At(e.store.records, k) == At(s.records, k))
            && (e.result.Err? ==> after == was) && (e.result.Ok? ==> Supports(was, after, authority))
  {
    hide Put, At, Revalidated, Lapsed, Retained, Supports;
    var items := At(s.records, V3(routeKey));
    RevalidatedAll(items, authority);
    PutAt(s.records, V3(routeKey), Revalidated(items, authority));
  }

  lemma SupportedOnly(s: Store, routeKey: nat, authority: Authority, now: nat)
    ensures var e := Revalidate(s, routeKey, authority, now);
            e.result.Ok? ==> Supports(At(s.records, V3(routeKey)), At(e.store.records, V3(routeKey)), authority)
  {
    hide Revalidate, Supports;
    RevalidationLives(s, routeKey, authority, now);
  }

  /** What an operation leaves of one version-3 list when it is neither a publication nor a revalidation under it. */
  lemma OthersOnlyPrune(s: Store, op: Operation, k: nat, y: StoredRoute)
    requires !op.StoreV3? && !op.RevalidateV3? && y in At(Do(s, op).records, V3(k))
    requires op.StorePlain? ==> !op.key.model.HrmNamedV3? && Distinct(At(s.records, op.key))
    ensures y in At(s.records, V3(k))
  {
    hide PutPlain, Unexpired, Put, At;
    match op
    case StorePlain(key, route, vetting, now, source) => PlainLives(s, key, route, vetting, now, source);
    case WithdrawV3(routeKey) => PutAt(s.records, V3(routeKey), []);
    case PruneV3(now) =>
    case PruneList(key, now) =>
      var at := EffectiveNow(s, key.model, now);
      PutAt(s.records, key, Unexpired(At(s.records, key), at));
      UnexpiredExactly(At(s.records, key), at);
    case Restart(now, minimum) => RestartIsEmpty(s, now, minimum, k);
  }

  lemma RestartIsEmpty(s: Store, now: nat, minimum: nat, k: nat)
    ensures At(Do(s, Restart(now, minimum)).records, V3(k)) == []
  {
  }

  lemma StoreIsFaithful(s: Store, op: Operation, k: nat, y: StoredRoute, bound: RouteId -> Option<nat>, expiryOf: Expiry)
    requires op.StoreV3? && Inv(s, expiryOf) && Inv(Do(s, op), expiryOf) && Faithful(s, bound)
    requires y in At(Do(s, op).records, V3(k)) && y.currentVerified
    ensures BoundAfter(s, op, IdOf(k, y), bound(IdOf(k, y))) == Some(y.expires)
  {
    hide PutV3, Inv, At, Put;
    var e := PutV3(s, op.c, op.vetting, op.current, op.now, op.source);
    AtDistinct(s, V3(op.c.routeKey), expiryOf);
    PublicationLives(s, op.c, op.vetting, op.current, op.now, op.source);
    PutAt(e.store.records, V3(op.c.routeKey), []);
    var until := if op.vetting.Verified? then op.vetting.until else 0;
    var was, after := At(s.records, V3(op.c.routeKey)), At(e.store.records, V3(op.c.routeKey));
    if k == op.c.routeKey {
      assert y in after && (y in was || Changed(was, y, op.c, until, op.current, op.now));
      if op.current && e.result.Ok? && IsRecord(y, op.c) {
        AtDistinct(Do(s, op), V3(k), expiryOf);
        SameEndpointSame(after, op.c, until, e.result.value, y);
      }
    }
  }

  lemma SameEndpointSame(after: seq<StoredRoute>, c: Candidate, until: nat, answer: nat, y: StoredRoute)
    requires Distinct(after) && Answers(after, c, until, true, answer) && y in after && IsRecord(y, c)
    ensures y.expires == until
  {
    var z :| z in after && IsRecord(z, c) && z.expires == answer;
    var i: nat, j: nat :| i < |after| && j < |after| && after[i] == y && after[j] == z;
  }

  lemma StepIsFaithful(s: Store, op: Operation, k: nat, y: StoredRoute, bound: RouteId -> Option<nat>, expiryOf: Expiry)
    requires Inv(s, expiryOf) && Allowed(s, op, expiryOf) && Faithful(s, bound)
    requires y in At(Do(s, op).records, V3(k)) && y.currentVerified
    ensures BoundAfter(s, op, IdOf(k, y), bound(IdOf(k, y))) == Some(y.expires)
  {
    DoKeeps(s, op, expiryOf);
    hide Inv, At, Put;
    if op.StoreV3? {
      StoreIsFaithful(s, op, k, y, bound, expiryOf);
    } else if op.RevalidateV3? {
      hide Revalidate;
      RevalidationLives(s, op.routeKey, op.authority, op.now);
      PutAt(Revalidate(s, op.routeKey, op.authority, op.now).store.records, V3(op.routeKey), []);
    } else {
      if op.StorePlain? {
        AtDistinct(s, op.key, expiryOf);
      }
      OthersOnlyPrune(s, op, k, y);
    }
  }

  /** In every run, restarts included: a verified route lives exactly as long as current authority last said of it. */
  lemma {:induction false} VerifiedWithinBound(
    states: seq<Store>, ops: seq<Operation>, limits: Limits, expiryOf: Expiry, n: nat, k: nat, y: StoredRoute)
    requires OpRun(states, ops, limits, expiryOf) && n < |states| && y in At(states[n].records, V3(k)) && y.currentVerified
    ensures Bound(states, ops, n, IdOf(k, y)) == Some(y.expires)
    decreases n
  {
    hide Do, Allowed, BoundAfter;
    if n > 0 {
      var bound := (id: RouteId) => if 0 < n <= |ops| && |states| == |ops| + 1 then Bound(states, ops, n - 1, id) else None;
      forall j: nat, x | x in At(states[n - 1].records, V3(j)) && x.currentVerified ensures bound(IdOf(j, x)) == Some(x.expires) {
        VerifiedWithinBound(states, ops, limits, expiryOf, n - 1, j, x);
      }
      OpRunKeeps(states, ops, limits, expiryOf, n - 1);
      StepIsFaithful(states[n - 1], ops[n - 1], k, y, bound, expiryOf);
    }
  }

  // ---- the older models over runs ----

  /** An operation that happens while something expiring at `t` is still alive, in one life of the process. */
  predicate Within(op: Operation, t: nat) {
    match op
    case WithdrawV3(_) => true
    case Restart(_, _) => false
    case _ => op.now < t
  }

  /** While it is alive, a version-1 or version-2 route stays, or is replaced by one with a greater sequence. */
  lemma PlainStep(s: Store, op: Operation, key: StoreKey, x: StoredRoute, expiryOf: Expiry) returns (y: StoredRoute)
    requires Inv(s, expiryOf) && Allowed(s, op, expiryOf) && !key.model.HrmNamedV3? && x in At(s.records, key) && Within(op, x.expires)
    ensures y in At(Do(s, op).records, key) && y.endpointKey == x.endpointKey && (y == x || x.sequence < y.sequence)
  {
    hide PutPlain, PutV3, Revalidate, Unexpired, Put, At, Inv;
    y := x;
    match op
    case StoreV3(c, vetting, current, held, now, source) =>
      AtDistinct(s, V3(c.routeKey), expiryOf);
      PublicationLives(s, c, vetting, current, now, source);
      PutAt(PutV3(s, c, vetting, current, now, source).store.records, V3(c.routeKey), []);
    case StorePlain(other, r, vetting, now, source) =>
      AtDistinct(s, other, expiryOf);
      PlainLives(s, other, r, vetting, now, source);
      if other == key && x !in At(Do(s, op).records, key) {
        y :| y in At(Do(s, op).records, key) && IsPlain(y, r);
      }
    case RevalidateV3(routeKey, authority, held, now) =>
      RevalidationLives(s, routeKey, authority, now);
      PutAt(Revalidate(s, routeKey, authority, now).store.records, V3(routeKey), []);
    case WithdrawV3(routeKey) => PutAt(s.records, V3(routeKey), []);
    case PruneV3(now) =>
    case PruneList(other, now) =>
      var at := EffectiveNow(s, other.model, now);
      PutAt(s.records, other, Unexpired(At(s.records, other), at));
      UnexpiredExactly(At(s.records, other), at);
  }

  /**
    Over a run, as long as the endpoint's route under that key never lapses between two operations, its sequence does
    not fall, and the route is the same if its sequence is.
   */
  lemma {:induction false} PlainNeverGoesBack(
    states: seq<Store>, ops: seq<Operation>, limits: Limits, expiryOf: Expiry, i: nat, j: nat, key: StoreKey, x: StoredRoute) returns (y: StoredRoute)
    requires OpRun(states, ops, limits, expiryOf) && i <= j < |states| && !key.model.HrmNamedV3? && x in At(states[i].records, key)
    requires forall n, z :: i <= n < j && z in At(states[n].records, key) && z.endpointKey == x.endpointKey ==> Within(ops[n], z.expires)
    ensures y in At(states[j].records, key) && y.endpointKey == x.endpointKey && (y == x || x.sequence < y.sequence)
    decreases j
  {
    hide Do, Allowed, At;
    y := x;
    if i < j {
      var z := PlainNeverGoesBack(states, ops, limits, expiryOf, i, j - 1, key, x);
      OpRunKeeps(states, ops, limits, expiryOf, j - 1);
      y := PlainStep(states[j - 1], ops[j - 1], key, z, expiryOf);
    }
  }

  // ---- what the ledger remembers, and for how long ----

  /** The scope is remembered to the end of the record's signed life, and for two hours after this sighting. */
  ghost predicate Remembered(s: Store, c: Candidate, now: nat) {
    && LedgerKey(c.routeKey, c.endpointKey) in s.ledger
    && var e := s.ledger[LedgerKey(c.routeKey, c.endpointKey)];
       c.signedExpiry <= e.retainUntil && (now + 7200 <= e.retainUntil || e.retainUntil >= U64_MAX)
  }

  lemma JudgedRemembers(s: Store, c: Candidate, current: bool, now: nat, source: string)
    ensures var e := InsertJudged(s, c, L.Classify(EntryAt(s.ledger, KeyOf(c)), SightingOf(c, now)), current, now, source);
            e.result.Ok? || (e.result.Err? && e.result.error.Rejected?) ==> Remembered(e.store, c, now)
  {
    hide LivePreflight, Applied, StoredUntil, Put, At, L.Classify, L.NextEntry;
    var o := SightingOf(c, now);
    var previous := EntryAt(s.ledger, KeyOf(c));
    L.NextEntryNeverErrs(previous, o);
    RetainedBeyond(previous, o);
    NeverRejectsEarly(s, c, source, L.Classify(previous, o));
  }

  lemma NeverRejectsEarly(s: Store, c: Candidate, source: string, v: L.Verdict)
    ensures var a := LivePreflight(s, c, source, v);
            a.Err? ==> !a.error.Rejected?
  {
    hide Fits, At;
  }

  /** A verified record that is accepted, or refused for what the ledger holds, is remembered so. */
  lemma PublicationRemembers(s: Store, c: Candidate, vetting: Vetting, current: bool, now: nat, source: string)
    requires vetting.Verified?
    ensures var e := PutV3(s, c, vetting, current, now, source);
            e.result.Ok? || (e.result.Err? && e.result.error.Rejected?) ==> Remembered(e.store, c, now)
  {
    hide InsertJudged, LivePreflight, Put, At, L.Classify, Remembered;
    var untrusted, trusted := c.(expires := c.signedExpiry), c.(expires := vetting.until);
    var p := PreflightUntrusted(s, untrusted, now, source);
    FutileIsRemembered(PruneLedger(s, now).store, untrusted, now);
    PreflightRejects(s, untrusted, now, source);
    var t := PruneLedger(p.store, now).store;
    JudgedRemembers(PruneKey(t, V3(c.routeKey), now), trusted, current, now, source);
    SameRemembered(PutV3(s, c, vetting, current, now, source).store, c, untrusted, trusted, now);
  }

  lemma SameRemembered(s: Store, c: Candidate, d: Candidate, e: Candidate, now: nat)
    requires d == c.(expires := d.expires) && e == c.(expires := e.expires)
    ensures Remembered(s, c, now) == Remembered(s, d, now) == Remembered(s, e, now)
  {
  }

  lemma FutileIsRemembered(s: Store, c: Candidate, now: nat)
    ensures LedgerPreflight(s, c, now).Ok? && Futile(s, c, LedgerPreflight(s, c, now).value, now) ==> Remembered(s, c, now)
  {
    hide L.Classify;
  }

  lemma PreflightRejects(s: Store, c: Candidate, now: nat, source: string)
    ensures var p := PreflightUntrusted(s, c, now, source);
            var t := PruneLedger(s, now).store;
            p.result.Err? && p.result.error.Rejected? ==>
              p.store == t && LedgerPreflight(t, c, now).Ok? && Futile(t, c, LedgerPreflight(t, c, now).value, now)
  {
    hide LivePreflight, Futile, L.Classify, Lapsed, Retained;
    var t := PruneLedger(s, now).store;
    var v := LedgerPreflight(t, c, now);
    if v.Ok? {
      NeverRejectsEarly(PruneKey(t, V3(c.routeKey), now), c, source, v.value);
    }
  }

  // ---- refusals for want of room ----

  /** A record is refused for capacity only if the ledger or the live cache is full for it. */
  ghost predicate NoRoomFor(s: Store, c: Candidate, source: string) {
    || (LedgerKey(c.routeKey, c.endpointKey) !in s.ledger
        && (|s.ledger| >= s.limits.total || |(set k | k in s.ledger && k.routeKey == c.routeKey)| >= s.limits.perKey))
    || |At(s.records, V3(c.routeKey))| >= s.limits.perKey || Size(s.records) >= s.limits.total || SourceCount(s.records, source) >= s.limits.perSource
  }

  lemma JudgedFull(s: Store, c: Candidate, v: L.Verdict, current: bool, now: nat, source: string)
    requires InsertJudged(s, c, v, current, now, source).result == Err(Capacity)
    ensures NoRoomFor(s, c, source)
  {
    hide Size, SourceCount, L.NextEntry, Applied, At, Put;
  }

  lemma InsertFull(s: Store, c: Candidate, current: bool, now: nat, source: string)
    requires Insert(s, c, current, now, source).result == Err(Capacity)
    ensures NoRoomFor(PruneKey(PruneLedger(s, now).store, V3(c.routeKey), now), c, source)
  {
    hide Size, SourceCount, InsertJudged, Put, At, L.Classify, Lapsed, Retained;
    var p := PruneLedger(s, now);
    var v := LedgerPreflight(p.store, c, now);
    if v.Ok? {
      JudgedFull(PruneKey(p.store, V3(c.routeKey), now), c, v.value, current, now, source);
    }
  }

  // ---- restoring the ledger ----

  /** A ledger is restored only into a fresh store of the same shape, at or above the floor, and not into the past. */
  lemma RestoreIff(s: Store, image: Snapshot, now: nat, floor: nat)
    ensures var e := Restore(s, image, now, floor);
            && (e.result.Ok? <==>
                  && s == Fresh(s.limits) && image.capacity == s.limits.total && image.perKey == s.limits.perKey && |image.ledger| <= s.limits.total
                  && floor <= image.revision && image.prunedThrough <= now
                  && (|Retained(image.ledger, now)| != |image.ledger| ==> image.revision + 1 < U64_MAX))
            && (e.result.Ok? ==>
                  && e.store.records == map[] && floor <= e.store.revision
                  && e.store.ledger == map k | k in image.ledger && now < image.ledger[k].retainUntil :: image.ledger[k])
            && (e.result.Err? ==> e.store == s)
  {
  }

  // ---- pruning and withdrawal ----

  /** Pruning the ledger forgets exactly the scopes whose horizon has passed, under one new revision, and touches no live route. */
  lemma PruningMeans(s: Store, now: nat)
    ensures var e := PruneLedger(s, now);
            && e.store.records == s.records && e.store.limits == s.limits
            && (e.result.Err? <==> now < s.prunedThrough || ((exists k :: k in s.ledger && s.ledger[k].retainUntil <= now) && s.revision + 1 >= U64_MAX))
            && (e.result.Err? ==> e.store == s)
            && (e.result.Ok? ==>
                  && e.store.ledger == (map k | k in s.ledger && now < s.ledger[k].retainUntil :: s.ledger[k])
                  && (if e.store.ledger == s.ledger then e.store == s else e.store.revision == s.revision + 1 && e.store.prunedThrough == now))
  {
    var gone := Lapsed(s.ledger, now);
    if gone == {} {
      assert forall k :: k in s.ledger ==> k !in gone;
    } else {
      var k :| k in gone;
    }
  }

  /** A withdrawal drops the live version-3 routes of one namespace, and keeps every other route and the whole ledger. */
  lemma WithdrawalMeans(s: Store, routeKey: nat)
    ensures var t := Withdraw(s, routeKey);
            && At(t.records, StoreKey(HrmNamedV3, routeKey)) == [] && t == s.(records := t.records)
            && forall k :: k != StoreKey(HrmNamedV3, routeKey) ==> At(t.records, k) == At(s.records, k)
  {
  }

  /** An operation under current authority that lost its lease meanwhile says so and leaves no live route of the namespace; otherwise it stands. */
  lemma LostLeaseWithdraws<T>(e: Effect<T>, routeKey: nat, held: bool)
    ensures var f := FinishCurrent(e, routeKey, held);
            if held then f == e
            else
              && f.result == Err(LeaseLost) && At(f.store.records, StoreKey(HrmNamedV3, routeKey)) == []
              && BookOf(f.store) == BookOf(e.store) && forall k :: k != StoreKey(HrmNamedV3, routeKey) ==> At(f.store.records, k) == At(e.store.records, k)
  {
  }
}
