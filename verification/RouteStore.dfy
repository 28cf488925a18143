/**
  The rendezvous route store: a volatile cache of live routes beside an independent replay ledger.

  The store is a value here, without the counters the program derives from it; each operation is a function.
  The invariant says how the cache and the ledger agree at every moment, so that the program's own consistency
  errors are unreachable.
 */
module RouteStores {
  import opened Common
  import opened Tallies
  import Replay
  import L = ReplayLedger

  const MAX_RECORDS_PER_KEY: nat := 16
  const MAX_STORED_RECORDS: nat := 50_000
  const MAX_ROUTE_LIFETIME: nat := 7200

  // ---- values ----

  datatype Model = UnnamedV1 | LegacyNamedV2 | HrmNamedV3

  datatype StoreKey = StoreKey(model: Model, routeKey: nat)

  datatype LedgerKey = LedgerKey(routeKey: nat, endpointKey: nat)

  /** A live route; `raw` stands for the encoded record and for its canonical hash alike. */
  datatype StoredRoute = StoredRoute(
    endpointKey: nat, sequence: nat, expires: nat, sampleable: bool, currentVerified: bool,
    endpointSequence: nat, endpointId: nat, source: string, raw: nat)

  datatype Limits = Limits(total: nat, perKey: nat, perSource: nat)
  {
    predicate Valid() { 0 < perKey <= total <= MAX_STORED_RECORDS && perKey <= MAX_RECORDS_PER_KEY && 0 < perSource }
  }

  datatype Store = Store(
    limits: Limits, records: map<StoreKey, seq<StoredRoute>>, ledger: map<LedgerKey, L.Entry>, revision: nat, prunedThrough: nat)

  /** A version-3 record offered for storage: `expires` bounds its cache life, `signedExpiry` is in the record. */
  datatype Candidate = Candidate(
    routeKey: nat, endpointKey: nat, endpointSequence: nat, endpointId: nat, sequence: nat, raw: nat, expires: nat, signedExpiry: nat)

  /** The consistency errors the program can raise but, as proved below, never does. */
  datatype Inconsistency = LiveWithoutLedger | IdempotentDisagrees | LiveDisagrees | EntryChanged | DispositionsDisagree | NoRejection

  datatype Error =
    | ClockRollback | RevisionExhausted | LeaseLost | Capacity | EmptySource | TooManyAttempts | BadRecord | NotVerified | StaleSequence
    | Rejected(why: L.Rejection) | Inconsistent(what: Inconsistency) | Incompatible

  datatype Effect<+T> = Effect(store: Store, result: Result<T, Error>)

  function Fresh(limits: Limits): Store {
    Store(limits, map[], map[], 0, 0)
  }

  function V3(routeKey: nat): StoreKey {
    StoreKey(HrmNamedV3, routeKey)
  }

  // ---- lists of live routes ----

  function Unexpired(items: seq<StoredRoute>, now: nat): seq<StoredRoute> {
    if items == [] then []
    else
      var front := Unexpired(items[..|items| - 1], now);
      if items[|items| - 1].expires <= now then front else front + [items[|items| - 1]]
  }

  function RemoveAt(items: seq<StoredRoute>, i: nat): seq<StoredRoute>
    requires i < |items|
  {
    items[..i] + items[i + 1..]
  }

  function FindEndpoint(items: seq<StoredRoute>, endpointKey: nat): (r: Option<nat>)
    ensures r.Some? ==> r.value < |items| && items[r.value].endpointKey == endpointKey
    ensures r.None? ==> forall i :: 0 <= i < |items| ==> items[i].endpointKey != endpointKey
  {
    if items == [] then None
    else if items[0].endpointKey == endpointKey then Some(0)
    else
      var rest := FindEndpoint(items[1..], endpointKey);
      if rest.None? then None else Some(rest.value + 1)
  }

  // ---- pruning ----

  function NextRevision(revision: nat): Result<nat, Error> {
    if revision + 1 >= U64_MAX then Err(RevisionExhausted) else Ok(revision + 1)
  }

  function Lapsed(ledger: map<LedgerKey, L.Entry>, now: nat): set<LedgerKey> {
    set k | k in ledger && ledger[k].retainUntil <= now
  }

  function Retained(ledger: map<LedgerKey, L.Entry>, now: nat): map<LedgerKey, L.Entry> {
    map k | k in ledger && ledger[k].retainUntil > now :: ledger[k]
  }

  function PruneLedger(s: Store, now: nat): Effect<nat> {
    if now < s.prunedThrough then Effect(s, Err(ClockRollback))
    else if Lapsed(s.ledger, now) == {} then Effect(s, Ok(0))
    else
      var next := NextRevision(s.revision);
      if next.Err? then Effect(s, Err(next.error))
      else Effect(s.(ledger := Retained(s.ledger, now), revision := next.value, prunedThrough := now), Ok(|Lapsed(s.ledger, now)|))
  }

  function PruneKey(s: Store, key: StoreKey, now: nat): Store {
    s.(records := Put(s.records, key, Unexpired(At(s.records, key), now)))
  }

  // ---- counting ----

  function RouteKeys(ledger: map<LedgerKey, L.Entry>, routeKey: nat): set<LedgerKey> {
    set k | k in ledger && k.routeKey == routeKey
  }

  function FromSource(items: seq<StoredRoute>, source: string): nat {
    if items == [] then 0
    else FromSource(items[..|items| - 1], source) + if items[|items| - 1].source == source then 1 else 0
  }

  ghost function Size(records: map<StoreKey, seq<StoredRoute>>): nat {
    Sum(records, (items: seq<StoredRoute>) => |items|)
  }

  ghost function SourceCount(records: map<StoreKey, seq<StoredRoute>>, source: string): nat {
    Sum(records, (items: seq<StoredRoute>) => FromSource(items, source))
  }

  // ---- admission of a version-3 record ----

  function Horizon(signedExpiry: nat, now: nat): nat {
    Max(signedExpiry, SaturatingAdd(now, MAX_ROUTE_LIFETIME))
  }

  function SightingOf(c: Candidate, now: nat): L.Sighting {
    L.Sighting(Replay.Seen(c.endpointSequence, c.endpointId), Replay.Seen(c.sequence, c.raw), Horizon(c.signedExpiry, now))
  }

  function EntryAt(ledger: map<LedgerKey, L.Entry>, k: LedgerKey): Option<L.Entry> {
    if k in ledger then Some(ledger[k]) else None
  }

  function KeyOf(c: Candidate): LedgerKey {
    LedgerKey(c.routeKey, c.endpointKey)
  }

  function LedgerPreflight(s: Store, c: Candidate, now: nat): Result<L.Verdict, Error> {
    if KeyOf(c) !in s.ledger && (|s.ledger| >= s.limits.total || |RouteKeys(s.ledger, c.routeKey)| >= s.limits.perKey)
    then Err(Capacity)
    else Ok(L.Classify(EntryAt(s.ledger, KeyOf(c)), SightingOf(c, now)))
  }

  datatype LiveAction = New | Replace(index: nat) | Refresh(index: nat) | RemoveRejected(at: Option<nat>) | KeepRejected
  {
    predicate Accepts() { New? || Replace? || Refresh? }
  }

  predicate SameEndpoint(item: StoredRoute, c: Candidate) {
    item.endpointSequence == c.endpointSequence && item.endpointId == c.endpointId
  }

  predicate SameRoute(item: StoredRoute, c: Candidate) {
    item.sequence == c.sequence && item.raw == c.raw
  }

  /** What to do with the live route of the same endpoint, before the quotas. */
  function LiveMatch(items: seq<StoredRoute>, c: Candidate, v: L.Verdict): (r: Result<LiveAction, Error>)
    ensures r.Ok? && (r.value.Replace? || r.value.Refresh?) ==> FindEndpoint(items, c.endpointKey) == Some(r.value.index)
    ensures r.Ok? && r.value.RemoveRejected? ==> r.value.at == FindEndpoint(items, c.endpointKey)
    ensures r.Ok? && r.value.New? ==> FindEndpoint(items, c.endpointKey) == None
  {
    var previous := FindEndpoint(items, c.endpointKey);
    if !v.MatchesFinal() then Ok(if v.Mutates() then RemoveRejected(previous) else KeepRejected)
    else if previous.None? then Ok(New)
    else if v.newScope then Err(Inconsistent(LiveWithoutLedger))
    else
      var item := items[previous.value];
      if v.IsIdempotent() then
        (if SameEndpoint(item, c) && SameRoute(item, c) then Ok(Refresh(previous.value)) else Err(Inconsistent(IdempotentDisagrees)))
      else
        var endpointAgrees := (v.endpoint.Idempotent? && SameEndpoint(item, c)) || (v.endpoint.Advance? && item.endpointSequence < c.endpointSequence);
        var routeAgrees := (v.route.Idempotent? && SameRoute(item, c)) || (v.route.Advance? && item.sequence < c.sequence);
        if endpointAgrees && routeAgrees then Ok(Replace(previous.value)) else Err(Inconsistent(LiveDisagrees))
  }

  /** The quotas an accepted live route must fit. */
  ghost predicate Fits(s: Store, c: Candidate, source: string, a: LiveAction) {
    var items := At(s.records, V3(c.routeKey));
    && (a.New? ==> |items| < s.limits.perKey && Size(s.records) < s.limits.total)
    && (a.New? || a.Replace? ==>
          || SourceCount(s.records, source) < s.limits.perSource
          || (a.Replace? && a.index < |items| && items[a.index].source == source))
  }

  /** Expects the live list to be pruned already. */
  ghost function LivePreflight(s: Store, c: Candidate, source: string, v: L.Verdict): Result<LiveAction, Error> {
    var a := LiveMatch(At(s.records, V3(c.routeKey)), c, v);
    if a.Err? then a
    else if !Fits(s, c, source, a.value) then Err(Capacity)
    else a
  }

  function ItemFor(c: Candidate, currentVerified: bool, source: string): StoredRoute {
    StoredRoute(c.endpointKey, c.sequence, c.expires, false, currentVerified, c.endpointSequence, c.endpointId, source, c.raw)
  }

  /** Re-admission of the same bytes: current verification sets the bound, plain admission may only lower it. */
  function Refreshed(item: StoredRoute, c: Candidate, currentVerified: bool): StoredRoute {
    if currentVerified then item.(expires := c.expires, currentVerified := true)
    else if !item.currentVerified then item.(expires := Min(item.expires, c.expires))
    else item
  }

  function Applied(items: seq<StoredRoute>, a: LiveAction, c: Candidate, currentVerified: bool, source: string): seq<StoredRoute>
    requires (a.Replace? || a.Refresh?) ==> a.index < |items|
    requires a.RemoveRejected? && a.at.Some? ==> a.at.value < |items|
  {
    match a
    case New => items + [ItemFor(c, currentVerified, source)]
    case Replace(i) => RemoveAt(items, i) + [ItemFor(c, currentVerified, source)]
    case Refresh(i) => items[i := Refreshed(items[i], c, currentVerified)]
    case RemoveRejected(at) => if at.None? then items else RemoveAt(items, at.value)
    case KeepRejected => items
  }

  function StoredUntil(items: seq<StoredRoute>, a: LiveAction, c: Candidate, currentVerified: bool): nat
    requires a.Refresh? ==> a.index < |items|
  {
    if a.Refresh? then Refreshed(items[a.index], c, currentVerified).expires else c.expires
  }

  /** Insertion of a record whose signatures and times have been verified. */
  ghost function Insert(s: Store, c: Candidate, currentVerified: bool, now: nat, source: string): Effect<nat> {
    var p := PruneLedger(s, now);
    if p.result.Err? then Effect(p.store, Err(p.result.error))
    else
      var v := LedgerPreflight(p.store, c, now);
      if v.Err? then Effect(p.store, Err(v.error))
      else InsertJudged(PruneKey(p.store, V3(c.routeKey), now), c, v.value, currentVerified, now, source)
  }

  /** The rest of an insertion: both prunings done, the verdict known. */
  ghost function InsertJudged(s: Store, c: Candidate, v: L.Verdict, currentVerified: bool, now: nat, source: string): Effect<nat> {
    var a := LivePreflight(s, c, source, v);
    if a.Err? then Effect(s, Err(a.error))
    else
      var previous := EntryAt(s.ledger, KeyOf(c));
      var next := L.NextEntry(previous, v, SightingOf(c, now));
      if next.None? then Effect(s, Err(Inconsistent(EntryChanged)))
      else if previous != next && NextRevision(s.revision).Err? then Effect(s, Err(RevisionExhausted))
      else if a.value.Accepts() != v.MatchesFinal() then Effect(s, Err(Inconsistent(DispositionsDisagree)))
      else
        var items := At(s.records, V3(c.routeKey));
        Effect(Committed(s, c, next.value, Applied(items, a.value, c, currentVerified, source)),
               Outcome(v, StoredUntil(items, a.value, c, currentVerified)))
  }

  function Outcome(v: L.Verdict, until: nat): Result<nat, Error> {
    var why := L.Reject(v);
    if why.Some? then Err(Rejected(why.value)) else Ok(until)
  }

  /** The store with one live list and one ledger entry replaced; the revision moves only with the ledger. */
  function Committed(s: Store, c: Candidate, next: L.Entry, items: seq<StoredRoute>): Store {
    var live := s.(records := Put(s.records, V3(c.routeKey), items));
    if EntryAt(s.ledger, KeyOf(c)) == Some(next) then live
    else live.(ledger := s.ledger[KeyOf(c) := next], revision := s.revision + 1)
  }

  /** The cheap checks on a record that is not verified yet: they prune, and mutate nothing else. */
  ghost function PreflightUntrusted(s: Store, c: Candidate, now: nat, source: string): Effect<()> {
    var p := PruneLedger(s, now);
    if p.result.Err? then Effect(p.store, Err(p.result.error))
    else
      var v := LedgerPreflight(p.store, c, now);
      if v.Err? then Effect(p.store, Err(v.error))
      else if Futile(p.store, c, v.value, now) then Effect(p.store, Err(Refusal(v.value)))
      else PreflightLive(PruneKey(p.store, V3(c.routeKey), now), c, source, v.value)
  }

  /** Rejected whatever its signatures say, and without extending any horizon. */
  predicate Futile(s: Store, c: Candidate, v: L.Verdict, now: nat) {
    && !v.MatchesFinal() && !v.Mutates()
    && KeyOf(c) in s.ledger && Horizon(c.signedExpiry, now) <= s.ledger[KeyOf(c)].retainUntil
  }

  function Refusal(v: L.Verdict): Error {
    var why := L.Reject(v);
    if why.Some? then Rejected(why.value) else Inconsistent(NoRejection)
  }

  ghost function PreflightLive(s: Store, c: Candidate, source: string, v: L.Verdict): Effect<()> {
    var a := LivePreflight(s, c, source, v);
    Effect(s, if a.Err? then Err(a.error) else Ok(()))
  }

  /**
    What becomes of a record before and after the cheap checks: refused by the rate limiter, not decodable or not for
    this key and network, not verified, or verified with a cache bound.
   */
  datatype Vetting = RateLimited | Unreadable | Unverified | Verified(until: nat)

  /** What stops a record before the store looks at it. */
  function Stopped(vetting: Vetting): Option<Error> {
    match vetting
    case RateLimited => Some(TooManyAttempts)
    case Unreadable => Some(BadRecord)
    case _ => None
  }

  /** Storing a version-3 record. Admission without current authority keeps the signed expiry as the bound. */
  ghost function PutV3(s: Store, c: Candidate, vetting: Vetting, currentVerified: bool, now: nat, source: string): Effect<nat> {
    if now < s.prunedThrough then Effect(s, Err(ClockRollback))
    else if source == "" then Effect(s, Err(EmptySource))
    else if Stopped(vetting).Some? then Effect(s, Err(Stopped(vetting).value))
    else
      var p := PreflightUntrusted(s, c.(expires := c.signedExpiry), now, source);
      if p.result.Err? then Effect(p.store, Err(p.result.error))
      else if vetting.Unverified? then Effect(p.store, Err(NotVerified))
      else Insert(p.store, c.(expires := vetting.until), currentVerified, now, source)
  }

  // ---- the older models ----

  /** A verified version-1 or version-2 route. */
  datatype PlainRoute = PlainRoute(endpointKey: nat, sequence: nat, expires: nat, sampleable: bool, raw: nat)

  function PlainItem(r: PlainRoute, source: string): StoredRoute {
    StoredRoute(r.endpointKey, r.sequence, r.expires, r.sampleable, false, 0, 0, source, r.raw)
  }

  /** The preflight: where the route would go, in a pruned store. */
  ghost function PlainPreflight(s: Store, key: StoreKey, r: PlainRoute, source: string): (a: Result<Option<nat>, Error>)
    ensures a.Ok? ==> a.value == FindEndpoint(At(s.records, key), r.endpointKey)
  {
    var items := At(s.records, key);
    var previous := FindEndpoint(items, r.endpointKey);
    if previous.Some? then
      (if items[previous.value].sequence >= r.sequence then Err(StaleSequence)
       else if SourceCount(s.records, source) >= s.limits.perSource && items[previous.value].source != source then Err(Capacity)
       else Ok(previous))
    else if |items| >= s.limits.perKey || Size(s.records) >= s.limits.total || SourceCount(s.records, source) >= s.limits.perSource then
      Err(Capacity)
    else Ok(None)
  }

  /** What is left of the list once the replaced route is out. */
  function Without(items: seq<StoredRoute>, at: Option<nat>): seq<StoredRoute>
    requires at.Some? ==> at.value < |items|
  {
    if at.None? then items else RemoveAt(items, at.value)
  }

  ghost function PutPlain(s: Store, key: StoreKey, r: PlainRoute, vetting: Vetting, now: nat, source: string): Effect<nat> {
    if source == "" then Effect(s, Err(EmptySource))
    else if Stopped(vetting).Some? then Effect(s, Err(Stopped(vetting).value))
    else
      var p := PruneKey(s, key, now);
      var a := PlainPreflight(p, key, r, source);
      if a.Err? then Effect(p, Err(a.error))
      else if !vetting.Verified? then Effect(p, Err(NotVerified))
      else Effect(p.(records := Put(p.records, key, Without(At(p.records, key), a.value) + [PlainItem(r, source)])), Ok(r.expires))
  }

  // ---- revalidation and withdrawal ----

  /** What current authority says of each retained record: its new cache bound, or nothing. */
  type Authority = nat -> Option<nat>

  function Revalidated(items: seq<StoredRoute>, authority: Authority): seq<StoredRoute> {
    if items == [] then []
    else
      var last := items[|items| - 1];
      var front := Revalidated(items[..|items| - 1], authority);
      if authority(last.raw).None? then front
      else front + [last.(expires := authority(last.raw).value, currentVerified := true)]
  }

  function Revalidate(s: Store, routeKey: nat, authority: Authority, now: nat): Effect<nat> {
    var p := PruneLedger(s, now);
    if p.result.Err? then Effect(p.store, Err(p.result.error))
    else
      var items := Revalidated(At(p.store.records, V3(routeKey)), authority);
      Effect(p.store.(records := Put(p.store.records, V3(routeKey), items)), Ok(|items|))
  }

  /** A committed withdrawal drops the live routes and keeps the ledger. */
  function Withdraw(s: Store, routeKey: nat): Store {
    s.(records := Put(s.records, V3(routeKey), []))
  }

  /** After an operation under committed authority: losing the lease meanwhile drops the routes it touched. */
  function FinishCurrent<T>(e: Effect<T>, routeKey: nat, held: bool): Effect<T> {
    if held then e else Effect(Withdraw(e.store, routeKey), Err(LeaseLost))
  }

  // ---- lookup ----

  function EffectiveNow(s: Store, model: Model, now: nat): nat {
    if model.HrmNamedV3? then Max(now, s.prunedThrough) else now
  }

  /** Stable, greatest sequence first. */
  function Ranked(items: seq<StoredRoute>): (r: seq<StoredRoute>)
    ensures multiset(r) == multiset(items)
    ensures Descending(r)
  {
    if items == [] then []
    else
      assert items == items[..|items| - 1] + [items[|items| - 1]];
      Ranks(Ranked(items[..|items| - 1]), items[|items| - 1])
  }

  /** `x` goes behind everything that is not below it. */
  function Ranks(items: seq<StoredRoute>, x: StoredRoute): (r: seq<StoredRoute>)
    requires Descending(items)
    ensures multiset(r) == multiset(items) + multiset{x}
    ensures Descending(r) && r != [] && (r[0] == x || (items != [] && r[0] == items[0]))
  {
    if items == [] then [x]
    else if items[0].sequence < x.sequence then [x] + items
    else
      assert items == [items[0]] + items[1..];
      [items[0]] + Ranks(items[1..], x)
  }

  predicate Descending(items: seq<StoredRoute>) {
    |items| <= 1 || (items[0].sequence >= items[1].sequence && Descending(items[1..]))
  }

  /** Lookup hides a version-3 route whose scope the ledger holds conflicted. */
  predicate Hidden(s: Store, key: StoreKey, item: StoredRoute, now: nat) {
    var k := LedgerKey(key.routeKey, item.endpointKey);
    key.model.HrmNamedV3? && k in s.ledger && s.ledger[k].retainUntil > now && s.ledger[k].Conflicted()
  }

  function Visible(s: Store, key: StoreKey, items: seq<StoredRoute>, now: nat): seq<StoredRoute> {
    if items == [] then []
    else if Hidden(s, key, items[0], now) then Visible(s, key, items[1..], now)
    else [items[0]] + Visible(s, key, items[1..], now)
  }

  function Lookup(s: Store, key: StoreKey, maximum: nat, now: nat): (Store, seq<StoredRoute>) {
    var at := EffectiveNow(s, key.model, now);
    var p := PruneKey(s, key, at);
    var found := Visible(p, key, Ranked(At(p.records, key)), at);
    var limit := Min(maximum, MAX_RECORDS_PER_KEY);
    (p, if |found| > limit then found[..limit] else found)
  }

  // ---- snapshots ----

  datatype Snapshot = Snapshot(capacity: nat, perKey: nat, revision: nat, prunedThrough: nat, ledger: map<LedgerKey, L.Entry>)

  function Capture(s: Store): Snapshot {
    Snapshot(s.limits.total, s.limits.perKey, s.revision, s.prunedThrough, s.ledger)
  }

  function TakeSnapshot(s: Store, now: nat): Effect<Snapshot> {
    var p := PruneLedger(s, now);
    Effect(p.store, if p.result.Err? then Err(p.result.error) else Ok(Capture(p.store)))
  }

  function Restore(s: Store, image: Snapshot, now: nat, minimumRevision: nat): Effect<()> {
    if s != Fresh(s.limits) || image.capacity != s.limits.total || image.perKey != s.limits.perKey
       || |image.ledger| > s.limits.total || image.revision < minimumRevision then Effect(s, Err(Incompatible))
    else if now < image.prunedThrough then Effect(s, Err(ClockRollback))
    else
      var kept := Retained(image.ledger, now);
      if |kept| == |image.ledger| then
        Effect(s.(ledger := kept, revision := image.revision, prunedThrough := image.prunedThrough), Ok(()))
      else
        var next := NextRevision(image.revision);
        if next.Err? then Effect(s, Err(next.error))
        else Effect(s.(ledger := kept, revision := next.value, prunedThrough := now), Ok(()))
  }
}
