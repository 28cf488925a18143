/**
  The storage-side replay ledger: per scope, the greatest endpoint-delegation and route sequences admitted, the
  least identity seen at each, whether a second one was seen, and how long to remember it.

  Folding verified sightings into an entry is characterised without reference to the fold, which makes the entry
  independent of arrival order.
 */
module ReplayLedger {
  import opened Common
  import Replay

  type Counter = Replay.Counter
  type Seen = Replay.Seen

  datatype Entry = Entry(endpoint: Counter, route: Counter, retainUntil: nat)
  {
    predicate Conflicted() { endpoint.conflicted || route.conflicted }
  }

  /** What one verified record says about its scope. */
  datatype Sighting = Sighting(endpoint: Seen, route: Seen, retainUntil: nat)

  datatype Disposition = Stale | Idempotent | Conflict | AlreadyConflicted | Advance
  {
    predicate Mutates() { Conflict? || Advance? }
    predicate MatchesFinal() { Idempotent? || Advance? }
    predicate IsConflict() { Conflict? || AlreadyConflicted? }
  }

  /** Both dimensions; neither cuts the other short. */
  datatype Verdict = Verdict(newScope: bool, endpoint: Disposition, route: Disposition)
  {
    predicate Mutates() { newScope || endpoint.Mutates() || route.Mutates() }
    predicate MatchesFinal() { newScope || (endpoint.MatchesFinal() && route.MatchesFinal()) }
    predicate IsIdempotent() { !newScope && endpoint.Idempotent? && route.Idempotent? }
    predicate IsConflict() { endpoint.IsConflict() || route.IsConflict() }
    predicate IsStale() { endpoint.Stale? || route.Stale? }
  }

  datatype Rejection = ConflictingSequence | StaleSequence | Incomplete

  function Reject(v: Verdict): Option<Rejection> {
    if v.MatchesFinal() then None
    else if v.IsConflict() then Some(ConflictingSequence)
    else if v.IsStale() then Some(StaleSequence)
    else Some(Incomplete)
  }

  function ClassifyCounter(k: Counter, x: Seen): Disposition {
    if x.sequence < k.high then Stale
    else if x.sequence > k.high then Advance
    else if k.conflicted && x.id < k.id then Conflict
    else if k.conflicted then AlreadyConflicted
    else if k.id != x.id then Conflict
    else Idempotent
  }

  function Classify(current: Option<Entry>, o: Sighting): Verdict {
    if current.None? then Verdict(true, Advance, Advance)
    else Verdict(false, ClassifyCounter(current.value.endpoint, o.endpoint), ClassifyCounter(current.value.route, o.route))
  }

  /** One dimension of the next entry. The code re-checks the disposition and fails if it no longer fits. */
  function Apply(k: Counter, d: Disposition, x: Seen): Option<Counter> {
    match d
    case Stale => if x.sequence < k.high then Some(k) else None
    case Idempotent => if x.sequence == k.high && !k.conflicted && x.id == k.id then Some(k) else None
    case Conflict =>
      if x.sequence == k.high && x.id != k.id then Some(Replay.Counter(k.high, true, Min(k.id, x.id))) else None
    case AlreadyConflicted => if x.sequence == k.high && k.conflicted then Some(k) else None
    case Advance => if x.sequence > k.high then Some(Replay.Counter(x.sequence, false, x.id)) else None
  }

  function First(x: Seen): Counter {
    Replay.Counter(x.sequence, false, x.id)
  }

  function NextEntry(current: Option<Entry>, v: Verdict, o: Sighting): Option<Entry> {
    if v.newScope then
      (if current.Some? then None else Some(Entry(First(o.endpoint), First(o.route), o.retainUntil)))
    else if current.None? then None
    else
      var e := Apply(current.value.endpoint, v.endpoint, o.endpoint);
      var r := Apply(current.value.route, v.route, o.route);
      if e.None? || r.None? then None
      else Some(Entry(e.value, r.value, Max(current.value.retainUntil, o.retainUntil)))
  }

  /** A disposition computed from the same entry is always accepted, and its rejection is never `Incomplete`. */
  lemma NextEntryNeverErrs(current: Option<Entry>, o: Sighting)
    ensures NextEntry(current, Classify(current, o), o).Some?
    ensures Reject(Classify(current, o)) != Some(Incomplete)
  {
  }

  function Observe(current: Option<Entry>, o: Sighting): Entry {
    NextEntryNeverErrs(current, o);
    NextEntry(current, Classify(current, o), o).value
  }

  /** The entry says exactly what the sighting says, with no equivocation. */
  predicate Realises(e: Entry, o: Sighting) {
    e.endpoint == First(o.endpoint) && e.route == First(o.route)
  }

  /** Admission: a sighting is accepted exactly when the entry it leaves is unconflicted and equal to it. */
  lemma AcceptedIff(current: Option<Entry>, o: Sighting)
    ensures Reject(Classify(current, o)).None? <==> Realises(Observe(current, o), o)
    ensures Classify(current, o).MatchesFinal() <==> Realises(Observe(current, o), o)
  {
  }

  /** The entry changes exactly when a counter does, or the horizon moves. */
  lemma ChangesIff(e: Entry, o: Sighting)
    ensures Observe(Some(e), o) != e <==> Classify(Some(e), o).Mutates() || e.retainUntil < o.retainUntil
    ensures e.retainUntil <= Observe(Some(e), o).retainUntil
  {
  }

  /** Counters never go back, a conflict at a level is never forgotten, and the identity kept only falls. */
  lemma CountersGrow(e: Entry, o: Sighting)
    ensures Grows(e.endpoint, Observe(Some(e), o).endpoint) && Grows(e.route, Observe(Some(e), o).route)
  {
  }

  predicate Grows(a: Counter, b: Counter) {
    a.high < b.high || (a.high == b.high && (a == b || b.conflicted) && b.id <= a.id && (a.conflicted ==> b.conflicted))
  }

  // ---- the fold ----

  function ObserveAll(os: seq<Sighting>): Entry
    requires os != []
  {
    var last := os[|os| - 1];
    if |os| == 1 then Observe(None, last) else Observe(Some(ObserveAll(os[..|os| - 1])), last)
  }

  /** What a collection of claims amounts to in one dimension. */
  ghost predicate CounterSummary(xs: set<Seen>, k: Counter) {
    && (forall x :: x in xs ==> x.sequence <= k.high)
    && Replay.Seen(k.high, k.id) in xs
    && (forall x :: x in xs && x.sequence == k.high ==> k.id <= x.id)
    && (k.conflicted <==> exists x :: x in xs && x.sequence == k.high && x.id != k.id)
  }

  function Elements(os: seq<Sighting>): set<Sighting> { set o | o in os }

  function Endpoints(os: set<Sighting>): set<Seen> { set o | o in os :: o.endpoint }

  function Routes(os: set<Sighting>): set<Seen> { set o | o in os :: o.route }

  ghost predicate Summary(os: set<Sighting>, e: Entry) {
    && CounterSummary(Endpoints(os), e.endpoint)
    && CounterSummary(Routes(os), e.route)
    && (exists o :: o in os && o.retainUntil == e.retainUntil)
    && (forall o :: o in os ==> o.retainUntil <= e.retainUntil)
  }

  lemma CounterSummaryUnique(xs: set<Seen>, a: Counter, b: Counter)
    requires CounterSummary(xs, a) && CounterSummary(xs, b)
    ensures a == b
  {
    assert Replay.Seen(a.high, a.id) in xs && Replay.Seen(b.high, b.id) in xs;
  }

  lemma SummaryUnique(os: set<Sighting>, a: Entry, b: Entry)
    requires Summary(os, a) && Summary(os, b)
    ensures a == b
  {
    CounterSummaryUnique(Endpoints(os), a.endpoint, b.endpoint);
    CounterSummaryUnique(Routes(os), a.route, b.route);
    var x :| x in os && x.retainUntil == a.retainUntil;
    var y :| y in os && y.retainUntil == b.retainUntil;
  }

  /** One more claim in one dimension. */
  lemma CounterSummaryGrows(xs: set<Seen>, k: Counter, x: Seen)
    requires CounterSummary(xs, k)
    ensures Apply(k, ClassifyCounter(k, x), x).Some? && CounterSummary(xs + {x}, Apply(k, ClassifyCounter(k, x), x).value)
  {
    var n := Apply(k, ClassifyCounter(k, x), x).value;
    var ys := xs + {x};
    assert x in ys && forall y :: y in xs ==> y in ys;
    if n.conflicted {
      assert exists y :: y in ys && y.sequence == n.high && y.id != n.id by {
        if k.conflicted && n.id == k.id {
          var y :| y in xs && y.sequence == k.high && y.id != k.id;
          assert y in ys;
        } else if n.id == k.id {
          assert x in ys;
        } else {
          assert Replay.Seen(k.high, k.id) in ys;
        }
      }
    }
  }

  /** Folding any sightings of one scope leaves exactly their summary. */
  lemma {:induction false} FoldIsSummary(os: seq<Sighting>)
    requires os != []
    ensures Summary(Elements(os), ObserveAll(os))
  {
    var last := os[|os| - 1];
    var all := Elements(os);
    if |os| == 1 {
      assert all == {last};
      assert Endpoints(all) == {last.endpoint};
      assert Routes(all) == {last.route};
    } else {
      var front := os[..|os| - 1];
      var some := Elements(front);
      FoldIsSummary(front);
      SummaryGrows(some, ObserveAll(front), last);
      assert os == front + [last];
      assert all == some + {last};
    }
  }

  lemma SummaryGrows(os: set<Sighting>, e: Entry, x: Sighting)
    requires Summary(os, e)
    ensures Summary(os + {x}, Observe(Some(e), x))
  {
    var ys := os + {x};
    CounterSummaryGrows(Endpoints(os), e.endpoint, x.endpoint);
    CounterSummaryGrows(Routes(os), e.route, x.route);
    assert Endpoints(ys) == Endpoints(os) + {x.endpoint};
    assert Routes(ys) == Routes(os) + {x.route};
    var top :| top in os && top.retainUntil == e.retainUntil;
    assert top in ys && x in ys;
  }

  /** So arrival order and repetition do not matter. */
  lemma OrderIndependent(xs: seq<Sighting>, ys: seq<Sighting>)
    requires xs != [] && ys != [] && forall o :: o in xs <==> o in ys
    ensures ObserveAll(xs) == ObserveAll(ys)
  {
    FoldIsSummary(xs);
    FoldIsSummary(ys);
    assert Elements(xs) == Elements(ys);
    SummaryUnique(Elements(xs), ObserveAll(xs), ObserveAll(ys));
  }

  /** And the last sighting of any history is accepted iff it is the unequivocal maximum of all of them. */
  lemma AcceptedIffGreatest(os: seq<Sighting>)
    requires os != []
    ensures var last := os[|os| - 1];
            Realises(ObserveAll(os), last) <==>
            forall o :: o in os ==>
              && o.endpoint.sequence <= last.endpoint.sequence && (o.endpoint.sequence == last.endpoint.sequence ==> o.endpoint == last.endpoint)
              && o.route.sequence <= last.route.sequence && (o.route.sequence == last.route.sequence ==> o.route == last.route)
  {
    FoldIsSummary(os);
    var last := os[|os| - 1];
    var all := Elements(os);
    assert last in all;
    var e := ObserveAll(os);
    CounterIsTop(Endpoints(all), e.endpoint, last.endpoint);
    CounterIsTop(Routes(all), e.route, last.route);
    assert forall o :: o in os ==> o.endpoint in Endpoints(all) && o.route in Routes(all);
  }

  lemma CounterIsTop(xs: set<Seen>, k: Counter, x: Seen)
    requires CounterSummary(xs, k) && x in xs
    ensures k == First(x) <==> forall y :: y in xs ==> y.sequence <= x.sequence && (y.sequence == x.sequence ==> y == x)
  {
    assert Replay.Seen(k.high, k.id) in xs;
  }
}
