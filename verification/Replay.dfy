/**
  One dimension of the requester's replay record: the greatest sequence seen, whether two different
  identities were seen at it, and the identity if there was only one.

  The code classifies a claim and then mutates the record case by case. Here that is shown to be the
  join of a semilattice, so a batch may be reduced to its maxima and observed once, in any order.
 */
module Replay {
  import opened Common

  /** A 32-byte digest; zero is the all-zero digest. */
  type Id = nat

  datatype Counter = Counter(high: nat, conflicted: bool, id: Id)
  {
    /** A tombstone carries no identity. */
    predicate Valid() { conflicted ==> id == 0 }
  }

  /** A sequence and the identity claimed at it; `force` says the batch itself already equivocates. */
  datatype Claim = Claim(sequence: nat, id: Id, force: bool)

  datatype Disposition = New | Advance | NewConflict | AdvanceConflict | Exact | Conflict | ExistingConflict | Stale
  {
    predicate IsConflict() { NewConflict? || AdvanceConflict? || Conflict? || ExistingConflict? }
    predicate Changes() { New? || Advance? || NewConflict? || AdvanceConflict? || Conflict? }
  }

  function Classify(current: Option<Counter>, c: Claim): Disposition {
    if current.None? then (if c.force then NewConflict else New)
    else
      var k := current.value;
      if c.sequence < k.high then Stale
      else if c.sequence > k.high then (if c.force then AdvanceConflict else Advance)
      else if k.conflicted then ExistingConflict
      else if c.force || k.id != c.id then Conflict
      else Exact
  }

  /** `apply_endpoint_disposition`. */
  function ApplyEndpoint(k: Counter, d: Disposition, c: Claim): Counter {
    match d
    case Advance => Counter(c.sequence, false, c.id)
    case AdvanceConflict => Counter(c.sequence, true, 0)
    case Conflict => Counter(k.high, true, 0)
    case _ => k
  }

  /** `apply_route_disposition`, which also covers the two `New` cases. */
  function ApplyRoute(k: Counter, d: Disposition, c: Claim): Counter {
    match d
    case New => Counter(c.sequence, false, c.id)
    case Advance => Counter(c.sequence, false, c.id)
    case NewConflict => Counter(c.sequence, true, 0)
    case AdvanceConflict => Counter(c.sequence, true, 0)
    case Conflict => Counter(k.high, true, 0)
    case _ => k
  }

  /** The record of a scope seen for the first time. */
  function Fresh(d: Disposition, c: Claim): Counter {
    Counter(c.sequence, d.IsConflict(), if d.IsConflict() then 0 else c.id)
  }

  /** What observing a claim leaves behind, endpoint dimension. */
  function Observe(current: Option<Counter>, c: Claim): Counter {
    var d := Classify(current, c);
    if current.None? then Fresh(d, c) else ApplyEndpoint(current.value, d, c)
  }

  lemma RouteObservesAlike(k: Counter, c: Claim)
    ensures ApplyRoute(k, Classify(Some(k), c), c) == ApplyEndpoint(k, Classify(Some(k), c), c)
  {
  }

  // ---- the semilattice ----

  ghost predicate Leq(a: Counter, b: Counter) {
    a.high < b.high || (a.high == b.high && (b.conflicted || a == b))
  }

  function Join(a: Counter, b: Counter): Counter {
    if a.high < b.high then b
    else if b.high < a.high then a
    else if a.conflicted || b.conflicted || a.id != b.id then Counter(a.high, true, 0)
    else a
  }

  function Point(c: Claim): Counter {
    Counter(c.sequence, c.force, if c.force then 0 else c.id)
  }

  /** Classification followed by mutation is the join with the claim. */
  lemma ObserveIsJoin(current: Option<Counter>, c: Claim)
    requires current.Some? ==> current.value.Valid()
    ensures Observe(current, c) == if current.None? then Point(c) else Join(current.value, Point(c))
    ensures Observe(current, c).Valid()
  {
  }

  /** `Join` is the least upper bound for `Leq`. */
  lemma JoinIsLub(a: Counter, b: Counter, u: Counter)
    requires a.Valid() && b.Valid() && u.Valid()
    ensures Leq(a, Join(a, b)) && Leq(b, Join(a, b))
    ensures Leq(a, u) && Leq(b, u) ==> Leq(Join(a, b), u)
  {
  }

  lemma LeqTransitive(a: Counter, b: Counter, c: Counter)
    requires Leq(a, b) && Leq(b, c) && (b.conflicted && b.high == c.high ==> c.conflicted)
    ensures Leq(a, c)
  {
  }

  lemma JoinLaws(a: Counter, b: Counter, c: Counter)
    requires a.Valid() && b.Valid() && c.Valid()
    ensures Join(a, b) == Join(b, a)
    ensures Join(a, a) == a
    ensures Join(Join(a, b), c) == Join(a, Join(b, c))
    ensures Join(a, b).Valid()
  {
  }

  /** A claim changes the record exactly when its disposition says so; a second look changes nothing. */
  lemma ObserveChanges(k: Counter, c: Claim)
    requires k.Valid()
    ensures Classify(Some(k), c).Changes() <==> Observe(Some(k), c) != k
    ensures !Classify(Some(Observe(Some(k), c)), c).Changes()
  {
  }

  // ---- batches ----

  /** One dimension of one record. */
  datatype Seen = Seen(sequence: nat, id: Id)

  function Single(x: Seen): Claim {
    Claim(x.sequence, x.id, false)
  }

  /** Observing records one at a time. */
  function ObserveEach(current: Option<Counter>, xs: seq<Seen>): Option<Counter>
    decreases |xs|
  {
    if xs == [] then current else ObserveEach(Some(Observe(current, Single(xs[0]))), xs[1..])
  }

  function Greatest(xs: seq<Seen>): nat
    requires xs != []
  {
    if |xs| == 1 then xs[0].sequence else Max(xs[0].sequence, Greatest(xs[1..]))
  }

  /** The identity of the first record at a sequence. */
  function FirstAt(xs: seq<Seen>, sequence: nat): Id {
    if xs == [] then 0 else if xs[0].sequence == sequence then xs[0].id else FirstAt(xs[1..], sequence)
  }

  predicate AnyOtherAt(xs: seq<Seen>, sequence: nat, id: Id) {
    xs != [] && ((xs[0].sequence == sequence && xs[0].id != id) || AnyOtherAt(xs[1..], sequence, id))
  }

  /** The batch reduction: greatest sequence, first identity there, and whether any other differs from it. */
  function Reduce(xs: seq<Seen>): Claim
    requires xs != []
  {
    var g := Greatest(xs);
    Claim(g, FirstAt(xs, g), AnyOtherAt(xs, g, FirstAt(xs, g)))
  }

  /** What a set of records says about one dimension, whatever their order or multiplicity. */
  ghost predicate Summary(xs: seq<Seen>, c: Counter) {
    && (exists x :: x in xs && x.sequence == c.high)
    && (forall x :: x in xs ==> x.sequence <= c.high)
    && (c.conflicted <==> exists x, y :: x in xs && y in xs && x.sequence == y.sequence == c.high && x.id != y.id)
    && (c.conflicted ==> c.id == 0)
    && (!c.conflicted ==> forall x :: x in xs && x.sequence == c.high ==> x.id == c.id)
  }

  lemma SummaryUnique(xs: seq<Seen>, ys: seq<Seen>, a: Counter, b: Counter)
    requires Summary(xs, a) && Summary(ys, b) && forall x :: x in xs <==> x in ys
    ensures a == b
  {
    var x :| x in xs && x.sequence == a.high;
    var y :| y in ys && y.sequence == b.high;
    assert x in ys && y in xs;
  }

  lemma {:induction false} GreatestIs(xs: seq<Seen>)
    requires xs != []
    ensures forall x :: x in xs ==> x.sequence <= Greatest(xs)
    ensures exists x :: x in xs && x.sequence == Greatest(xs)
  {
    if |xs| == 1 {
      assert xs[0] in xs;
    } else {
      GreatestIs(xs[1..]);
      assert xs == [xs[0]] + xs[1..];
      var x :| x in xs[1..] && x.sequence == Greatest(xs[1..]);
      assert x in xs && xs[0] in xs;
    }
  }

  lemma {:induction false} FirstAtIs(xs: seq<Seen>, sequence: nat)
    requires exists x :: x in xs && x.sequence == sequence
    ensures exists x :: x in xs && x.sequence == sequence && x.id == FirstAt(xs, sequence)
  {
    assert xs == [xs[0]] + xs[1..];
    if xs[0].sequence == sequence {
      assert xs[0] in xs;
    } else {
      FirstAtIs(xs[1..], sequence);
    }
  }

  lemma {:induction false} AnyOtherAtIs(xs: seq<Seen>, sequence: nat, id: Id)
    ensures AnyOtherAt(xs, sequence, id) <==> exists x :: x in xs && x.sequence == sequence && x.id != id
  {
    if xs != [] {
      assert xs == [xs[0]] + xs[1..];
      assert xs[0] in xs;
      AnyOtherAtIs(xs[1..], sequence, id);
    }
  }

  lemma ReduceIsSummary(xs: seq<Seen>)
    requires xs != []
    ensures Summary(xs, Point(Reduce(xs)))
  {
    var g := Greatest(xs);
    GreatestIs(xs);
    FirstAtIs(xs, g);
    AnyOtherAtIs(xs, g, FirstAt(xs, g));
  }

  /** No record is more recent than `x`, and none at its sequence differs from it. */
  ghost predicate Top(xs: seq<Seen>, x: Seen) {
    forall y :: y in xs ==> y.sequence <= x.sequence && (y.sequence == x.sequence ==> y.id == x.id)
  }

  lemma ReduceIsTop(xs: seq<Seen>, x: Seen)
    requires x in xs
    ensures Top(xs, x) <==> !Reduce(xs).force && x == Seen(Reduce(xs).sequence, Reduce(xs).id)
  {
    ReduceIsSummary(xs);
  }

  /** The join of all records of a batch. */
  function JoinAll(xs: seq<Seen>): Counter
    requires xs != []
  {
    if |xs| == 1 then Point(Single(xs[0])) else Join(Point(Single(xs[0])), JoinAll(xs[1..]))
  }

  lemma {:induction false} JoinAllIsSummary(xs: seq<Seen>)
    requires xs != []
    ensures Summary(xs, JoinAll(xs))
  {
    var head := xs[0];
    assert head in xs;
    if |xs| > 1 {
      JoinAllIsSummary(xs[1..]);
      assert xs == [head] + xs[1..];
      SummaryCons(head, xs[1..], JoinAll(xs[1..]));
    }
  }

  lemma SummaryCons(head: Seen, tail: seq<Seen>, c: Counter)
    requires Summary(tail, c)
    ensures Summary([head] + tail, Join(Point(Single(head)), c))
  {
    var xs := [head] + tail;
    assert head in xs && forall x :: x in tail ==> x in xs;
    assert forall x :: x in xs ==> x == head || x in tail;
    var top :| top in tail && top.sequence == c.high;
    assert top in xs;
  }

  lemma {:induction false} ObserveEachIsJoin(current: Option<Counter>, xs: seq<Seen>)
    requires xs != [] && (current.Some? ==> current.value.Valid())
    ensures JoinAll(xs).Valid()
    ensures ObserveEach(current, xs) == Some(if current.None? then JoinAll(xs) else Join(current.value, JoinAll(xs)))
    decreases |xs|
  {
    var first := Observe(current, Single(xs[0]));
    ObserveIsJoin(current, Single(xs[0]));
    if |xs| > 1 {
      ObserveEachIsJoin(Some(first), xs[1..]);
      JoinLaws(Point(Single(xs[0])), JoinAll(xs[1..]), JoinAll(xs[1..]));
      if current.Some? { JoinLaws(current.value, Point(Single(xs[0])), JoinAll(xs[1..])); }
    } else {
      assert xs[1..] == [];
    }
  }

  /**
    Reducing a batch to its maximum and observing it once leaves exactly what observing its records one
    at a time would, in any order and with any repetition.
   */
  lemma BatchEqualsOneByOne(current: Option<Counter>, xs: seq<Seen>, ys: seq<Seen>)
    requires xs != [] && (current.Some? ==> current.value.Valid())
    requires forall x :: x in xs <==> x in ys
    ensures ObserveEach(current, ys) == Some(Observe(current, Reduce(xs)))
  {
    assert xs[0] in ys;
    ReduceIsSummary(xs);
    JoinAllIsSummary(ys);
    SummaryUnique(xs, ys, Point(Reduce(xs)), JoinAll(ys));
    ObserveEachIsJoin(current, ys);
    ObserveIsJoin(current, Reduce(xs));
  }
}
