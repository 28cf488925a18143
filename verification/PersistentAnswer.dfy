/** What a packet is answered with, told from the store before it. */
module PersistentAnswers {
  import opened Common
  import opened Tallies
  import opened RouteStores
  import opened RouteStoreInvariants
  import opened RouteStoreRuns
  import opened RouteLives
  import opened PersistentRoutes

  /**
    A lookup returns the best live version-3 routes of the key, then the best live version-1 routes in the room that is
    left, and leaves out nothing that is live while there is room. A publication is answered with the life of the route
    that is then in the store.
   */
  ghost predicate Answered(before: Store, after: Store, packet: Packet, now: nat, e: Emission) {
    match packet
    case Other => false
    case Get(routeKey, maximum) =>
      && e.Routes? && |e.named| + |e.unnamed| <= maximum
      && Shows(before, StoreKey(HrmNamedV3, routeKey), maximum, if now < before.prunedThrough then before.prunedThrough else now, e.named)
      && Shows(before, StoreKey(UnnamedV1, routeKey), maximum - |e.named|, now, e.unnamed)
    case Put(op) =>
      && e.Stored?
      && (op.StoreV3? ==>
            op.vetting.Verified? && Answers(At(after.records, StoreKey(HrmNamedV3, op.c.routeKey)), op.c, op.vetting.until, op.current, e.until))
      && (op.StorePlain? ==>
            op.vetting.Verified? && e.until == op.route.expires && exists y :: y in At(after.records, op.key) && IsPlain(y, op.route))
  }

  /** Lists other than the pruned one are the same after a lookup's run, and so are all after a capture. */
  lemma PersistKeepsStore(w: World, token: nat, fate: Fate)
    ensures PersistPending(w, token, fate).world.local.volatile == w.local.volatile
  {
  }

  lemma RunRecords(w: World, token: nat, now: nat, op: Operation, first: Fate, second: Fate)
    ensures var r := RunPersisted(w, token, now, op, first, second);
            && (r.result.Ok? ==> r.world.local.volatile.records == Do(w.local.volatile, op).records)
            && (r.result.Ok? ==> Answer(w.local.volatile, op) == Ok(r.result.value))
  {
    hide Do, Answer, PersistPending, Lapsed, Retained;
    PersistKeepsStore(w, token, first);
    var a := PersistPending(w, token, first);
    if a.result.Ok? {
      var m := Mutated(a.world, Do(w.local.volatile, op));
      var c := CaptureCurrent(m.local, now);
      PersistKeepsStore(m.(local := c.local), token, second);
    }
  }

  lemma SameListShows(s: Store, t: Store, key: StoreKey, maximum: nat, now: nat, r: seq<StoredRoute>)
    requires !key.model.HrmNamedV3? && At(s.records, key) == At(t.records, key) && Shows(t, key, maximum, now, r)
    ensures Shows(s, key, maximum, now, r)
  {
    hide At;
    assert forall x :: Showable(s, key, x, now) == Showable(t, key, x, now);
  }

  lemma GetAnswers(w: World, token: nat, routeKey: nat, maximum: nat, now: nat, f: Faults, after: Store)
    requires HandleGet(w, token, routeKey, maximum, now, f).result.Ok?
    ensures Answered(w.local.volatile, after, Get(routeKey, maximum), now, HandleGet(w, token, routeKey, maximum, now, f).result.value)
  {
    hide Lookup, RunPersisted, Shows, Tallies.Put, Unexpired, At;
    var s := w.local.volatile;
    var named := Lookup(s, V3(routeKey), maximum, now).1;
    LookupShows(s, V3(routeKey), maximum, now);
    ShowsFits(s, V3(routeKey), maximum, if now < s.prunedThrough then s.prunedThrough else now, named);
    RunRecords(w, token, now, PruneList(V3(routeKey), now), f.first, f.second);
    var t := RunPersisted(w, token, now, PruneList(V3(routeKey), now), f.first, f.second).world.local.volatile;
    PutAt(s.records, V3(routeKey), Unexpired(At(s.records, V3(routeKey)), EffectiveNow(s, HrmNamedV3, now)));
    var key := StoreKey(UnnamedV1, routeKey);
    LookupShows(t, key, maximum - |named|, now);
    var unnamed := Lookup(t, key, maximum - |named|, now).1;
    SameListShows(s, t, key, maximum - |named|, now, unnamed);
    ShowsFits(s, key, maximum - |named|, now, unnamed);
  }

  lemma ShowsFits(s: Store, key: StoreKey, maximum: nat, now: nat, r: seq<StoredRoute>)
    requires Shows(s, key, maximum, now, r)
    ensures |r| <= maximum
  {
  }

  lemma PutAnswers(w: World, token: nat, op: Operation, now: nat, f: Faults, expiryOf: Expiry)
    requires Inv(w.local.volatile, expiryOf) && RunPersisted(w, token, now, op, f.first, f.second).result.Ok?
    ensures var r := RunPersisted(w, token, now, op, f.first, f.second);
            Answered(w.local.volatile, r.world.local.volatile, PersistentRoutes.Put(op), now, Stored(r.result.value))
  {
    hide RunPersisted, PutV3, PutPlain, Inv, At, Tallies.Put;
    var s := w.local.volatile;
    RunRecords(w, token, now, op, f.first, f.second);
    match op
    case StoreV3(c, vetting, current, held, at, source) =>
      AtDistinct(s, V3(c.routeKey), expiryOf);
      PublicationLives(s, c, vetting, current, at, source);
    case StorePlain(key, route, vetting, at, source) =>
      AtDistinct(s, key, expiryOf);
      PlainLives(s, key, route, vetting, at, source);
    case _ =>
  }

  /** Every packet answered is answered so, whatever becomes of its writes. */
  lemma HandleAnswers(w: World, token: nat, packet: Packet, now: nat, f: Faults, expiryOf: Expiry)
    requires Inv(w.local.volatile, expiryOf) && Handle(w, token, packet, now, f).result.Ok?
    ensures var r := Handle(w, token, packet, now, f);
            Answered(w.local.volatile, r.world.local.volatile, packet, now, r.result.value)
  {
    hide PersistPending, RunPersisted, HandleGet, Answered, Inv;
    PersistKeepsStore(w, token, f.retry);
    var p := PersistPending(w, token, f.retry);
    match packet
    case Other =>
    case Put(op) => PutAnswers(p.world, token, op, now, f, expiryOf);
    case Get(routeKey, maximum) =>
      GetAnswers(p.world, token, routeKey, maximum, now, f, HandleGet(p.world, token, routeKey, maximum, now, f).world.local.volatile);
  }
}
