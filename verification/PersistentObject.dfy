/** The persistence boundary as the program keeps it: objects whose fields each operation updates. */
module PersistentObjects {
  import opened Common
  import opened CasRegisters
  import opened RouteStores
  import opened RouteStoreInvariants
  import opened RouteStoreRuns
  import opened RouteStoreObjects
  import opened PersistentRoutes
  import opened PersistentAnswers
  import opened LeasedServices

  function MediumOf(storage: Storage<Snapshot>): Medium
    reads storage
  {
    Medium(storage.fence, storage.durable, storage.sent)
  }

  lemma HandleMeans(w: World, token: nat, packet: Packet, now: nat, f: Faults, expiryOf: Expiry)
    requires WorldOk(w, token, expiryOf)
    ensures var r := PersistentRoutes.Handle(w, token, packet, now, f);
            r.result.Ok? ==> Answered(w.local.volatile, r.world.local.volatile, packet, now, r.result.value)
  {
    hide PersistentRoutes.Handle, Answered, Inv;
    if PersistentRoutes.Handle(w, token, packet, now, f).result.Ok? {
      HandleAnswers(w, token, packet, now, f, expiryOf);
    }
  }

  class PersistentStore {
    const volatile: RouteStore
    var acknowledged: Option<Snapshot>
    var pending: Option<Pending>

    function View(): Local
      reads this, volatile
    {
      Local(volatile.View(), acknowledged, pending)
    }

    ghost predicate Valid()
      reads this, volatile
    {
      volatile.Valid()
    }

    /** Counters exact, and memory, acknowledgement and storage in step as far as the pending write. */
    ghost predicate Sound(storage: Storage<Snapshot>, token: nat, expiryOf: Expiry)
      reads this, volatile, storage
    {
      Valid() && WorldOk(World(View(), MediumOf(storage)), token, expiryOf)
    }

    /** Memory, acknowledgement and storage are one ledger. */
    ghost predicate IsSettled(storage: Storage<Snapshot>, token: nat)
      reads this, volatile, storage
    {
      Settled(World(View(), MediumOf(storage)), token)
    }

    constructor(volatile: RouteStore, acknowledged: Option<Snapshot>, pending: Option<Pending>)
      requires volatile.Valid()
      ensures Valid() && this.volatile == volatile && View() == Local(volatile.View(), acknowledged, pending)
    {
      this.volatile, this.acknowledged, this.pending := volatile, acknowledged, pending;
    }

    method PersistPending(storage: Storage<Snapshot>, token: nat, fate: Fate, ghost expiryOf: Expiry) returns (r: Result<(), Failure>)
      requires Valid()
      modifies this, storage
      ensures old(Sound(storage, token, expiryOf)) ==> Sound(storage, token, expiryOf) && (r.Ok? ==> IsSettled(storage, token))
      ensures Valid() && Step(World(View(), MediumOf(storage)), r) == PersistentRoutes.PersistPending(World(old(View()), old(MediumOf(storage))), token, fate)
    {
      hide WorldOk, Settled;
      if Sound(storage, token, expiryOf) {
        PersistKeeps(World(View(), MediumOf(storage)), token, fate, expiryOf);
      }
      storage.Arrive(fate.stray);
      storage.Overtake(fate.takeover);
      if pending.None? {
        return Ok(());
      }
      if token != storage.fence {
        return Err(LostLease);
      }
      var ok := storage.Persist(token, pending.value.expected, pending.value.proposed, fate.fault);
      if !ok {
        return Err(StorageFailed);
      }
      acknowledged := Some(pending.value.proposed);
      pending := None;
      return Ok(());
    }

    method CaptureCurrent(now: nat) returns (r: Result<(), Failure>)
      requires Valid()
      modifies this, volatile
      ensures Valid() && Captured(View(), r) == PersistentRoutes.CaptureCurrent(old(View()), now)
    {
      if acknowledged.None? {
        return Err(Uninitialized);
      }
      var pruned := volatile.PruneLedger(now);
      if pruned.Err? {
        return Err(Protocol(pruned.error));
      }
      var proposed := Capture(volatile.View());
      if Some(proposed) != acknowledged {
        pending := Some(Pending(Prior(acknowledged.value), proposed));
      }
      return Ok(());
    }

    /** One mutation of the volatile store. */
    method Mutate(op: Operation) returns (r: Result<nat, Error>)
      requires Valid() && !op.Restart?
      modifies volatile
      ensures Valid() && volatile.View() == Do(old(volatile.View()), op) && r == Answer(old(volatile.View()), op)
    {
      match op {
        case StoreV3(c, vetting, current, held, now, source) =>
          r := volatile.PutNamedV3(c, vetting, current, now, source);
          if current && !held {
            var _ := volatile.RemoveLive(c.routeKey);
            r := Err(Error.LeaseLost);
          }
        case StorePlain(key, route, vetting, now, source) =>
          r := volatile.PutPlainRoute(key, route, vetting, now, source);
        case RevalidateV3(routeKey, authority, held, now) =>
          r := volatile.Revalidate(routeKey, authority, now);
          if !held {
            var _ := volatile.RemoveLive(routeKey);
            r := Err(Error.LeaseLost);
          }
        case WithdrawV3(routeKey) =>
          var _ := volatile.RemoveLive(routeKey);
          r := Ok(0);
        case PruneV3(now) =>
          var _ := volatile.PruneLedger(now);
          r := Ok(0);
        case PruneList(key, now) =>
          volatile.PruneStoreKey(key, EffectiveNow(volatile.View(), key.model, now));
          r := Ok(0);
      }
    }

    method RunPersisted(storage: Storage<Snapshot>, token: nat, now: nat, op: Operation, first: Fate, second: Fate, ghost expiryOf: Expiry)
      returns (r: Result<nat, Failure>)
      requires Sound(storage, token, expiryOf) && !op.Restart?
      modifies this, volatile, storage
      ensures Valid()
      ensures Allowed(old(volatile.View()), op, expiryOf) && Happens(op, now) ==>
                Sound(storage, token, expiryOf) && (r.Ok? || r.error.Emitted() ==> IsSettled(storage, token))
      ensures Step(World(View(), MediumOf(storage)), r)
              == PersistentRoutes.RunPersisted(World(old(View()), old(MediumOf(storage))), token, now, op, first, second)
    {
      hide Do, Answer, CommitMutation, WorldOk, Settled, Allowed, Happens;
      ghost var w := World(View(), MediumOf(storage));
      if Allowed(volatile.View(), op, expiryOf) && Happens(op, now) {
        PersistentRoutes.RunKeeps(w, token, now, op, first, second, expiryOf);
      }
      var flushed := PersistPending(storage, token, first, expiryOf);
      if flushed.Err? {
        return Err(flushed.error);
      }
      var answer := Mutate(op);
      r := Commit(storage, token, now, answer, second, expiryOf);
    }

    /** Capture what a mutation left, write it, and only then let its answer out. */
    method Commit(storage: Storage<Snapshot>, token: nat, now: nat, answer: Result<nat, Error>, fate: Fate, ghost expiryOf: Expiry)
      returns (r: Result<nat, Failure>)
      requires Valid()
      modifies this, volatile, storage
      ensures Valid()
      ensures Step(World(View(), MediumOf(storage)), r)
              == CommitMutation(World(old(View()), old(MediumOf(storage))), token, now, answer, fate)
    {
      var captured := CaptureCurrent(now);
      if captured.Err? {
        return Err(captured.error);
      }
      var flushed := PersistPending(storage, token, fate, expiryOf);
      if flushed.Err? {
        return Err(flushed.error);
      }
      return Lifted(answer);
    }

    method HandleGet(storage: Storage<Snapshot>, token: nat, routeKey: nat, maximum: nat, now: nat, f: Faults, ghost expiryOf: Expiry)
      returns (r: Result<Emission, Failure>)
      requires Sound(storage, token, expiryOf)
      modifies this, volatile, storage
      ensures Sound(storage, token, expiryOf) && (r.Ok? || r.error.Emitted() ==> IsSettled(storage, token))
      ensures Step(World(View(), MediumOf(storage)), r)
              == PersistentRoutes.HandleGet(World(old(View()), old(MediumOf(storage))), token, routeKey, maximum, now, f)
    {
      hide WorldOk, Settled, PersistentRoutes.RunPersisted, Lookup;
      GetKeeps(World(View(), MediumOf(storage)), token, routeKey, maximum, now, f, expiryOf);
      var named := Lookup(volatile.View(), V3(routeKey), maximum, now).1;
      var a := RunPersisted(storage, token, now, PruneList(V3(routeKey), now), f.first, f.second, expiryOf);
      if a.Err? {
        return Err(a.error);
      }
      var key := StoreKey(UnnamedV1, routeKey);
      var unnamed := Lookup(volatile.View(), key, if |named| < maximum then maximum - |named| else 0, now).1;
      var b := RunPersisted(storage, token, now, PruneList(key, now), f.third, f.fourth, expiryOf);
      if b.Err? {
        return Err(b.error);
      }
      return Ok(Routes(named, unnamed));
    }

    method Handle(storage: Storage<Snapshot>, token: nat, packet: Packet, now: nat, f: Faults, ghost expiryOf: Expiry)
      returns (r: Result<Emission, Failure>)
      requires Sound(storage, token, expiryOf) && (packet.Put? ==> !packet.op.Restart?)
      modifies this, volatile, storage
      ensures Valid()
      ensures Admissible(old(volatile.View()), packet, now, expiryOf) ==>
                && Sound(storage, token, expiryOf) && (r.Ok? || r.error.Emitted() ==> IsSettled(storage, token))
                && (r.Ok? ==> Backed(World(View(), MediumOf(storage)), packet, r.value, expiryOf))
      ensures r.Ok? ==> Answered(old(volatile.View()), volatile.View(), packet, now, r.value)
      ensures Step(World(View(), MediumOf(storage)), r) == PersistentRoutes.Handle(World(old(View()), old(MediumOf(storage))), token, packet, now, f)
    {
      hide WorldOk, Settled, Backed, Answered, PersistentRoutes.RunPersisted, PersistentRoutes.HandleGet, PersistentRoutes.PersistPending;
      HandleMeans(World(View(), MediumOf(storage)), token, packet, now, f, expiryOf);
      if Admissible(volatile.View(), packet, now, expiryOf) {
        HandleKeeps(World(View(), MediumOf(storage)), token, packet, now, f, expiryOf);
      }
      var retried := PersistPending(storage, token, f.retry, expiryOf);
      if retried.Err? {
        return Err(retried.error);
      }
      match packet {
        case Other =>
          r := Err(Unsupported);
        case Put(op) =>
          var a := RunPersisted(storage, token, now, op, f.first, f.second, expiryOf);
          r := if a.Err? then Err(a.error) else Ok(Stored(a.value));
        case Get(routeKey, maximum) =>
          r := HandleGet(storage, token, routeKey, maximum, now, f, expiryOf);
      }
    }
  }

  lemma SoundInner(s: Service, m: Medium, token: nat, expiryOf: Expiry)
    requires ServiceOk(s, m, token, expiryOf)
    ensures s.inner.Some? ==> WorldOk(World(s.inner.value, m), token, expiryOf)
  {
  }

  lemma EmissionMeans(s: Service, m: Medium, token: nat, packet: Packet, now: nat, f: Faults, env: Env, expiryOf: Expiry)
    requires ServiceOk(s, m, token, expiryOf) && StorageOk(m)
    ensures var e := LeasedServices.HandleAndEmit(s, m, token, packet, now, f, env);
            (s.inner.Some? ==> Admissible(s.inner.value.volatile, packet, now, expiryOf)) && (env.beforeEmit ==> token == e.register.fence) ==>
              && ServiceOk(e.service, e.register, token, expiryOf) && StorageOk(e.register)
              && (e.outcome.Done? ==> e.emitted.Some? && Durable(e.service, e.register))
              && (e.outcome.OwnershipLost? || e.outcome.EmissionFailed? || e.outcome.Dropped? ==> e.service.inner.None? && e.service.poisoned)
  {
    hide LeasedServices.HandleAndEmit, Admissible, ServiceOk, StorageOk;
    var e := LeasedServices.HandleAndEmit(s, m, token, packet, now, f, env);
    if (s.inner.Some? ==> Admissible(s.inner.value.volatile, packet, now, expiryOf)) && (env.beforeEmit ==> token == e.register.fence) {
      EmissionIsSafe(s, m, token, packet, now, f, env, expiryOf);
      DoneReturns(s, m, token, packet, now, f, env);
    }
  }

  class LeasedService {
    var inner: PersistentStore?
    var poisoned: bool
    var inFlight: bool

    function View(): Service
      reads this, inner, if inner != null then {inner.volatile} else {}
    {
      Service(if inner == null then None else Some(inner.View()), poisoned, inFlight)
    }

    ghost predicate Valid()
      reads this, inner, if inner != null then {inner.volatile} else {}
    {
      inner != null ==> inner.Valid()
    }

    /** Counters exact, a poisoned service without a store, and a store in step with storage as far as its pending write. */
    ghost predicate Sound(storage: Storage<Snapshot>, token: nat, expiryOf: Expiry)
      reads this, inner, if inner != null then {inner.volatile} else {}, storage
    {
      Valid() && ServiceOk(View(), MediumOf(storage), token, expiryOf) && StorageOk(MediumOf(storage))
    }

    constructor(store: PersistentStore)
      requires store.Valid()
      ensures Valid() && inner == store && View() == Service(Some(store.View()), false, false)
    {
      inner, poisoned, inFlight := store, false, false;
    }

    method Poison()
      modifies this
      ensures Valid() && inner == null && View() == Poisoned
    {
      inner, poisoned, inFlight := null, true, false;
    }

    method RestoreInner(store: PersistentStore, held: bool) returns (ok: bool)
      requires store.Valid()
      modifies this
      ensures Valid() && ok == held && View() == Resumed(store.View(), held)
    {
      if !held {
        Poison();
        return false;
      }
      inner, poisoned, inFlight := store, false, false;
      return true;
    }

    method BeginOperation(held: bool) returns (refused: Option<Ending>)
      requires Valid()
      modifies this
      ensures var x := Refuses(old(View()), held);
              && refused == (if x.None? then None else Some(x.value.1))
              && (x.Some? ==> Valid() && View() == x.value.0)
              && (x.None? ==> inner == old(inner) && inner != null && inFlight && Valid())
    {
      if poisoned || inner == null {
        return Some(WasPoisoned);
      }
      if inFlight {
        Poison();
        return Some(WasPoisoned);
      }
      inFlight := true;
      if !held {
        Poison();
        return Some(OwnershipLost);
      }
      return None;
    }

    /** Deliver what was handled, and put the store back only when everything went well. */
    method Conclude(store: PersistentStore, handled: Result<Emission, Failure>, ghost register: Medium, env: Env)
      returns (emitted: Option<Emission>, outcome: Ending)
      requires store.Valid() && View() == Service(None, true, true)
      modifies this
      ensures Valid()
      ensures var e := Deliver(Step(World(store.View(), register), handled), env);
              && View() == e.service && outcome == e.outcome
              && emitted == (if e.emitted.None? then None else Some(e.emitted.value.what))
    {
      if handled == Err(LostLease) {
        Poison();
        return None, OwnershipLost;
      }
      if handled == Err(StorageFailed) {
        var resumed := RestoreInner(store, env.finish);
        return None, if resumed then PersistenceFailed else OwnershipLost;
      }
      if !env.beforeEmit {
        Poison();
        return None, OwnershipLost;
      }
      emitted := Some(if handled.Ok? then handled.value else Refused(handled.error));
      match env.delivery {
        case Delivered =>
          var resumed := RestoreInner(store, env.finish);
          outcome := if resumed then Done else OwnershipLost;
        case LeaseGone =>
          Poison();
          outcome := OwnershipLost;
        case Failed =>
          Poison();
          outcome := EmissionFailed;
        case Cancelled =>
          outcome := Dropped;
      }
    }

    /**
      Persist before emit. With what the verifiers guarantee and a truthful check before the emission: a completed
      emission leaves storage, acknowledgement and the volatile ledger equal, and a lost lease or an unfinished
      delivery leaves no store behind.
     */
    method HandleAndEmit(storage: Storage<Snapshot>, token: nat, packet: Packet, now: nat, f: Faults, env: Env, ghost expiryOf: Expiry)
      returns (emitted: Option<Emission>, outcome: Ending)
      requires Sound(storage, token, expiryOf) && (packet.Put? ==> !packet.op.Restart?)
      modifies this, inner, if inner != null then {inner.volatile} else {}, storage
      ensures Valid()
      ensures var e := LeasedServices.HandleAndEmit(old(View()), old(MediumOf(storage)), token, packet, now, f, env);
              && View() == e.service && MediumOf(storage) == e.register && outcome == e.outcome
              && emitted == (if e.emitted.None? then None else Some(e.emitted.value.what))
      ensures (old(View()).inner.Some? ==> Admissible(old(View()).inner.value.volatile, packet, now, expiryOf))
              && (env.beforeEmit ==> token == storage.fence) ==>
                && Sound(storage, token, expiryOf)
                && (outcome.Done? ==> emitted.Some? && Durable(View(), MediumOf(storage)))
                && (outcome.OwnershipLost? || outcome.EmissionFailed? || outcome.Dropped? ==> inner == null && poisoned)
    {
      hide PersistentRoutes.Handle, Deliver, ServiceOk, StorageOk, Admissible;
      EmissionMeans(View(), MediumOf(storage), token, packet, now, f, env, expiryOf);
      var refused := BeginOperation(env.begin);
      if refused.Some? {
        return None, refused.value;
      }
      var store: PersistentStore := inner;
      ghost var w := World(store.View(), MediumOf(storage));
      assert Refuses(old(View()), env.begin).None? && old(View()).inner == Some(w.local);
      SoundInner(old(View()), old(MediumOf(storage)), token, expiryOf);
      inner, poisoned := null, true;
      var handled := store.Handle(storage, token, packet, now, f, expiryOf);
      ghost var h := Step(World(store.View(), MediumOf(storage)), handled);
      assert h == PersistentRoutes.Handle(w, token, packet, now, f);
      DeliverKeepsRegister(h, env);
      emitted, outcome := Conclude(store, handled, MediumOf(storage), env);
      assert LeasedServices.HandleAndEmit(old(View()), old(MediumOf(storage)), token, packet, now, f, env) == Deliver(h, env);
    }

    /** A route operation under committed authority: nothing is emitted, and the answer stays local. */
    method MutateCurrent(storage: Storage<Snapshot>, token: nat, op: Operation, now: nat, first: Fate, second: Fate, env: MutationEnv, ghost expiryOf: Expiry)
      returns (outcome: Ending)
      requires Sound(storage, token, expiryOf) && !op.Restart?
      modifies this, inner, if inner != null then {inner.volatile} else {}, storage
      ensures Valid()
      ensures var e := LeasedServices.MutateCurrent(old(View()), old(MediumOf(storage)), token, op, now, first, second, env);
              View() == e.service && MediumOf(storage) == e.register && outcome == e.outcome
      ensures Happens(op, now) && (old(View()).inner.Some? ==> Allowed(old(View()).inner.value.volatile, op, expiryOf)) ==>
                && Sound(storage, token, expiryOf)
                && (outcome.OwnershipLost? || outcome.AuthorityLost? ==> inner == null && poisoned)
    {
      hide PersistentRoutes.RunPersisted, ServiceOk, StorageOk, Allowed, Happens;
      if Happens(op, now) && (View().inner.Some? ==> Allowed(View().inner.value.volatile, op, expiryOf)) {
        MutationIsSafe(View(), MediumOf(storage), token, op, now, first, second, env, expiryOf);
      }
      if !env.authorityBefore {
        Poison();
        return AuthorityLost;
      }
      var refused := BeginOperation(env.begin);
      if refused.Some? {
        return refused.value;
      }
      var store: PersistentStore := inner;
      SoundInner(old(View()), old(MediumOf(storage)), token, expiryOf);
      inner, poisoned := null, true;
      var r := store.RunPersisted(storage, token, now, op, first, second, expiryOf);
      if !env.authorityAfter {
        Poison();
        return AuthorityLost;
      }
      if r == Err(LostLease) {
        Poison();
        return OwnershipLost;
      }
      var resumed := RestoreInner(store, env.finish);
      return if resumed then Done else OwnershipLost;
    }
  }

  /** Open the store on what storage held under the lease. */
  method OpenStore(limits: Limits, durable: Option<Snapshot>, minimumRevision: nat, now: nat) returns (r: Result<Local, Error>, store: PersistentStore)
    ensures r == Open(limits, durable, minimumRevision, now)
    ensures fresh(store) && store.Valid() && (r.Ok? ==> store.View() == r.value)
  {
    var volatile := new RouteStore(limits);
    store := new PersistentStore(volatile, None, None);
    if durable.Some? {
      var restored := volatile.RestoreLedger(durable.value, now, minimumRevision);
      if restored.Err? {
        return Err(restored.error), store;
      }
    }
    var pruned := volatile.PruneLedger(now);
    if pruned.Err? {
      return Err(pruned.error), store;
    }
    var proposed := Capture(volatile.View());
    var pending := match durable {
      case None => Some(Pending(Absent, proposed))
      case Some(image) => if proposed == image then None else Some(Pending(Prior(image), proposed))
    };
    store := new PersistentStore(volatile, durable, pending);
    return Ok(store.View()), store;
  }
}
