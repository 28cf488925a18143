/**
  The leased service around the persistent route store: it hands its local store out for one operation at a time,
  and takes it back only if the lease still holds. Over whole runs, whatever it emits rests on what storage holds.
 */
module LeasedServices {
  import opened Common
  import opened CasRegisters
  import opened Paths
  import opened RouteStores
  import opened RouteStoreInvariants
  import opened RouteStoreRuns
  import opened PersistentRoutes

  // ---- the leased service ----

  /** An operation takes the local store out, and puts it back only if the lease still holds at the end. */
  datatype Service = Service(inner: Option<Local>, poisoned: bool, inFlight: bool)

  const Poisoned: Service := Service(None, true, false)

  datatype Delivery = Delivered | LeaseGone | Failed | Cancelled

  datatype Ending = Done | WasPoisoned | OwnershipLost | AuthorityLost | PersistenceFailed | EmissionFailed | Dropped

  /** An emission, and the state of the world at that moment. */
  datatype Emitted = Emitted(what: Emission, world: World)

  datatype Ended = Ended(service: Service, register: Medium, emitted: Option<Emitted>, outcome: Ending)

  /** The answers of the lease checks, and what became of the delivery. */
  datatype Env = Env(begin: bool, beforeEmit: bool, delivery: Delivery, finish: bool)

  /** Whether an operation may start; if not, why, and what is left of the service. */
  function Refuses(s: Service, begin: bool): Option<(Service, Ending)> {
    if s.poisoned || s.inner.None? then Some((s, WasPoisoned))
    else if s.inFlight then Some((Poisoned, WasPoisoned))
    else if !begin then Some((Poisoned, OwnershipLost))
    else None
  }

  function Resumed(l: Local, held: bool): Service {
    if held then Service(Some(l), false, false) else Poisoned
  }

  ghost function HandleAndEmit(s: Service, register: Medium, token: nat, packet: Packet, now: nat, f: Faults, env: Env): Ended {
    var refused := Refuses(s, env.begin);
    if refused.Some? then Ended(refused.value.0, register, None, refused.value.1)
    else Deliver(Handle(World(s.inner.value, register), token, packet, now, f), env)
  }

  /** What becomes of a handled packet. */
  function Deliver(h: Step<Emission>, env: Env): Ended {
    if h.result == Err(LostLease) then Ended(Poisoned, h.world.register, None, OwnershipLost)
    else if h.result == Err(StorageFailed) then
      Ended(Resumed(h.world.local, env.finish), h.world.register, None, if env.finish then PersistenceFailed else OwnershipLost)
    else if !env.beforeEmit then Ended(Poisoned, h.world.register, None, OwnershipLost)
    else
      var e := Some(Emitted(if h.result.Ok? then h.result.value else Refused(h.result.error), h.world));
      match env.delivery
      case Delivered => Ended(Resumed(h.world.local, env.finish), h.world.register, e, if env.finish then Done else OwnershipLost)
      case LeaseGone => Ended(Poisoned, h.world.register, e, OwnershipLost)
      case Failed => Ended(Poisoned, h.world.register, e, EmissionFailed)
      case Cancelled => Ended(Service(None, true, true), h.world.register, e, Dropped)
  }

  datatype MutationEnv = MutationEnv(authorityBefore: bool, begin: bool, authorityAfter: bool, finish: bool)

  /** A route operation under committed authority; its answer is local, nothing is emitted. */
  ghost function MutateCurrent(
    s: Service, register: Medium, token: nat, op: Operation, now: nat, first: Fate, second: Fate, env: MutationEnv): Ended
  {
    var refused := Refuses(s, env.begin);
    if !env.authorityBefore then Ended(Poisoned, register, None, AuthorityLost)
    else if refused.Some? then Ended(refused.value.0, register, None, refused.value.1)
    else
      var r := RunPersisted(World(s.inner.value, register), token, now, op, first, second);
      if !env.authorityAfter then Ended(Poisoned, r.world.register, None, AuthorityLost)
      else if r.result == Err(LostLease) then Ended(Poisoned, r.world.register, None, OwnershipLost)
      else Ended(Resumed(r.world.local, env.finish), r.world.register, None, if env.finish then Done else OwnershipLost)
  }

  ghost predicate ServiceOk(s: Service, register: Medium, token: nat, expiryOf: Expiry) {
    && token <= register.fence
    && (s.poisoned ==> s.inner.None?)
    && (s.inner.Some? ==> WorldOk(World(s.inner.value, register), token, expiryOf))
  }

  /** What is sent rests on what is stored: at the emission, storage, acknowledgement and memory are one ledger. */
  ghost predicate Safe(e: Emitted, packet: Packet, expiryOf: Expiry) {
    && e.world.local.acknowledged == Some(Capture(e.world.local.volatile))
    && e.world.register.durable == Some(Capture(e.world.local.volatile))
    && Backed(e.world, packet, e.what, expiryOf)
  }

  /** A handled packet as it comes out of the boundary. */
  ghost predicate Handled(h: Step<Emission>, token: nat, packet: Packet, expiryOf: Expiry) {
    && WorldOk(h.world, token, expiryOf)
    && ((h.result.Ok? || h.result.error.Emitted()) ==> Settled(h.world, token))
    && (h.result.Ok? ==> Backed(h.world, packet, h.result.value, expiryOf))
  }

  lemma DeliverKeepsRegister(h: Step<Emission>, env: Env)
    ensures Deliver(h, env).register == h.world.register
  {
  }

  lemma DeliverIsSafe(h: Step<Emission>, token: nat, packet: Packet, env: Env, expiryOf: Expiry)
    requires Handled(h, token, packet, expiryOf) && (env.beforeEmit ==> token == h.world.register.fence)
    ensures var e := Deliver(h, env);
            && ServiceOk(e.service, e.register, token, expiryOf) && StorageOk(e.register) && e.register == h.world.register
            && (e.emitted.Some? ==> Safe(e.emitted.value, packet, expiryOf))
            && (e.outcome.OwnershipLost? || e.outcome.EmissionFailed? || e.outcome.Dropped? ==> e.service.inner.None? && e.service.poisoned)
  {
    hide WorldOk, Settled, Backed, Safe;
    WorldParts(h.world, token, expiryOf);
    if (h.result.Ok? || h.result.error.Emitted()) && env.beforeEmit {
      SettledIsSafe(h, token, packet, expiryOf);
    }
  }

  lemma WorldParts(w: World, token: nat, expiryOf: Expiry)
    requires WorldOk(w, token, expiryOf)
    ensures StorageOk(w.register) && token <= w.register.fence
  {
  }

  lemma SettledIsSafe(h: Step<Emission>, token: nat, packet: Packet, expiryOf: Expiry)
    requires Handled(h, token, packet, expiryOf) && (h.result.Ok? || h.result.error.Emitted()) && token == h.world.register.fence
    ensures Safe(Emitted(if h.result.Ok? then h.result.value else Refused(h.result.error), h.world), packet, expiryOf)
  {
    hide WorldOk;
  }

  /** An operation that completes puts back exactly the store it emitted from. */
  lemma DoneReturns(s: Service, register: Medium, token: nat, packet: Packet, now: nat, f: Faults, env: Env)
    ensures var e := HandleAndEmit(s, register, token, packet, now, f, env);
            e.outcome.Done? ==> e.emitted.Some? && e.service == Service(Some(e.emitted.value.world.local), false, false) && e.emitted.value.world.register == e.register
  {
    hide PersistentRoutes.Handle;
  }

  /** Nothing is emitted unless the lease was held at the start and just before; nothing completes unless it is held to the end. */
  lemma DeliveryNeedsLease(s: Service, register: Medium, token: nat, packet: Packet, now: nat, f: Faults, env: Env)
    ensures var e := HandleAndEmit(s, register, token, packet, now, f, env);
            && (e.emitted.Some? ==> env.begin && env.beforeEmit && !s.poisoned && !s.inFlight)
            && (e.outcome.Done? ==> env.begin && env.beforeEmit && env.delivery.Delivered? && env.finish)
            && (e.service.inner.Some? && s.inner.Some? && env.begin ==> env.finish || s.poisoned)
  {
    hide PersistentRoutes.Handle;
  }

  /** And a current-authority mutation completes only under both leases, throughout. */
  lemma MutationNeedsLease(
    s: Service, register: Medium, token: nat, op: Operation, now: nat, first: Fate, second: Fate, env: MutationEnv)
    ensures var e := MutateCurrent(s, register, token, op, now, first, second, env);
            && e.emitted.None?
            && (e.outcome.Done? ==> env.authorityBefore && env.begin && env.authorityAfter && env.finish && !s.poisoned && !s.inFlight)
            && (!env.authorityBefore || (Refuses(s, env.begin).None? && (!env.authorityAfter || !env.finish)) ==> e.service.inner.None? && e.service.poisoned)
  {
    hide PersistentRoutes.RunPersisted;
  }

  /** What an emission says of the service it comes from, when everything completed. */
  ghost predicate Durable(s: Service, m: Medium) {
    s.inner.Some? && m.durable == Some(Capture(s.inner.value.volatile)) && s.inner.value.acknowledged == m.durable
  }

  /**
    Persist before emit, for the service. The lease check just before an emission is taken to tell the truth;
    the others may say anything. A lost lease or a delivery that did not complete leaves no volatile route behind.
   */
  lemma EmissionIsSafe(s: Service, register: Medium, token: nat, packet: Packet, now: nat, f: Faults, env: Env, expiryOf: Expiry)
    requires ServiceOk(s, register, token, expiryOf) && StorageOk(register)
    requires s.inner.Some? ==> Admissible(s.inner.value.volatile, packet, now, expiryOf)
    requires env.beforeEmit ==> token == HandleAndEmit(s, register, token, packet, now, f, env).register.fence
    ensures var e := HandleAndEmit(s, register, token, packet, now, f, env);
            && ServiceOk(e.service, e.register, token, expiryOf) && StorageOk(e.register)
            && (e.emitted.Some? ==> Safe(e.emitted.value, packet, expiryOf))
            && (e.outcome.OwnershipLost? || e.outcome.EmissionFailed? || e.outcome.Dropped? ==> e.service.inner.None? && e.service.poisoned)
  {
    hide PersistentRoutes.Handle, Deliver, WorldOk, Settled, Backed, Safe;
    if Refuses(s, env.begin).None? {
      HandleKeeps(World(s.inner.value, register), token, packet, now, f, expiryOf);
      DeliverKeepsRegister(Handle(World(s.inner.value, register), token, packet, now, f), env);
      DeliverIsSafe(Handle(World(s.inner.value, register), token, packet, now, f), token, packet, env, expiryOf);
    }
  }

  lemma MutationIsSafe(
    s: Service, register: Medium, token: nat, op: Operation, now: nat, first: Fate, second: Fate, env: MutationEnv, expiryOf: Expiry)
    requires ServiceOk(s, register, token, expiryOf) && StorageOk(register) && Happens(op, now)
    requires s.inner.Some? ==> Allowed(s.inner.value.volatile, op, expiryOf)
    ensures var e := MutateCurrent(s, register, token, op, now, first, second, env);
            && ServiceOk(e.service, e.register, token, expiryOf) && StorageOk(e.register)
            && (e.outcome.OwnershipLost? || e.outcome.AuthorityLost? ==> e.service.inner.None? && e.service.poisoned)
  {
    if Refuses(s, env.begin).None? {
      PersistentRoutes.RunKeeps(World(s.inner.value, register), token, now, op, first, second, expiryOf);
    }
  }

  // ---- runs ----

  /** One owner of the namespace over time, beside others it cannot see. `log` is history. */
  datatype Node = Node(service: Service, register: Medium, token: nat, log: seq<(Emitted, Packet)>)

  datatype NodeAction =
    | Reopen(minimum: nat, at: nat)
    | Packeted(packet: Packet, now: nat, faults: Faults, env: Env)
    | Current(op: Operation, when: nat, first: Fate, second: Fate, checks: MutationEnv)
    | Seize(takeover: Stored)
    | Straggles(write: Sending<Snapshot>)

  /**
    Reopening takes a new lease, so a new token, and loads what storage then holds. A seizure is another owner
    taking the lease over and writing whatever it likes. A straggler is a write of some earlier operation that arrives
    now, or again. Both may also come before any write inside an operation.
    The check before an emission tells the truth about that moment.
   */
  ghost predicate NodeStep(a: Node, x: NodeAction, b: Node, limits: Limits, expiryOf: Expiry) {
    match x
    case Reopen(minimum, at) =>
      var l := Open(limits, a.register.durable, minimum, at);
      l.Ok? && b == Node(Service(Some(l.value), false, false), a.register.(fence := a.register.fence + 1), a.register.fence + 1, a.log)
    case Packeted(packet, now, f, env) =>
      var e := HandleAndEmit(a.service, a.register, a.token, packet, now, f, env);
      && (a.service.inner.Some? ==> Admissible(a.service.inner.value.volatile, packet, now, expiryOf))
      && (env.beforeEmit ==> a.token == e.register.fence)
      && b == Node(e.service, e.register, a.token, if e.emitted.Some? then a.log + [(e.emitted.value, packet)] else a.log)
    case Current(op, now, first, second, env) =>
      var e := MutateCurrent(a.service, a.register, a.token, op, now, first, second, env);
      && (a.service.inner.Some? ==> Allowed(a.service.inner.value.volatile, op, expiryOf)) && Happens(op, now)
      && b == Node(e.service, e.register, a.token, a.log)
    case Seize(takeover) => a.register.fence < takeover.fence && b == a.(register := Overtaken(a.register, Some(takeover)))
    case Straggles(write) => write in a.register.sent && b == a.(register := Arrives(a.register, write))
  }

  ghost predicate NodeOk(n: Node, expiryOf: Expiry) {
    && ServiceOk(n.service, n.register, n.token, expiryOf) && StorageOk(n.register)
    && forall i :: 0 <= i < |n.log| ==> Safe(n.log[i].0, n.log[i].1, expiryOf)
  }

  lemma NodeKeeps(a: Node, x: NodeAction, b: Node, limits: Limits, expiryOf: Expiry)
    requires limits.Valid() && NodeOk(a, expiryOf) && NodeStep(a, x, b, limits, expiryOf)
    ensures NodeOk(b, expiryOf)
  {
    match x
    case Reopen(minimum, at) => OpenKeeps(limits, b.register, minimum, at, expiryOf);
    case Packeted(packet, now, f, env) => EmissionIsSafe(a.service, a.register, a.token, packet, now, f, env, expiryOf);
    case Current(op, now, first, second, env) => MutationIsSafe(a.service, a.register, a.token, op, now, first, second, env, expiryOf);
    case Seize(takeover) =>
      if a.service.inner.Some? {
        TakeoverKeeps(World(a.service.inner.value, a.register), a.token, Some(takeover), expiryOf);
      }
    case Straggles(write) =>
      if a.service.inner.Some? {
        ArrivalKeeps(World(a.service.inner.value, a.register), a.token, write, expiryOf);
      }
  }

  ghost function NodeSteps(limits: Limits, expiryOf: Expiry): (Node, Node) -> bool {
    (a, b) => exists x :: NodeStep(a, x, b, limits, expiryOf)
  }

  ghost function NodeInvariant(expiryOf: Expiry): Node -> bool {
    n => NodeOk(n, expiryOf)
  }

  const Start: Node := Node(Poisoned, Medium(0, None, {}), 0, [])

  /**
    Over every run, with reopenings, takeovers by other owners between and inside operations, ambiguous writes, lost leases and interrupted
    deliveries: whatever was emitted, the ledger it rests on was in storage at that moment.
   */
  lemma EveryEmissionIsSafe(states: seq<Node>, limits: Limits, expiryOf: Expiry, n: nat, i: nat)
    requires limits.Valid() && Trace(NodeSteps(limits, expiryOf), states) && states[0] == Start && n < |states| && i < |states[n].log|
    ensures Safe(states[n].log[i].0, states[n].log[i].1, expiryOf)
  {
    forall a, b | NodeInvariant(expiryOf)(a) && NodeSteps(limits, expiryOf)(a, b) ensures NodeInvariant(expiryOf)(b) {
      var x :| NodeStep(a, x, b, limits, expiryOf);
      NodeKeeps(a, x, b, limits, expiryOf);
    }
    Always(NodeSteps(limits, expiryOf), NodeInvariant(expiryOf), states, n);
  }
}
