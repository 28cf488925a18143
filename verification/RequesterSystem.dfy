/**
  Whole runs of the requester: several contexts share one register, and may crash, restart, or lose their lease
  between any two steps. A write is sent, lands, and is acknowledged in three steps: it may land late, more than once,
  after its context has retried, crashed or lost the lease, or never; and its acknowledgement may be late or lost.

  The steps are the atomic pieces the operations are made of, so other contexts may act between any two of them.
  The theorem is downgrade safety: the routes released in one scope never go back.
 */
module RequesterSystem {
  import opened CasRegisters
  import opened Common
  import opened Replay
  import opened Paths
  import opened Requester
  import opened RequesterSelection

  type ContextId = nat

  /** A context may write and release only while reconfirmed under the lease it holds; token 0 is no lease. */
  datatype Context = Context(memory: Memory, token: nat, confirmed: bool)

  /** A released route, the time it was released at, and how many commits had been made by then. */
  datatype Release = Release(scope: Scope, route: Candidate, time: nat, after: nat)

  /**
    `sent` holds every write ever sent, since one may land at any later time, and `landed` those that storage answered.
    `commits` and `released` are history; no step reads them.
   */
  datatype System = System(
    register: Register<Image>, contexts: map<ContextId, Context>, sent: set<Sending<Image>>, landed: set<Sending<Image>>,
    commits: seq<Image>, released: seq<Release>)

  // ---- steps ----

  datatype Action =
    | Create(network: nat, capacity: nat, now: nat)
    | Restore(network: nat, capacity: nat, snapshot: Image, minimum: nat, now: nat)
    | Crash
    | Acquire
    | Reconfirm(loaded: Option<Image>, minimum: nat)
    | Send
    | Land(write: Sending<Image>)
    | Acknowledge
    | PrepareTime(now: nat)
    | PrepareObservation(scope: Scope, claims: Claims, now: nat)
    | Bind(scope: Scope, route: Candidate)

  function Put(s: System, id: ContextId, c: Context): System {
    s.(contexts := s.contexts[id := c])
  }

  /** The system after the register may have been written. */
  function Store(s: System, r: Register<Image>): System {
    s.(register := r,
       commits := if r.durable != s.register.durable && r.durable.Some? then s.commits + [r.durable.value] else s.commits)
  }

  /** A context begins: whatever it restores from need only be a snapshot that decodes, however old. */
  ghost predicate StartStep(s: System, id: ContextId, a: Action, t: System) {
    match a
    case Create(network, capacity, now) =>
      var m := Requester.Create(network, capacity, now);
      m.Ok? && t == Put(s, id, Context(m.value, 0, false))
    case Restore(network, capacity, snapshot, minimum, now) =>
      var m := Requester.Restore(network, capacity, snapshot, minimum, now);
      Loadable(snapshot) && m.Ok? && t == Put(s, id, Context(m.value, 0, false))
    case _ => false
  }

  /** The write a context asks for. */
  function Request(c: Context): Sending<Image>
    requires c.memory.pending.Some?
  {
    Sending(c.token, c.memory.pending.value, c.memory.image)
  }

  /** A write that was sent reaches storage, under the compare-and-swap contract. */
  ghost predicate LandStep(s: System, a: Action, t: System) {
    a.Land? && a.write in s.sent &&
    var r := Cas(s.register, a.write.token, a.write.expected, a.write.proposed);
    r.Some? && t == Store(s, r.value).(landed := s.landed + {a.write})
  }

  ghost predicate ContextStep(s: System, id: ContextId, a: Action, t: System)
    requires id in s.contexts
  {
    var c := s.contexts[id];
    match a
    case Crash => t == s.(contexts := s.contexts - {id})
    case Acquire =>
      t == Put(s.(register := s.register.(fence := s.register.fence + 1)), id, Context(c.memory, s.register.fence + 1, false))
    case Reconfirm(loaded, minimum) =>
      // what a context loads is storage if its lease is still current, and may be anything once it is not
      var m := Requester.Reconcile(c.memory, loaded, minimum);
      && 0 < c.token && (c.token == s.register.fence ==> loaded == s.register.durable)
      && m.Ok? && t == Put(s, id, Context(m.value, c.token, true))
    case Send =>
      c.confirmed && c.memory.pending.Some? && t == s.(sent := s.sent + {Request(c)})
    case Acknowledge =>
      c.confirmed && c.memory.pending.Some? && Request(c) in s.landed && t == Put(s, id, c.(memory := c.memory.(pending := None)))
    case PrepareTime(now) =>
      var m := Requester.PrepareTime(c.memory.image, now);
      c.confirmed && c.memory.pending.None? && now > c.memory.image.time && m.Ok? && t == Put(s, id, c.(memory := m.value))
    case PrepareObservation(scope, claims, now) =>
      var m := Requester.PrepareObservation(c.memory.image, scope, claims, now);
      c.confirmed && c.memory.pending.None? && m.Ok? && t == Put(s, id, c.(memory := m.value))
    case Bind(scope, route) =>
      // the lease check of the bind is the one check whose answer must be true
      && c.confirmed && c.token == s.register.fence
      && Requester.Bind(c.memory, scope, route, true, true).Ok?
      && t == s.(released := s.released + [Release(scope, route, c.memory.image.time, |s.commits|)])
    case _ => false
  }

  ghost predicate Next(s: System, id: ContextId, a: Action, t: System) {
    StartStep(s, id, a, t) || LandStep(s, a, t) || (id in s.contexts && ContextStep(s, id, a, t))
  }

  const Initial: System := System(Register(0, None), map[], {}, {}, [], [])

  ghost predicate Run(states: seq<System>, ids: seq<ContextId>, actions: seq<Action>) {
    && |states| == |actions| + 1 && |ids| == |actions|
    && states[0] == Initial
    && forall i :: 0 <= i < |actions| ==> Next(states[i], ids[i], actions[i], states[i + 1])
  }

  // ---- the invariant ----

  /** The context holding the current lease knows storage up to the fate of its one pending write. */
  ghost predicate Settled(m: Memory, durable: Option<Image>) {
    match m.pending
    case None => durable == Some(m.image)
    case Some(Absent) => durable.None? || durable == Some(m.image)
    case Some(Prior(p)) => durable == Some(p) || durable == Some(m.image)
  }

  ghost predicate ContextsOk(s: System) {
    && (forall id :: id in s.contexts ==>
          && WellFormed(s.contexts[id].memory)
          && s.contexts[id].token <= s.register.fence
          && (s.contexts[id].confirmed ==> 0 < s.contexts[id].token)
          && (s.contexts[id].confirmed && s.contexts[id].token == s.register.fence ==> Settled(s.contexts[id].memory, s.register.durable)))
    && forall i, j :: i in s.contexts && j in s.contexts && i != j && 0 < s.contexts[i].token ==>
         s.contexts[i].token != s.contexts[j].token
  }

  /** Each commit dominates, with a greater revision, every one before it; storage holds the last. */
  ghost predicate CommitsOk(s: System) {
    && (if s.commits == [] then s.register.durable.None? else s.register.durable == Some(s.commits[|s.commits| - 1]))
    && (forall i :: 0 <= i < |s.commits| ==> Loadable(s.commits[i]))
    && forall i, j :: 0 <= i < j < |s.commits| ==> Dominates(s.commits[j], s.commits[i]) && s.commits[i].revision < s.commits[j].revision
  }

  /** A release is exactly what the commit current at that moment records. */
  ghost predicate ReleaseOk(commits: seq<Image>, r: Release) {
    && 0 < r.after <= |commits|
    && r.scope in commits[r.after - 1].entries
    && commits[r.after - 1].entries[r.scope] == Exactly(r.route)
    && commits[r.after - 1].time == r.time
  }

  ghost predicate ReleasesOk(s: System) {
    && (forall k :: 0 <= k < |s.released| ==> ReleaseOk(s.commits, s.released[k]))
    && forall k, l :: 0 <= k < l < |s.released| ==> s.released[k].after <= s.released[l].after
  }

  /** A confirmed holder of the current lease started from a commit. */
  ghost predicate Grounded(s: System, c: Context) {
    c.confirmed && c.token == s.register.fence && c.memory.pending.Some? && c.memory.pending.value.Prior? ==>
      c.memory.pending.value.image in s.commits
  }

  /**
    A write under way goes beyond what it expects. Under the current lease it started from a commit, and can still
    change storage only if it is exactly what the holder, if there still is one, has pending.
   */
  ghost predicate SendingOk(s: System, w: Sending<Image>) {
    && 0 < w.token <= s.register.fence
    && WellFormed(Memory(w.proposed, Some(w.expected)))
    && (w.token == s.register.fence ==>
          && (w.expected.Prior? ==> w.expected.image in s.commits)
          && forall id :: id in s.contexts && s.contexts[id].token == w.token ==>
            && s.contexts[id].confirmed
            && (s.register.durable == Expected(w.expected) ==> s.contexts[id].memory == Memory(w.proposed, Some(w.expected))))
  }

  ghost predicate WritesOk(s: System) {
    && (forall id :: id in s.contexts ==> Grounded(s, s.contexts[id]))
    && (forall w :: w in s.sent ==> SendingOk(s, w))
    && forall w :: w in s.landed ==> w.proposed in s.commits
  }

  ghost predicate Inv(s: System) {
    ContextsOk(s) && CommitsOk(s) && ReleasesOk(s) && WritesOk(s)
  }

  // ---- preservation ----

  /** Replacing one context leaves the rest of the invariant alone. */
  lemma PutKeeps(s: System, id: ContextId, c: Context)
    requires Inv(s) && WellFormed(c.memory) && c.token <= s.register.fence
    requires c.confirmed && c.token == s.register.fence ==> Settled(c.memory, s.register.durable)
    requires c.confirmed ==> 0 < c.token
    requires 0 < c.token ==> forall j :: j in s.contexts && j != id ==> s.contexts[j].token != c.token
    requires Grounded(s, c) && forall w :: w in s.sent && w.token == c.token == s.register.fence ==>
               c.confirmed && (s.register.durable == Expected(w.expected) ==> c.memory == Memory(w.proposed, Some(w.expected)))
    ensures Inv(Put(s, id, c))
  {
    hide WellFormed, Settled, WritesOk, Loadable;
    PutWrites(s, id, c);
  }

  lemma PutWrites(s: System, id: ContextId, c: Context)
    requires WritesOk(s) && Grounded(s, c) && forall w :: w in s.sent && w.token == c.token == s.register.fence ==>
               c.confirmed && (s.register.durable == Expected(w.expected) ==> c.memory == Memory(w.proposed, Some(w.expected)))
    ensures WritesOk(Put(s, id, c))
  {
    hide WellFormed;
    assert forall w :: w in s.sent ==> SendingOk(s, w);
  }

  lemma StartKeeps(s: System, id: ContextId, a: Action, t: System)
    requires Inv(s) && StartStep(s, id, a, t)
    ensures Inv(t)
  {
    hide CommitsOk, ReleasesOk, Dominates;
    var m := t.contexts[id].memory;
    if a.Restore? && a.now > a.snapshot.time {
      PrepareTimeFollows(a.snapshot, a.now);
    }
    PutKeeps(s, id, Context(m, 0, false));
  }

  lemma CrashKeeps(s: System, id: ContextId)
    requires Inv(s)
    ensures Inv(s.(contexts := s.contexts - {id}))
  {
  }

  /** With a new fence no context's knowledge of storage counts any more, and no write under way can land. */
  lemma FenceRises(s: System, id: ContextId)
    requires Inv(s) && id in s.contexts
    ensures var u := s.(register := s.register.(fence := s.register.fence + 1));
            && Inv(u) && WellFormed(u.contexts[id].memory) && (forall w :: w in u.sent ==> w.token < u.register.fence)
            && forall j :: j in u.contexts ==> u.contexts[j].token < u.register.fence
  {
    hide WellFormed, Loadable, Dominates, Settled, ReleaseOk;
    var u := s.(register := s.register.(fence := s.register.fence + 1));
    assert CommitsOk(u) && ReleasesOk(u) && ContextsOk(u);
    assert forall w :: w in s.sent ==> SendingOk(s, w);
  }

  lemma AcquireKeeps(s: System, id: ContextId, t: System)
    requires Inv(s) && id in s.contexts && ContextStep(s, id, Acquire, t)
    ensures Inv(t)
  {
    hide Inv, WellFormed;
    var u := s.(register := s.register.(fence := s.register.fence + 1));
    FenceRises(s, id);
    PutKeeps(u, id, Context(s.contexts[id].memory, u.register.fence, false));
  }

  /** The last commit has the greatest revision. */
  lemma StorageIsLast(s: System, i: Image)
    requires CommitsOk(s) && i in s.commits
    ensures s.register.durable.Some? && i.revision <= s.register.durable.value.revision
  {
  }

  lemma ReconfirmKeeps(s: System, id: ContextId, loaded: Option<Image>, minimum: nat, t: System)
    requires Inv(s) && id in s.contexts && ContextStep(s, id, Reconfirm(loaded, minimum), t)
    ensures Inv(t)
  {
    var c := s.contexts[id];
    var m := Requester.Reconcile(c.memory, loaded, minimum).value;
    assert WellFormed(m) && (c.token == s.register.fence ==> Settled(m, s.register.durable));
    PutKeeps(s, id, Context(m, c.token, true));
  }

  lemma SendKeeps(s: System, id: ContextId, t: System)
    requires Inv(s) && id in s.contexts && ContextStep(s, id, Send, t)
    ensures Inv(t)
  {
    hide WellFormed, Loadable, Settled, Dominates, ReleaseOk;
    assert SendingOk(t, Request(s.contexts[id]));
  }

  /** An acknowledged write did land, and nothing has followed it while the lease was current. */
  lemma AcknowledgeKeeps(s: System, id: ContextId, t: System)
    requires Inv(s) && id in s.contexts && ContextStep(s, id, Acknowledge, t)
    ensures Inv(t)
  {
    var c := s.contexts[id];
    StorageIsLast(s, c.memory.image);
    PutKeeps(s, id, c.(memory := c.memory.(pending := None)));
  }

  lemma PrepareKeeps(s: System, id: ContextId, m: Memory)
    requires Inv(s) && id in s.contexts && s.contexts[id].confirmed && s.contexts[id].memory.pending.None?
    requires Follows(m, s.contexts[id].memory.image)
    ensures Inv(Put(s, id, s.contexts[id].(memory := m)))
  {
    PutKeeps(s, id, s.contexts[id].(memory := m));
  }

  /** A commit appended to the history. */
  lemma CommitKeeps(s: System, image: Image)
    requires CommitsOk(s) && ReleasesOk(s) && Loadable(image)
    requires s.register.durable.Some? ==> Dominates(image, s.register.durable.value) && s.register.durable.value.revision < image.revision
    ensures var t := Store(s, s.register.(durable := Some(image))); CommitsOk(t) && ReleasesOk(t)
  {
    var t := Store(s, s.register.(durable := Some(image)));
    forall i | 0 <= i < |s.commits| ensures Dominates(image, s.commits[i]) && s.commits[i].revision < image.revision {
      var last := s.commits[|s.commits| - 1];
      if i < |s.commits| - 1 {
        DominatesTransitive(s.commits[i], last, image);
      }
    }
    assert t.commits == s.commits + [image];
    assert forall k :: 0 <= k < |s.released| ==> ReleaseOk(s.commits, s.released[k]) ==> ReleaseOk(t.commits, s.released[k]);
  }

  /** No write under the current lease expects what storage has not held yet. */
  lemma LandedSendings(s: System, w: Sending<Image>, t: System)
    requires Inv(s) && w in s.sent && w.token == s.register.fence && s.register.durable == Expected(w.expected)
    requires t == Store(s, s.register.(durable := Some(w.proposed))).(landed := s.landed + {w})
    ensures WritesOk(t)
  {
    hide Dominates, ReleasesOk;
    assert SendingOk(s, w) && t.commits == s.commits + [w.proposed];
    forall v | v in t.sent ensures SendingOk(t, v) {
      assert SendingOk(s, v);
      if v.token == s.register.fence && v.expected == Prior(w.proposed) {
        StorageIsLast(s, w.proposed);
      }
    }
  }

  lemma LandedContexts(s: System, w: Sending<Image>, t: System)
    requires Inv(s) && w in s.sent && w.token == s.register.fence && s.register.durable == Expected(w.expected)
    requires t.register == s.register.(durable := Some(w.proposed)) && t.contexts == s.contexts
    ensures ContextsOk(t)
  {
    hide CommitsOk, ReleasesOk;
    assert SendingOk(s, w);
  }

  /** A write that lands, now or long after it was sent, moves storage only from its prior to its proposed image. */
  lemma LandKeeps(s: System, a: Action, t: System)
    requires Inv(s) && LandStep(s, a, t)
    ensures Inv(t)
  {
    hide ContextsOk, ReleasesOk, Loadable, Dominates;
    var w := a.write;
    assert SendingOk(s, w);
    if s.register.durable != Some(w.proposed) {
      hide CommitsOk, WritesOk, SendingOk;
      CommitKeeps(s, w.proposed);
      LandedContexts(s, w, t);
      LandedSendings(s, w, t);
      SameRecords(Store(s, s.register.(durable := Some(w.proposed))), t);
    } else {
      assert w.proposed in s.commits;
      SameRecords(s, t);
      assert forall v :: v in s.sent ==> SendingOk(s, v);
    }
  }

  lemma SameRecords(s: System, t: System)
    requires t.register == s.register && t.contexts == s.contexts && t.commits == s.commits && t.released == s.released
    ensures CommitsOk(s) ==> CommitsOk(t)
    ensures ReleasesOk(s) ==> ReleasesOk(t)
    ensures ContextsOk(s) ==> ContextsOk(t)
  {
  }

  lemma ReleaseKeeps(s: System, r: Release)
    requires CommitsOk(s) && ReleasesOk(s) && ReleaseOk(s.commits, r) && r.after == |s.commits|
    ensures ReleasesOk(s.(released := s.released + [r]))
  {
  }

  lemma BindKeeps(s: System, id: ContextId, scope: Scope, route: Candidate, t: System)
    requires Inv(s) && id in s.contexts && ContextStep(s, id, Bind(scope, route), t)
    ensures Inv(t)
  {
    hide WellFormed, Loadable, Dominates;
    var image := s.contexts[id].memory.image;
    assert Settled(s.contexts[id].memory, s.register.durable);
    ReleaseKeeps(s, Release(scope, route, image.time, |s.commits|));
    assert forall w :: w in s.sent ==> SendingOk(s, w) ==> SendingOk(t, w);
  }

  lemma NextKeeps(s: System, id: ContextId, a: Action, t: System)
    requires Inv(s) && Next(s, id, a, t)
    ensures Inv(t)
  {
    if StartStep(s, id, a, t) {
      StartKeeps(s, id, a, t);
    } else if LandStep(s, a, t) {
      LandKeeps(s, a, t);
    } else {
      match a
      case Crash => CrashKeeps(s, id);
      case Acquire => AcquireKeeps(s, id, t);
      case Reconfirm(loaded, minimum) => ReconfirmKeeps(s, id, loaded, minimum, t);
      case Send => SendKeeps(s, id, t);
      case Acknowledge => AcknowledgeKeeps(s, id, t);
      case PrepareTime(now) =>
        PrepareTimeFollows(s.contexts[id].memory.image, now);
        PrepareKeeps(s, id, Requester.PrepareTime(s.contexts[id].memory.image, now).value);
      case PrepareObservation(scope, claims, now) =>
        PrepareObservationFollows(s.contexts[id].memory.image, scope, claims, now);
        PrepareKeeps(s, id, Requester.PrepareObservation(s.contexts[id].memory.image, scope, claims, now).value);
      case Bind(scope, route) => BindKeeps(s, id, scope, route, t);
      case _ =>
    }
  }

  lemma {:induction false} RunKeeps(states: seq<System>, ids: seq<ContextId>, actions: seq<Action>, n: nat)
    requires Run(states, ids, actions) && n < |states|
    ensures Inv(states[n])
  {
    if n > 0 {
      RunKeeps(states, ids, actions, n - 1);
      NextKeeps(states[n - 1], ids[n - 1], actions[n - 1], states[n]);
    }
  }

  // ---- the theorems ----

  /** One release does not go back on another. */
  ghost predicate NoDowngrade(earlier: Release, later: Release) {
    && earlier.time <= later.time
    && (earlier.scope == later.scope ==>
          && earlier.route.endpointSequence <= later.route.endpointSequence
          && earlier.route.routeSequence <= later.route.routeSequence
          && (earlier.route.endpointSequence == later.route.endpointSequence ==> earlier.route.endpointId == later.route.endpointId)
          && (earlier.route.routeSequence == later.route.routeSequence ==> earlier.route.canonical == later.route.canonical))
  }

  /**
    Downgrade safety. In every run, whatever the crashes, ambiguous writes and competing contexts, later releases
    never go back in time, in endpoint sequence or in route sequence, and never change identity at an equal one.
   */
  lemma ReleasesNeverGoBack(states: seq<System>, ids: seq<ContextId>, actions: seq<Action>, k: nat, l: nat)
    requires Run(states, ids, actions)
    requires k < l < |states[|actions|].released|
    ensures NoDowngrade(states[|actions|].released[k], states[|actions|].released[l])
  {
    RunKeeps(states, ids, actions, |actions|);
    var s := states[|actions|];
    var a, b := s.released[k], s.released[l];
    assert ReleaseOk(s.commits, a) && ReleaseOk(s.commits, b);
    if a.after < b.after {
      assert Dominates(s.commits[b.after - 1], s.commits[a.after - 1]);
    }
  }

  /** Equivocation is permanent: a sequence that storage ever marked conflicted is never released afterwards. */
  lemma ConflictsStayBuried(states: seq<System>, ids: seq<ContextId>, actions: seq<Action>, n: nat, k: nat)
    requires Run(states, ids, actions)
    requires var s := states[|actions|];
             k < |s.released| && n < s.released[k].after && n < |s.commits| && s.released[k].scope in s.commits[n].entries
    ensures var s := states[|actions|];
            var r, o := s.released[k], s.commits[n].entries[s.released[k].scope];
            && o.endpoint.high <= r.route.endpointSequence && (o.endpoint.conflicted ==> o.endpoint.high < r.route.endpointSequence)
            && o.route.high <= r.route.routeSequence && (o.route.conflicted ==> o.route.high < r.route.routeSequence)
  {
    RunKeeps(states, ids, actions, |actions|);
    var s := states[|actions|];
    var r := s.released[k];
    assert ReleaseOk(s.commits, r);
    if n < r.after - 1 {
      assert Dominates(s.commits[r.after - 1], s.commits[n]);
    }
  }

  /** Persist before release: at any moment storage itself records every release, or something beyond it. */
  lemma StorageCoversReleases(states: seq<System>, ids: seq<ContextId>, actions: seq<Action>, k: nat)
    requires Run(states, ids, actions) && k < |states[|actions|].released|
    ensures var s := states[|actions|];
            var r := s.released[k];
            && s.register.durable.Some?
            && r.time <= s.register.durable.value.time
            && r.scope in s.register.durable.value.entries
            && ObservationLeq(Exactly(r.route), s.register.durable.value.entries[r.scope])
  {
    RunKeeps(states, ids, actions, |actions|);
    var s := states[|actions|];
    var r := s.released[k];
    assert ReleaseOk(s.commits, r);
    if r.after < |s.commits| {
      assert Dominates(s.commits[|s.commits| - 1], s.commits[r.after - 1]);
    }
  }

  /** What any context holds and what storage holds always meets the decoder's demands, both capacities among them. */
  lemma EveryImageLoads(states: seq<System>, ids: seq<ContextId>, actions: seq<Action>, id: ContextId)
    requires Run(states, ids, actions)
    ensures var s := states[|actions|];
            && (id in s.contexts ==> Loadable(s.contexts[id].memory.image))
            && (s.register.durable.Some? ==> Loadable(s.register.durable.value))
  {
    RunKeeps(states, ids, actions, |actions|);
  }

  /** A commit is determined by its revision. */
  lemma RevisionsIdentifyCommits(states: seq<System>, ids: seq<ContextId>, actions: seq<Action>, i: nat, j: nat)
    requires Run(states, ids, actions)
    requires var c := states[|actions|].commits; i < |c| && j < |c| && c[i].revision == c[j].revision
    ensures i == j
  {
    RunKeeps(states, ids, actions, |actions|);
    var c := states[|actions|].commits;
    assert forall a, b :: 0 <= a < b < |c| ==> c[a].revision < c[b].revision;
  }

  // ---- the revision floor ----

  /** A context whose image, and whose pending write's prior image, are at or above a floor. */
  predicate Above(c: Context, floor: nat) {
    && floor <= c.memory.image.revision
    && (c.memory.pending.Some? && c.memory.pending.value.Prior? ==> floor <= c.memory.pending.value.image.revision)
  }

  /** A step that does not end or replace the context. */
  predicate Spares(id: ContextId, actor: ContextId, a: Action) {
    actor == id ==> !a.Create? && !a.Restore? && !a.Crash?
  }

  lemma ReconfirmIsAbove(s: System, id: ContextId, image: Image, floor: nat, t: System)
    requires Inv(s) && id in s.contexts && ContextStep(s, id, Reconfirm(Some(image), floor), t)
    ensures floor <= image.revision && Above(t.contexts[id], floor)
  {
    ReconcileIff(s.contexts[id].memory, Some(image), floor);
    assert WellFormed(s.contexts[id].memory);
  }

  lemma StaysAbove(s: System, actor: ContextId, a: Action, t: System, id: ContextId, floor: nat)
    requires Next(s, actor, a, t) && id in s.contexts && Above(s.contexts[id], floor) && Spares(id, actor, a)
    ensures id in t.contexts && Above(t.contexts[id], floor)
  {
    hide Requester.PrepareObservation, Requester.PrepareTime, Requester.Reconcile, Requester.Bind, Requester.Restore, Requester.Create;
    if actor == id && !LandStep(s, a, t) {
      var c := s.contexts[id];
      match a
      case Reconfirm(loaded, minimum) => ReconcileIff(c.memory, loaded, minimum);
      case PrepareTime(now) => PrepareTimeFollows(c.memory.image, now);
      case PrepareObservation(scope, claims, now) => PrepareObservationFollows(c.memory.image, scope, claims, now);
      case _ =>
    }
  }

  /**
    The floor holds: a context that reconfirmed against storage under a floor neither holds nor waits on anything
    below it, for as long as it lives.
   */
  lemma {:induction false} FloorHolds(
    states: seq<System>, ids: seq<ContextId>, actions: seq<Action>, i: nat, j: nat, id: ContextId, image: Image, floor: nat)
    requires Run(states, ids, actions) && i < j < |states| && ids[i] == id && actions[i] == Reconfirm(Some(image), floor)
    requires forall k :: i < k < j ==> Spares(id, ids[k], actions[k])
    ensures floor <= image.revision && id in states[j].contexts && Above(states[j].contexts[id], floor)
    decreases j
  {
    hide Above, ContextStep, StartStep, LandStep;
    if j == i + 1 {
      RunKeeps(states, ids, actions, i);
      Reconfirmed(states[i], id, image, floor, states[j]);
      ReconfirmIsAbove(states[i], id, image, floor, states[j]);
    } else {
      FloorHolds(states, ids, actions, i, j - 1, id, image, floor);
      StaysAbove(states[j - 1], ids[j - 1], actions[j - 1], states[j], id, floor);
    }
  }

  lemma Reconfirmed(s: System, id: ContextId, image: Image, floor: nat, t: System)
    requires Next(s, id, Reconfirm(Some(image), floor), t)
    ensures id in s.contexts && ContextStep(s, id, Reconfirm(Some(image), floor), t) && id in t.contexts
  {
  }

  /** And whatever it releases comes from a commit at or above the floor. */
  lemma ReleasesAboveFloor(
    states: seq<System>, ids: seq<ContextId>, actions: seq<Action>, i: nat, j: nat, id: ContextId, image: Image, floor: nat, scope: Scope, route: Candidate)
    requires Run(states, ids, actions) && i < j < |actions| && ids[i] == id && actions[i] == Reconfirm(Some(image), floor)
    requires (forall k :: i < k < j ==> Spares(id, ids[k], actions[k])) && ids[j] == id && actions[j] == Bind(scope, route)
    ensures var t := states[j + 1];
            && |t.released| == |states[j].released| + 1
            && var r := t.released[|t.released| - 1];
               r.scope == scope && r.route == route && 0 < r.after <= |t.commits| && floor <= t.commits[r.after - 1].revision
  {
    FloorHolds(states, ids, actions, i, j, id, image, floor);
    RunKeeps(states, ids, actions, j);
    assert Next(states[j], ids[j], actions[j], states[j + 1]);
    assert Settled(states[j].contexts[id].memory, states[j].register.durable);
  }

  // ---- operations are runs of these steps ----

  /** One step of context `id`. */
  ghost function Moves(id: ContextId): (System, System) -> bool {
    (s, t) => exists a :: Next(s, id, a, t)
  }

  lemma ActionReaches(s: System, id: ContextId, a: Action, t: System)
    requires Next(s, id, a, t)
    ensures Reaches(Moves(id), s, t)
  {
    assert Moves(id)(s, t);
    StepReaches(Moves(id), s, t);
  }

  lemma RunExtends(states: seq<System>, ids: seq<ContextId>, actions: seq<Action>, id: ContextId, a: Action, u: System)
    requires Run(states, ids, actions) && Next(states[|actions|], id, a, u)
    ensures Run(states + [u], ids + [id], actions + [a])
  {
    var states', ids', actions' := states + [u], ids + [id], actions + [a];
    forall i | 0 <= i < |actions'| ensures Next(states'[i], ids'[i], actions'[i], states'[i + 1]) {
      assert i < |actions| ==> Next(states[i], ids[i], actions[i], states[i + 1]);
    }
  }

  /** Whatever an operation reaches is the end of a longer run, so the theorems speak about it. */
  lemma {:induction false} ReachesExtends(states: seq<System>, ids: seq<ContextId>, actions: seq<Action>, id: ContextId, t: System, n: nat)
    returns (states': seq<System>, ids': seq<ContextId>, actions': seq<Action>)
    requires Run(states, ids, actions) && ReachesIn(Moves(id), states[|actions|], t, n)
    ensures Run(states', ids', actions') && states'[|actions'|] == t
    ensures |actions'| == |actions| + n && states'[..|states|] == states
    decreases n
  {
    hide Next;
    states', ids', actions' := states, ids, actions;
    if n > 0 {
      var u :| Moves(id)(states[|actions|], u) && ReachesIn(Moves(id), u, t, n - 1);
      var a :| Next(states[|actions|], id, a, u);
      RunExtends(states, ids, actions, id, a, u);
      states', ids', actions' := ReachesExtends(states + [u], ids + [id], actions + [a], id, t, n - 1);
      assert states == (states + [u])[..|states|];
    }
  }

  /** What context `id` sees. */
  function Sees(s: System, id: ContextId): World
    requires id in s.contexts
  {
    World(s.contexts[id].memory, s.register)
  }

  /** `t` is `s` after context `id` worked its way to `w` without releasing anything. */
  ghost predicate Arrives(s: System, id: ContextId, w: World, t: System)
    requires id in s.contexts
  {
    && Reaches(Moves(id), s, t) && id in t.contexts
    && t.contexts[id] == s.contexts[id].(memory := w.memory) && t.register == w.register
    && t.contexts == s.contexts[id := t.contexts[id]] && t.released == s.released
  }

  lemma Stays(s: System, id: ContextId)
    requires id in s.contexts
    ensures Arrives(s, id, Sees(s, id), s)
  {
    StepReaches(Moves(id), s, s);
    assert s.contexts[id := s.contexts[id]] == s.contexts;
  }

  lemma ArrivesTransitive(s: System, id: ContextId, w: World, t: System, v: World, u: System)
    requires id in s.contexts && Arrives(s, id, w, t) && Arrives(t, id, v, u)
    ensures Arrives(s, id, v, u)
  {
    ReachesTransitive(Moves(id), s, t, u);
  }

  /** A flush, whatever becomes of it, is a write that is sent, lands and is acknowledged, or stops on the way. */
  lemma FlushArrives(s: System, id: ContextId, a: Attempt) returns (t: System)
    requires id in s.contexts && s.contexts[id].confirmed
    ensures Arrives(s, id, Requester.Flush(Sees(s, id), s.contexts[id].token, a).world, t)
  {
    var c := s.contexts[id];
    t := s;
    Stays(s, id);
    if a.before && c.memory.pending.Some? {
      var w := Request(c);
      var r := Cas(s.register, w.token, w.expected, w.proposed);
      if r.Some? && !a.fault.FailsBefore? {
        var u := s.(sent := s.sent + {w});
        ActionReaches(s, id, Send, u);
        t := Store(u, r.value).(landed := u.landed + {w});
        ActionReaches(u, id, Land(w), t);
        ReachesTransitive(Moves(id), s, u, t);
        if a.fault.Healthy? && a.after {
          var v := Put(t, id, c.(memory := c.memory.(pending := None)));
          ActionReaches(t, id, Acknowledge, v);
          ReachesTransitive(Moves(id), s, t, v);
          t := v;
        }
      }
    }
  }

  lemma AdvanceArrives(s: System, id: ContextId, now: nat, held: bool, first: Attempt, second: Attempt) returns (t: System)
    requires id in s.contexts && s.contexts[id].confirmed
    ensures Arrives(s, id, Requester.AdvanceTime(Sees(s, id), s.contexts[id].token, now, held, first, second).world, t)
  {
    var token := s.contexts[id].token;
    t := s;
    Stays(s, id);
    if held && s.contexts[id].memory.image.time <= now {
      t := FlushArrives(s, id, first);
      var f := Requester.Flush(Sees(s, id), token, first);
      var next := Requester.PrepareTime(f.world.memory.image, now);
      if f.result.Ok? && now != s.contexts[id].memory.image.time && next.Ok? {
        var u := Put(t, id, t.contexts[id].(memory := next.value));
        ActionReaches(t, id, PrepareTime(now), u);
        ArrivesTransitive(s, id, f.world, t, Sees(u, id), u);
        t := FlushArrives(u, id, second);
        ArrivesTransitive(s, id, Sees(u, id), u, Sees(t, id), t);
      }
    }
  }

  lemma ObserveArrives<T>(
    s: System, id: ContextId, selected: Option<T>, scope: Scope, claims: Claims, now: nat, held: bool, first: Attempt, second: Attempt)
    returns (t: System)
    requires id in s.contexts && s.contexts[id].confirmed
    ensures Arrives(s, id, Requester.ApplyObservation(Sees(s, id), s.contexts[id].token, selected, scope, claims, now, held, first, second).world, t)
  {
    var token := s.contexts[id].token;
    t := s;
    Stays(s, id);
    if held {
      t := FlushArrives(s, id, first);
      var f := Requester.Flush(Sees(s, id), token, first);
      var next := Requester.PrepareObservation(f.world.memory.image, scope, claims, now);
      if f.result.Ok? && Writes(f.world.memory.image, scope, claims, now) && next.Ok? {
        var u := Put(t, id, t.contexts[id].(memory := next.value));
        ActionReaches(t, id, PrepareObservation(scope, claims, now), u);
        ArrivesTransitive(s, id, f.world, t, Sees(u, id), u);
        t := FlushArrives(u, id, second);
        ArrivesTransitive(s, id, Sees(u, id), u, Sees(t, id), t);
      }
    }
  }

  lemma SelectionBinds(s: System, w: World, id: ContextId, q: Request, script: Script, t: System)
    requires id in s.contexts && s.contexts[id].confirmed && s.contexts[id].token == t.register.fence
    requires w == SelectAndObserve(Sees(s, id), s.contexts[id].token, q, script).world && Arrives(s, id, w, t)
    requires SelectAndObserve(Sees(s, id), s.contexts[id].token, q, script).result.Ok?
    ensures var r := SelectAndObserve(Sees(s, id), s.contexts[id].token, q, script).result.value;
            Next(t, id, Bind(q.scope, r), t.(released := t.released + [Release(q.scope, r, q.now, |t.commits|)]))
  {
    SelectionIsCurrent(Sees(s, id), s.contexts[id].token, q, script);
  }

  /**
    A whole selection, under any environment, is a run of these steps; and if it succeeds while the lease is
    current, the release of its route is a step too.
   */
  lemma SelectionArrives(s: System, id: ContextId, q: Request, script: Script) returns (t: System)
    requires id in s.contexts && s.contexts[id].confirmed
    ensures Arrives(s, id, SelectAndObserve(Sees(s, id), s.contexts[id].token, q, script).world, t)
    ensures var r := SelectAndObserve(Sees(s, id), s.contexts[id].token, q, script).result;
            r.Ok? && s.contexts[id].token == t.register.fence ==>
              Next(t, id, Bind(q.scope, r.value), t.(released := t.released + [Release(q.scope, r.value, q.now, |t.commits|)]))
  {
    var token := s.contexts[id].token;
    t := s;
    Stays(s, id);
    if script.held && s.contexts[id].memory.image.time <= q.now {
      t := AdvanceArrives(s, id, q.now, script.advanceHeld, script.time1, script.time2);
      var a := Requester.AdvanceTime(Sees(s, id), token, q.now, script.advanceHeld, script.time1, script.time2);
      var valid := Usables(q.batch, q.scope);
      if a.result.Ok? && q.network == a.world.memory.image.network && q.keyValid && HasRoom(a.world.memory.image, q.scope)
         && |q.batch| <= MAX_RECORDS_PER_KEY && valid != [] {
        var u := ObserveArrives(t, id, Selected(valid), q.scope, BatchClaims(valid), q.now, script.observeHeld, script.observe1, script.observe2);
        ArrivesTransitive(s, id, a.world, t, Sees(u, id), u);
        t := u;
      }
    }
    var w := SelectAndObserve(Sees(s, id), token, q, script);
    if w.result.Ok? && token == t.register.fence {
      SelectionBinds(s, w.world, id, q, script, t);
    }
  }

  // ---- a run that releases something ----

  /** One context, with the given memory, holding the first lease over the storage those commits left. */
  function Alone(m: Memory, writes: set<Sending<Image>>, commits: seq<Image>): System {
    System(Register(1, if commits == [] then None else Some(commits[|commits| - 1])), map[0 := Context(m, 1, true)], writes, writes, commits, [])
  }

  lemma Extended(states: seq<System>, ids: seq<ContextId>, actions: seq<Action>, a: Action, u: System)
    returns (states': seq<System>, ids': seq<ContextId>, actions': seq<Action>)
    requires Run(states, ids, actions) && Next(states[|actions|], 0, a, u)
    ensures Run(states', ids', actions') && states'[|actions'|] == u
  {
    RunExtends(states, ids, actions, 0, a, u);
    states', ids', actions' := states + [u], ids + [0], actions + [a];
  }

  /** The holder's pending write is sent, lands and is acknowledged. */
  lemma APendingWriteLands(
    states: seq<System>, ids: seq<ContextId>, actions: seq<Action>, e: Expectation<Image>, i: Image, writes: set<Sending<Image>>, commits: seq<Image>)
    returns (states': seq<System>, ids': seq<ContextId>, actions': seq<Action>)
    requires Run(states, ids, actions) && states[|actions|] == Alone(Memory(i, Some(e)), writes, commits)
    requires Expected(e) == (if commits == [] then None else Some(commits[|commits| - 1])) && Expected(e) != Some(i)
    ensures Run(states', ids', actions')
    ensures states'[|actions'|] == Alone(Memory(i, None), writes + {Sending(1, e, i)}, commits + [i])
  {
    hide Run;
    var s := Alone(Memory(i, Some(e)), writes, commits);
    var w := Sending(1, e, i);
    var u := s.(sent := writes + {w});
    states', ids', actions' := Extended(states, ids, actions, Send, u);
    var v := Alone(Memory(i, Some(e)), writes + {w}, commits + [i]);
    assert v == Store(u, Register(1, Some(i))).(landed := u.landed + {w});
    states', ids', actions' := Extended(states', ids', actions', Land(w), v);
    states', ids', actions' := Extended(states', ids', actions', Acknowledge, Alone(Memory(i, None), writes + {w}, commits + [i]));
  }

  lemma AContextStarts(empty: Image) returns (states: seq<System>, ids: seq<ContextId>, actions: seq<Action>)
    requires empty == Image(9, 8, 0, 100, map[])
    ensures Run(states, ids, actions) && states[|actions|] == Alone(Memory(empty, None), {Sending(1, Absent, empty)}, [empty])
  {
    var m := Memory(empty, Some(Absent));
    var s1 := Put(Initial, 0, Context(m, 0, false));
    var s2 := Put(s1.(register := Register(1, None)), 0, Context(m, 1, false));
    states, ids, actions := Extended([Initial], [], [], Create(9, 8, 100), s1);
    hide Run;
    states, ids, actions := Extended(states, ids, actions, Acquire, s2);
    states, ids, actions := Extended(states, ids, actions, Reconfirm(None, 0), Alone(m, {}, []));
    states, ids, actions := APendingWriteLands(states, ids, actions, Absent, empty, {}, []);
  }

  lemma AnObservationIsPrepared(empty: Image, scope: Scope, route: Candidate, seen: Image)
    requires empty == Image(9, 8, 0, 100, map[]) && seen == empty.(entries := map[scope := Exactly(route)], revision := 1)
    ensures Requester.PrepareObservation(empty, scope, RecordClaims(route), 100) == Ok(Memory(seen, Some(Prior(empty))))
  {
    assert SameRouteKey(empty, scope.routeKey) == {};
  }

  /** The runs spoken of exist: a fresh context that reconfirms, creates storage, observes a route and releases it. */
  lemma AReleaseHappens() returns (states: seq<System>, ids: seq<ContextId>, actions: seq<Action>)
    ensures Run(states, ids, actions) && |states[|actions|].released| == 1
  {
    hide Run, Requester.PrepareObservation;
    var scope := Scope(1, 2, 3);
    var route := Candidate(2, 3, 5, 50, 7, 70, true);
    var empty := Image(9, 8, 0, 100, map[]);
    var seen := empty.(entries := map[scope := Exactly(route)], revision := 1);
    var writes := {Sending(1, Absent, empty)};
    AnObservationIsPrepared(empty, scope, route, seen);
    states, ids, actions := AContextStarts(empty);
    states, ids, actions := Extended(states, ids, actions, PrepareObservation(scope, RecordClaims(route), 100),
                                     Alone(Memory(seen, Some(Prior(empty))), writes, [empty]));
    states, ids, actions := APendingWriteLands(states, ids, actions, Prior(empty), seen, writes, [empty]);
    var last := Alone(Memory(seen, None), writes + {Sending(1, Prior(empty), seen)}, [empty, seen]);
    states, ids, actions := Extended(states, ids, actions, Bind(scope, route), last.(released := [Release(scope, route, 100, 2)]));
  }
}
