/** The verification rate limiter of the route store: one global window and one window per source. */
module RateLimiters {
  import opened Common
  import opened Tallies

  datatype Window = Window(started: nat, attempts: nat)

  datatype Limits = Limits(total: nat, perSource: nat, duration: nat)
  {
    predicate Valid() { 0 < perSource <= total && 0 < duration }
  }

  datatype Limiter = Limiter(global: Option<Window>, sources: map<string, Window>)

  /** One charge: the new windows, and whether the attempt is admitted. */
  datatype Charged = Charged(limiter: Limiter, admitted: bool)

  predicate Over(w: Window, l: Limits, now: nat) {
    now >= SaturatingAdd(w.started, l.duration)
  }

  /** The windows once an elapsed global window has been replaced. */
  function Opened(s: Limiter, l: Limits, now: nat): (r: Limiter)
    ensures r.global.Some?
  {
    var g := if s.global.None? then Window(now, 0) else s.global.value;
    if Over(g, l, now) then Limiter(Some(Window(now, 0)), map[]) else s.(global := Some(g))
  }

  function SourceWindow(s: Limiter, l: Limits, source: string, now: nat): Window {
    if source in s.sources && !Over(s.sources[source], l, now) then s.sources[source] else Window(now, 0)
  }

  function Charge(s: Limiter, l: Limits, source: string, now: nat): Charged {
    var o := Opened(s, l, now);
    var g := o.global.value;
    if g.attempts >= l.total then Charged(o, false)
    else
      var w := SourceWindow(o, l, source, now);
      if w.attempts >= l.perSource then Charged(o.(sources := o.sources[source := w]), false)
      else Charged(Limiter(Some(g.(attempts := g.attempts + 1)), o.sources[source := w.(attempts := w.attempts + 1)]), true)
  }

  const Idle: Limiter := Limiter(None, map[])

  // ---- bounded memory, under any clock ----

  ghost predicate Bounded(s: Limiter, l: Limits) {
    && (s.global.None? ==> s.sources == map[])
    && (s.global.Some? ==> |s.sources| <= s.global.value.attempts <= l.total)
    && forall k :: k in s.sources ==> 0 < s.sources[k].attempts <= l.perSource
  }

  /** The per-source map never outgrows the global attempts, which never exceed their limit. */
  lemma ChargeBounded(s: Limiter, l: Limits, source: string, now: nat)
    requires l.Valid() && Bounded(s, l)
    ensures Bounded(Charge(s, l, source, now).limiter, l)
  {
    var o := Opened(s, l, now);
    var w := SourceWindow(o, l, source, now);
    UpdateSize(o.sources, source, w);
    UpdateSize(o.sources, source, w.(attempts := w.attempts + 1));
  }

  // ---- the limiter itself ----

  class RateLimiter {
    const limits: Limits
    var global: Option<Window>
    var sources: map<string, Window>

    function View(): Limiter
      reads this
    {
      Limiter(global, sources)
    }

    /** The per-source windows are no more than the global attempts, which stay within their limit. */
    ghost predicate Valid()
      reads this
    {
      limits.Valid() && Bounded(View(), limits)
    }

    constructor(limits: Limits)
      requires limits.Valid()
      ensures View() == Idle && this.limits == limits && Valid()
    {
      this.limits := limits;
      global, sources := None, map[];
    }

    method ChargeVerification(source: string, now: nat) returns (admitted: bool)
      requires Valid()
      modifies this
      ensures Charged(View(), admitted) == Charge(old(View()), limits, source, now)
      ensures Valid() && |sources| <= limits.total
      ensures admitted ==> source in sources && 0 < sources[source].attempts
    {
      ChargeBounded(View(), limits, source, now);
      if global.None? {
        global := Some(Window(now, 0));
      }
      if now >= SaturatingAdd(global.value.started, limits.duration) {
        global := Some(Window(now, 0));
        sources := map[];
      }
      if global.value.attempts >= limits.total {
        return false;
      }
      var w := if source in sources then sources[source] else Window(now, 0);
      if now >= SaturatingAdd(w.started, limits.duration) {
        w := Window(now, 0);
      }
      if w.attempts >= limits.perSource {
        sources := sources[source := w];
        return false;
      }
      sources := sources[source := w.(attempts := w.attempts + 1)];
      global := Some(global.value.(attempts := global.value.attempts + 1));
      return true;
    }
  }

  // ---- rate, under a clock that does not go back ----

  datatype Call = Call(source: string, now: nat)

  /** The limiter after a history of calls. */
  function After(s: Limiter, l: Limits, calls: seq<Call>): Limiter
    decreases |calls|
  {
    if calls == [] then s else After(Charge(s, l, calls[0].source, calls[0].now).limiter, l, calls[1..])
  }

  /** After every history, under any clock, the windows kept are no more than the attempts, which stay within the limit. */
  lemma {:induction false} EveryHistoryBounded(s: Limiter, l: Limits, calls: seq<Call>)
    requires l.Valid() && (s == Idle || Bounded(s, l))
    ensures Bounded(After(s, l, calls), l) && |After(s, l, calls).sources| <= l.total
    decreases |calls|
  {
    if calls != [] {
      ChargeBounded(s, l, calls[0].source, calls[0].now);
      EveryHistoryBounded(Charge(s, l, calls[0].source, calls[0].now).limiter, l, calls[1..]);
    }
  }

  /** The calls admitted at times in `[from, from + duration)`, out of a whole history. */
  function AdmittedIn(s: Limiter, l: Limits, calls: seq<Call>, from: nat): nat
    decreases |calls|
  {
    if calls == [] then 0
    else
      var c := Charge(s, l, calls[0].source, calls[0].now);
      AdmittedIn(c.limiter, l, calls[1..], from) + if c.admitted && from <= calls[0].now < from + l.duration then 1 else 0
  }

  ghost predicate Forward(calls: seq<Call>) {
    forall i, j :: 0 <= i < j < |calls| ==> calls[i].now <= calls[j].now
  }

  ghost predicate Unsaturated(calls: seq<Call>, l: Limits) {
    forall i :: 0 <= i < |calls| ==> calls[i].now + l.duration <= U64_MAX
  }

  lemma {:induction false} NothingAfter(s: Limiter, l: Limits, calls: seq<Call>, from: nat)
    requires forall i :: 0 <= i < |calls| ==> calls[i].now >= from + l.duration
    ensures AdmittedIn(s, l, calls, from) == 0
    decreases |calls|
  {
    if calls != [] {
      NothingAfter(Charge(s, l, calls[0].source, calls[0].now).limiter, l, calls[1..], from);
    }
  }

  /** The current window opened inside the interval, so it is the last one the interval can see. */
  lemma {:induction false} OneWindow(s: Limiter, l: Limits, calls: seq<Call>, from: nat)
    requires l.Valid() && Forward(calls) && s.global.Some? && s.global.value.attempts <= l.total
    requires from <= s.global.value.started && s.global.value.started + l.duration <= U64_MAX
    ensures AdmittedIn(s, l, calls, from) <= l.total - s.global.value.attempts
    decreases |calls|
  {
    if calls != [] {
      if calls[0].now >= from + l.duration {
        NothingAfter(s, l, calls, from);
      } else {
        OneWindow(Charge(s, l, calls[0].source, calls[0].now).limiter, l, calls[1..], from);
      }
    }
  }

  lemma {:induction false} TwoWindows(s: Limiter, l: Limits, calls: seq<Call>, from: nat)
    requires l.Valid() && Forward(calls) && Unsaturated(calls, l)
    requires s.global.Some? ==> s.global.value.attempts <= l.total
    requires forall i :: 0 <= i < |calls| ==> from <= calls[i].now
    ensures AdmittedIn(s, l, calls, from) <= 2 * l.total - if s.global.Some? then s.global.value.attempts else 0
    decreases |calls|
  {
    if calls != [] {
      var c := Charge(s, l, calls[0].source, calls[0].now);
      if s.global.Some? && !Over(s.global.value, l, calls[0].now) {
        TwoWindows(c.limiter, l, calls[1..], from);
      } else {
        OneWindow(c.limiter, l, calls[1..], from);
      }
    }
  }

  /** Any interval as long as the window admits at most twice the limit. */
  lemma {:induction false} AtMostTwice(s: Limiter, l: Limits, calls: seq<Call>, from: nat)
    requires l.Valid() && Forward(calls) && Unsaturated(calls, l) && Bounded(s, l)
    ensures AdmittedIn(s, l, calls, from) <= 2 * l.total
    decreases |calls|
  {
    if calls != [] {
      if calls[0].now < from {
        ChargeBounded(s, l, calls[0].source, calls[0].now);
        AtMostTwice(Charge(s, l, calls[0].source, calls[0].now).limiter, l, calls[1..], from);
      } else {
        TwoWindows(s, l, calls, from);
      }
    }
  }

  // ---- the same for one source ----

  function AdmittedFrom(s: Limiter, l: Limits, calls: seq<Call>, source: string, from: nat): nat
    decreases |calls|
  {
    if calls == [] then 0
    else
      var c := Charge(s, l, calls[0].source, calls[0].now);
      AdmittedFrom(c.limiter, l, calls[1..], source, from)
      + if c.admitted && calls[0].source == source && from <= calls[0].now < from + l.duration then 1 else 0
  }

  function AttemptsOf(s: Limiter, source: string): nat {
    if source in s.sources then s.sources[source].attempts else 0
  }

  /** No source's window is older than the global one, and none started after the calls to come. */
  ghost predicate Aligned(s: Limiter, calls: seq<Call>) {
    s.global.Some? ==>
      && (forall k :: k in s.sources ==> s.global.value.started <= s.sources[k].started)
      && forall i :: 0 <= i < |calls| ==> s.global.value.started <= calls[i].now
  }

  /** So a source's window is never renewed on its own: the global one is over first, and takes all of them with it. */
  lemma SourceWindowsEndTogether(s: Limiter, l: Limits, calls: seq<Call>, source: string)
    requires l.Valid() && calls != [] && Aligned(s, calls) && s.global.Some? && s.global.value.started + l.duration <= U64_MAX
    requires source in s.sources && Over(s.sources[source], l, calls[0].now)
    ensures Over(s.global.value, l, calls[0].now)
  {
  }

  lemma ChargeAligned(s: Limiter, l: Limits, calls: seq<Call>)
    requires l.Valid() && calls != [] && Forward(calls) && Bounded(s, l) && Aligned(s, calls)
    ensures Aligned(Charge(s, l, calls[0].source, calls[0].now).limiter, calls[1..])
  {
    assert forall i :: 0 <= i < |calls[1..]| ==> calls[1..][i] == calls[i + 1] && calls[0].now <= calls[i + 1].now;
  }

  lemma {:induction false} NothingFromAfter(s: Limiter, l: Limits, calls: seq<Call>, source: string, from: nat)
    requires forall i :: 0 <= i < |calls| ==> calls[i].now >= from + l.duration
    ensures AdmittedFrom(s, l, calls, source, from) == 0
    decreases |calls|
  {
    if calls != [] {
      NothingFromAfter(Charge(s, l, calls[0].source, calls[0].now).limiter, l, calls[1..], source, from);
    }
  }

  /** One charge inside a window: the attempts of the source charged grow by one, those of others not at all. */
  lemma ChargeInWindow(s: Limiter, l: Limits, calls: seq<Call>, source: string)
    requires l.Valid() && calls != [] && Aligned(s, calls) && s.global.Some? && Bounded(s, l)
    requires s.global.value.started + l.duration <= U64_MAX && !Over(s.global.value, l, calls[0].now)
    ensures var c := Charge(s, l, calls[0].source, calls[0].now);
            && c.limiter.global.Some? && c.limiter.global.value.started == s.global.value.started
            && AttemptsOf(c.limiter, source) == AttemptsOf(s, source) + if c.admitted && calls[0].source == source then 1 else 0
  {
    if calls[0].source in s.sources && Over(s.sources[calls[0].source], l, calls[0].now) {
      SourceWindowsEndTogether(s, l, calls, calls[0].source);
    }
  }

  lemma AttemptsBounded(s: Limiter, l: Limits, source: string)
    requires Bounded(s, l)
    ensures AttemptsOf(s, source) <= l.perSource
  {
  }

  lemma {:induction false} OneWindowFrom(s: Limiter, l: Limits, calls: seq<Call>, source: string, from: nat)
    requires l.Valid() && Forward(calls) && Bounded(s, l) && Aligned(s, calls) && s.global.Some?
    requires from <= s.global.value.started && s.global.value.started + l.duration <= U64_MAX
    ensures AdmittedFrom(s, l, calls, source, from) <= l.perSource - AttemptsOf(s, source)
    decreases |calls|
  {
    AttemptsBounded(s, l, source);
    if calls != [] {
      if calls[0].now >= from + l.duration {
        NothingFromAfter(s, l, calls, source, from);
      } else {
        ChargeInWindow(s, l, calls, source);
        ChargeAligned(s, l, calls);
        ChargeBounded(s, l, calls[0].source, calls[0].now);
        OneWindowFrom(Charge(s, l, calls[0].source, calls[0].now).limiter, l, calls[1..], source, from);
      }
    }
  }

  /** The first charge of a window. */
  lemma ChargeOpens(s: Limiter, l: Limits, source: string, now: nat, of: string)
    requires l.Valid() && Bounded(s, l) && (s.global.Some? ==> Over(s.global.value, l, now)) && now + l.duration <= U64_MAX
    ensures var c := Charge(s, l, source, now);
            && c.limiter.global.Some? && c.limiter.global.value.started == now && c.admitted
            && AttemptsOf(c.limiter, of) == if source == of then 1 else 0
  {
  }

  lemma {:induction false} TwoWindowsFrom(s: Limiter, l: Limits, calls: seq<Call>, source: string, from: nat)
    requires l.Valid() && Forward(calls) && Unsaturated(calls, l) && Bounded(s, l) && Aligned(s, calls)
    requires (forall i :: 0 <= i < |calls| ==> from <= calls[i].now) && (s.global.Some? ==> s.global.value.started + l.duration <= U64_MAX)
    ensures AdmittedFrom(s, l, calls, source, from) <= 2 * l.perSource - AttemptsOf(s, source)
    decreases |calls|
  {
    AttemptsBounded(s, l, source);
    if calls != [] {
      var c := Charge(s, l, calls[0].source, calls[0].now);
      ChargeAligned(s, l, calls);
      ChargeBounded(s, l, calls[0].source, calls[0].now);
      if s.global.Some? && !Over(s.global.value, l, calls[0].now) {
        ChargeInWindow(s, l, calls, source);
        TwoWindowsFrom(c.limiter, l, calls[1..], source, from);
      } else {
        ChargeOpens(s, l, calls[0].source, calls[0].now, source);
        OneWindowFrom(c.limiter, l, calls[1..], source, from);
      }
    }
  }

  /** Any interval as long as the window admits at most twice the per-source limit of any one source. */
  lemma {:induction false} AtMostTwiceFrom(s: Limiter, l: Limits, calls: seq<Call>, source: string, from: nat)
    requires l.Valid() && Forward(calls) && Unsaturated(calls, l) && Bounded(s, l) && Aligned(s, calls)
    requires s.global.Some? ==> s.global.value.started + l.duration <= U64_MAX
    ensures AdmittedFrom(s, l, calls, source, from) <= 2 * l.perSource
    decreases |calls|
  {
    if calls != [] {
      if calls[0].now < from {
        ChargeAligned(s, l, calls);
        ChargeBounded(s, l, calls[0].source, calls[0].now);
        StartsNow(s, l, calls[0].source, calls[0].now);
        AtMostTwiceFrom(Charge(s, l, calls[0].source, calls[0].now).limiter, l, calls[1..], source, from);
      } else {
        TwoWindowsFrom(s, l, calls, source, from);
      }
    }
  }

  lemma StartsNow(s: Limiter, l: Limits, source: string, now: nat)
    requires now + l.duration <= U64_MAX && (s.global.Some? ==> s.global.value.started + l.duration <= U64_MAX)
    ensures var g := Charge(s, l, source, now).limiter.global; g.Some? && g.value.started + l.duration <= U64_MAX
  {
  }
}
