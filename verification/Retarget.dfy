/**
  The retarget rule for the four Handshake networks.
 */
module Retarget {
  import opened Common
  import opened U256
  import opened Difficulty

  datatype Error = InvalidDifficulty | MissingDifficultyPoint
  datatype Verdict = Ok(bits: int) | Err(error: Error)

  datatype PowParameters = PowParameters(
    limit: Word, bits: nat, targetWindow: nat, targetSpacing: nat,
    minimumActualTimespan: nat, maximumActualTimespan: nat,
    targetReset: bool, noRetargeting: bool)

  /** A block's height, time, bits and accumulated chain work. */
  datatype Point = Point(height: nat, time: nat, bits: nat, chainwork: nat)

  datatype Network = Mainnet | Testnet | Regtest | Simnet

  /** 32 bytes that are zero except for `m` starting at `at`. */
  function LimitBytes(at: nat, m: seq<Byte>): Word
    requires at + |m| <= 32
  {
    seq(32, i requires 0 <= i < 32 => if at <= i < at + |m| then m[i - at] else 0)
  }

  function Parameters(n: Network): PowParameters {
    match n
    case Mainnet => PowParameters(LimitBytes(5, [0xff, 0xff]), 0x1c00_ffff, 144, 600, 21_600, 345_600, false, false)
    case Testnet => PowParameters(LimitBytes(4, [0xff, 0xff]), 0x1d00_ffff, 144, 600, 21_600, 345_600, true, false)
    case Regtest => PowParameters(LimitBytes(0, [0x7f, 0xff, 0xff]), 0x207f_ffff, 144, 600, 21_600, 345_600, true, true)
    case Simnet => PowParameters(LimitBytes(0, [0x7f, 0xff, 0xff]), 0x207f_ffff, 144, 600, 21_600, 345_600, false, false)
  }

  function Clamp(x: int, low: int, high: int): int
    requires low <= high
  {
    if x < low then low else if x > high then high else x
  }

  function ActualTimespan(p: PowParameters, first: Point, last: Point): int
    requires p.minimumActualTimespan <= p.maximumActualTimespan
  {
    Clamp(if last.time >= first.time then last.time - first.time else 0,
          p.minimumActualTimespan, p.maximumActualTimespan)
  }

  /** `retarget_bits` on numbers. */
  function RetargetSpec(p: PowParameters, first: Point, last: Point): Verdict
    requires 0 < p.minimumActualTimespan <= p.maximumActualTimespan
  {
    if last.height <= first.height || last.chainwork < first.chainwork then Verdict.Err(InvalidDifficulty)
    else
      var scaled := (last.chainwork - first.chainwork) * p.targetSpacing;
      if scaled >= Modulus() then Verdict.Err(InvalidDifficulty)
      else
        Verdict.Ok(BitsForWork(p, scaled / ActualTimespan(p, first, last)))
  }

  /** The compact target bought by `work`, never easier than the limit. */
  function BitsForWork(p: PowParameters, work: int): int {
    if work <= 0 || Target(work) > Val(p.limit) then p.bits
    else Compact(if Target(work) >= 0 then Target(work) else 0)
  }

  /** The big-endian image of a number below 256^n. */
  function ToBytes(v: nat, n: nat): (s: seq<Byte>)
    ensures |s| == n
  {
    if n == 0 then [] else ToBytes(v / 256, n - 1) + [v % 256]
  }

  lemma {:induction false} ToBytesVal(v: nat, n: nat)
    requires v < Scale(1, n)
    ensures Val(ToBytes(v, n)) == v
  {
    if n > 0 {
      ToBytesVal(v / 256, n - 1);
      ValInit(ToBytes(v, n));
      assert ToBytes(v, n)[..n - 1] == ToBytes(v / 256, n - 1);
    }
  }

  lemma {:induction false} ProductGrows(a: nat, d: nat)
    requires d >= 1
    ensures a * d >= a
  {
    if d > 1 {
      ProductGrows(a, d - 1);
      assert a * d == a * (d - 1) + a;
    }
  }

  lemma QuotientSmaller(n: nat, d: nat)
    requires d > 0
    ensures 0 <= n / d <= n
  {
    QuotientAtLeast(n, d, 0);
    QuotientAtLeast(n, d, n + 1);
    ProductGrows(n + 1, d);
  }

  method WorkToBits(p: PowParameters, work: nat) returns (bits: int)
    requires work < Modulus()
    ensures bits == BitsForWork(p, work)
  {
    if work == 0 {
      return p.bits;
    }
    ToBytesVal(work, 32);
    var target := TargetForWork(ToBytes(work, 32));
    ValBound(target.value);
    BelowIsLess(p.limit, target.value);
    if Below(p.limit, target.value) {
      return p.bits;
    }
    bits := ToCompact(target.value);
  }

  method RetargetBits(p: PowParameters, first: Point, last: Point) returns (r: Verdict)
    requires 0 < p.minimumActualTimespan <= p.maximumActualTimespan
    ensures r == RetargetSpec(p, first, last)
  {
    if last.height <= first.height || last.chainwork < first.chainwork {
      return Verdict.Err(InvalidDifficulty);
    }
    var delta: nat := last.chainwork - first.chainwork;
    var scaled := delta * p.targetSpacing;
    if scaled >= Modulus() {
      return Verdict.Err(InvalidDifficulty);
    }
    var span := ActualTimespan(p, first, last);
    QuotientSmaller(scaled, span);
    var bits := WorkToBits(p, scaled / span);
    r := Verdict.Ok(bits);
  }

  function ExpectedNextBitsSpec(p: PowParameters, nextTime: nat, previous: Point,
                                first: Option<Point>, last: Option<Point>): Verdict
    requires 0 < p.minimumActualTimespan <= p.maximumActualTimespan
  {
    if p.noRetargeting then Verdict.Ok(p.bits)
    else if p.targetReset && nextTime > SaturatingAdd(previous.time, p.targetSpacing * 2) then Verdict.Ok(p.bits)
    else if previous.height < p.targetWindow + 2 then
      if previous.bits != p.bits then Verdict.Err(InvalidDifficulty) else Verdict.Ok(p.bits)
    else if first.None? || last.None? then Verdict.Err(MissingDifficultyPoint)
    else RetargetSpec(p, first.value, last.value)
  }

  // ---- the decoded target ----

  /** A usable proof-of-work target no easier than the limit. */
  ghost predicate Usable(p: PowParameters, bits: int) {
    0 <= bits && !Negative(bits) && 0 < Magnitude(bits) <= Val(p.limit)
  }

  lemma {:induction false} TrailingZeros(m: seq<Byte>, s: seq<Byte>)
    requires |m| <= |s| && s[..|m|] == m && forall i :: |m| <= i < |s| ==> s[i] == 0
    ensures Val(s) == Scale(Val(m), |s| - |m|)
  {
    if |s| == |m| {
      assert s[..|m|] == s;
    } else {
      ValInit(s);
      TrailingZeros(m, s[..|s| - 1]);
    }
  }

  lemma LimitValue(at: nat, m: seq<Byte>)
    requires at + |m| <= 32
    ensures Val(LimitBytes(at, m)) == Scale(Val(m), 32 - at - |m|)
  {
    var s: seq<Byte> := LimitBytes(at, m);
    LeadingZeros(s, at);
    assert s[at..][..|m|] == m;
    TrailingZeros(m, s[at..]);
  }

  /** Parameters whose compact limit decodes to the limit itself, with sensible time bounds. */
  ghost predicate Consistent(p: PowParameters) {
    && Magnitude(p.bits) == Val(p.limit) && !Negative(p.bits) && 0 < Val(p.limit)
    && 2 <= p.minimumActualTimespan <= p.maximumActualTimespan
  }

  lemma ConsistentLimit(at: nat, m: seq<Byte>, bits: nat)
    requires at + |m| <= 32 && Val(m) > 0 && !Negative(bits)
    requires bits / 0x100_0000 >= 3 && bits % 0x80_0000 == Val(m) && bits / 0x100_0000 - 3 == 32 - at - |m|
    ensures Magnitude(bits) == Val(LimitBytes(at, m)) && 0 < Val(LimitBytes(at, m))
  {
    LimitValue(at, m);
    ScaleOrder(0, Val(m), 32 - at - |m|);
  }

  /** All four networks are consistent. */
  lemma NetworksConsistent(n: Network)
    ensures Consistent(Parameters(n))
  {
    var ones: seq<Byte>, wide: seq<Byte> := [0xff, 0xff], [0x7f, 0xff, 0xff];
    assert Val(ones) == 0xffff by {
      ValInit(ones);
      ValInit(ones[..1]);
      assert ones[..1][..0] == [];
    }
    ThreeBytes(wide);
    match n {
      case Mainnet => ConsistentLimit(5, ones, 0x1c00_ffff);
      case Testnet => ConsistentLimit(4, ones, 0x1d00_ffff);
      case Regtest => ConsistentLimit(0, wide, 0x207f_ffff);
      case Simnet => ConsistentLimit(0, wide, 0x207f_ffff);
    }
  }

  /** The work a retarget computes never reaches the range where the target would vanish. */
  lemma RetargetTargetPositive(scaled: nat, span: nat)
    requires scaled < Modulus() && span >= 2 && scaled / span > 0
    ensures Target(scaled / span) > 0
  {
    var work := scaled / span;
    QuotientAtLeast(scaled, span, work);
    QuotientAtLeast(Modulus(), work, span);
  }

  lemma BitsForWorkUsable(p: PowParameters, work: int)
    requires Consistent(p) && (work > 0 ==> Target(work) > 0)
    ensures Usable(p, BitsForWork(p, work))
  {
    if work > 0 {
      CompactDecodes(Target(work));
      TruncationLoss(Target(work));
    }
  }

  /** Every successful retarget yields a valid nonzero target no greater than the limit. */
  lemma RetargetSound(p: PowParameters, first: Point, last: Point)
    requires Consistent(p)
    ensures var r := RetargetSpec(p, first, last); r.Ok? ==> Usable(p, r.bits)
  {
    var r := RetargetSpec(p, first, last);
    if r.Ok? {
      var delta: nat, span := last.chainwork - first.chainwork, ActualTimespan(p, first, last);
      var scaled := delta * p.targetSpacing;
      if scaled / span > 0 { RetargetTargetPositive(scaled, span); }
      BitsForWorkUsable(p, scaled / span);
    }
  }

  /** The same for the rule that decides whether to retarget at all. */
  lemma ExpectedNextBitsSound(p: PowParameters, nextTime: nat, previous: Point, first: Option<Point>, last: Option<Point>)
    requires Consistent(p)
    ensures var r := ExpectedNextBitsSpec(p, nextTime, previous, first, last); r.Ok? ==> Usable(p, r.bits)
  {
    if first.Some? && last.Some? { RetargetSound(p, first.value, last.value); }
  }

  lemma QuotientOrder(n: nat, n': nat, d: nat, d': nat)
    requires n' <= n && 0 < d <= d'
    ensures 0 <= n' / d' <= n / d
  {
    var k := n' / d';
    QuotientAtLeast(n', d', k);
    QuotientAtLeast(n', d', 0);
    assert k * d <= k * d';
    QuotientAtLeast(n, d, k);
  }

  lemma BitsForWorkAntitone(p: PowParameters, work: int, work': int)
    requires Consistent(p) && 0 <= work' <= work && (work > 0 ==> Target(work) > 0)
    ensures var b, b' := BitsForWork(p, work), BitsForWork(p, work');
            b >= 0 && b' >= 0 && Magnitude(b) <= Magnitude(b')
  {
    BitsForWorkUsable(p, work);
    if work' > 0 {
      ScaleOrder(0, 1, 32);
      QuotientOrder(Modulus(), Modulus(), work', work);
      CompactDecodes(Target(work'));
      CompactDecodes(Target(work));
      TruncationMonotone(Target(work), Target(work'));
    }
  }

  lemma ProductOrder(a: nat, b: nat, c: nat)
    requires a <= b
    ensures 0 <= a * c <= b * c
  {
  }

  lemma ScaledWorkOrder(p: PowParameters, scaled: nat, scaled': nat, span: nat, span': nat)
    requires Consistent(p) && scaled' <= scaled < Modulus() && 2 <= span <= span'
    ensures var b, b' := BitsForWork(p, scaled / span), BitsForWork(p, scaled' / span');
            b >= 0 && b' >= 0 && Magnitude(b) <= Magnitude(b')
  {
    QuotientOrder(scaled, scaled', span, span');
    if scaled / span > 0 { RetargetTargetPositive(scaled, span); }
    BitsForWorkAntitone(p, scaled / span, scaled' / span');
  }

  ghost function Elapsed(first: Point, last: Point): nat {
    if last.time >= first.time then last.time - first.time else 0
  }

  /** More work in no more time never makes the next target easier. */
  lemma RetargetMonotone(p: PowParameters, first: Point, last: Point, first': Point, last': Point)
    requires Consistent(p)
    requires RetargetSpec(p, first, last).Ok? && RetargetSpec(p, first', last').Ok?
    requires Elapsed(first, last) <= Elapsed(first', last')
    requires last'.chainwork - first'.chainwork <= last.chainwork - first.chainwork
    ensures var r, r' := RetargetSpec(p, first, last), RetargetSpec(p, first', last');
            r.bits >= 0 && r'.bits >= 0 && Magnitude(r.bits) <= Magnitude(r'.bits)
  {
    var delta: nat, delta': nat := last.chainwork - first.chainwork, last'.chainwork - first'.chainwork;
    var span, span' := ActualTimespan(p, first, last), ActualTimespan(p, first', last');
    var scaled, scaled' := delta * p.targetSpacing, delta' * p.targetSpacing;
    ProductOrder(delta', delta, p.targetSpacing);
    ScaledWorkOrder(p, scaled, scaled', span, span');
  }

  // ---- what the rule is for ----

  /** The target that blocks of work `w` each call for: truncated to compact form, and never above the limit. */
  ghost function TargetFor(p: PowParameters, w: nat): int {
    if w == 0 || Target(w) > Val(p.limit) then Val(p.limit) else Truncated(if Target(w) > 0 then Target(w) else 0)
  }

  lemma BitsDecode(p: PowParameters, w: nat)
    requires Consistent(p) && (w > 0 ==> Target(w) > 0)
    ensures var b := BitsForWork(p, w); 0 <= b && !Negative(b) && Magnitude(b) == TargetFor(p, w)
  {
    if w > 0 {
      CompactDecodes(Target(w));
    }
  }

  lemma QuotientIs(n: nat, d: nat, q: nat)
    requires d > 0 && q * d <= n < (q + 1) * d
    ensures n / d == q
  {
    QuotientAtLeast(n, d, q);
    QuotientAtLeast(n, d, q + 1);
  }

  /**
    The law of the rule: if blocks of work `w` each would have taken the elapsed time, one every `targetSpacing`, then
    the next target is the one for `w`. Elapsed time counts no less than the minimum and no more than the maximum.
   */
  lemma RetargetExact(p: PowParameters, first: Point, last: Point, elapsed: nat, w: nat)
    requires Consistent(p) && first.height < last.height && first.chainwork <= last.chainwork
    requires || (first.time <= last.time && p.minimumActualTimespan <= last.time - first.time <= p.maximumActualTimespan && elapsed == last.time - first.time)
             || (last.time < first.time + p.minimumActualTimespan && elapsed == p.minimumActualTimespan)
             || (first.time + p.maximumActualTimespan < last.time && elapsed == p.maximumActualTimespan)
    requires w * elapsed <= (last.chainwork - first.chainwork) * p.targetSpacing < (w + 1) * elapsed
    requires (last.chainwork - first.chainwork) * p.targetSpacing < Modulus()
    ensures var r := RetargetSpec(p, first, last);
            r.Ok? && 0 <= r.bits && !Negative(r.bits) && Magnitude(r.bits) == TargetFor(p, w)
  {
    var scaled := (last.chainwork - first.chainwork) * p.targetSpacing;
    assert ActualTimespan(p, first, last) == elapsed;
    QuotientIs(scaled, elapsed, w);
    if w > 0 { RetargetTargetPositive(scaled, elapsed); }
    BitsDecode(p, w);
  }

  /** Exactly these three things make a retarget fail. */
  lemma RetargetFailsIff(p: PowParameters, first: Point, last: Point)
    requires Consistent(p)
    ensures RetargetSpec(p, first, last).Err? <==>
            || last.height <= first.height || last.chainwork < first.chainwork
            || (last.chainwork - first.chainwork) * p.targetSpacing >= Modulus()
  {
  }

  lemma Rescaled(n: nat, k: nat, w: nat, spacing: nat)
    requires n > 0 && k > 0 && spacing > 0
    ensures (w / k) * (k * n * spacing) <= n * w * spacing < (w / k + 1) * (k * n * spacing)
  {
    var q := w / k;
    var u := n * spacing;
    assert q * k <= w < (q + 1) * k;
    assert u > 0;
    calc {
      q * (k * n * spacing);
      (q * k) * u;
    <= { ProductOrder(q * k, w, u); }
      w * u;
      n * w * spacing;
    }
    calc {
      n * w * spacing;
      w * u;
    < { StrictProduct(w, (q + 1) * k, u); }
      ((q + 1) * k) * u;
      (q + 1) * (k * n * spacing);
    }
  }

  lemma StrictProduct(a: nat, b: nat, u: nat)
    requires a < b && u > 0
    ensures a * u < b * u
  {
    ProductOrder(a + 1, b, u);
    assert (a + 1) * u == a * u + u;
  }

  /**
    On schedule difficulty stays put: `n` blocks of work `w` each, one every `targetSpacing`, call for the target of `w`.
    And `n` such blocks in `k` times the time call for the target of `w / k`.
   */
  lemma OnScheduleStaysPut(p: PowParameters, first: Point, last: Point, n: nat, w: nat, k: nat)
    requires Consistent(p) && first.height < last.height && n > 0 && k > 0 && p.targetSpacing > 0
    requires last.chainwork == first.chainwork + n * w && last.time == first.time + k * n * p.targetSpacing
    requires p.minimumActualTimespan <= k * n * p.targetSpacing <= p.maximumActualTimespan && n * w * p.targetSpacing < Modulus()
    ensures var r := RetargetSpec(p, first, last);
            r.Ok? && 0 <= r.bits && !Negative(r.bits) && Magnitude(r.bits) == TargetFor(p, w / k)
  {
    hide RetargetSpec, TargetFor, Magnitude, Negative, Modulus, Consistent;
    Rescaled(n, k, w, p.targetSpacing);
    Paced(p, first, last, n * w, k * n * p.targetSpacing, w / k);
  }

  /** The same, with the products named. */
  lemma Paced(p: PowParameters, first: Point, last: Point, delta: nat, elapsed: nat, w: nat)
    requires Consistent(p) && first.height < last.height
    requires last.chainwork == first.chainwork + delta && last.time == first.time + elapsed
    requires p.minimumActualTimespan <= elapsed <= p.maximumActualTimespan && delta * p.targetSpacing < Modulus()
    requires w * elapsed <= delta * p.targetSpacing < (w + 1) * elapsed
    ensures var r := RetargetSpec(p, first, last);
            r.Ok? && 0 <= r.bits && !Negative(r.bits) && Magnitude(r.bits) == TargetFor(p, w)
  {
    hide RetargetSpec, TargetFor, Magnitude, Negative, Modulus;
    assert last.chainwork - first.chainwork == delta;
    RetargetExact(p, first, last, elapsed, w);
  }

  /** The networks: mainnet and simnet retarget from height 146 on, testnet also resets when a block is 20 minutes late, regtest never moves. */
  lemma NetworkRules(n: Network, nextTime: nat, previous: Point, first: Point, last: Point)
    ensures var r := ExpectedNextBitsSpec(Parameters(n), nextTime, previous, Some(first), Some(last));
            && (n.Regtest? ==> r == Verdict.Ok(0x207f_ffff))
            && (n.Testnet? && nextTime > previous.time + 1200 && previous.time + 1200 <= U64_MAX ==> r == Verdict.Ok(0x1d00_ffff))
            && (n.Testnet? && nextTime <= previous.time + 1200 && nextTime <= U64_MAX && previous.height >= 146 ==> r == RetargetSpec(Parameters(n), first, last))
            && ((n.Mainnet? || n.Simnet?) && previous.height >= 146 ==> r == RetargetSpec(Parameters(n), first, last))
            && ((n.Mainnet? || n.Simnet?) && previous.height < 146 ==>
                  r == if previous.bits == Parameters(n).bits then Verdict.Ok(Parameters(n).bits) else Verdict.Err(InvalidDifficulty))
  {
    hide RetargetSpec, Consistent;
    NetworksConsistent(n);
  }
}
