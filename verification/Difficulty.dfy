/**
  Work and target conversion, compact target encoding and retargeting.
 */
module Difficulty {
  import opened Common
  import opened U256

  // ---- work <-> target ----

  /** Expected hashes for a target: floor(2^256 / (target + 1)). */
  function Work(target: nat): int {
    Modulus() / (target + 1)
  }

  /** The target that a given amount of work buys: floor(2^256 / work) - 1. */
  function Target(work: nat): int
    requires work >= 1
  {
    Modulus() / work - 1
  }

  method WorkForTarget(target: Word) returns (r: Option<Word>)
    ensures r.None? <==> Val(target) == 0
    ensures r.Some? ==> Val(target) >= 0 && Val(r.value) == Work(Val(target))
  {
    var zero: Word := seq(32, _ => 0);
    var one: Word := seq(32, i => if i == 31 then 1 else 0);
    ValZeros(zero);
    OneIsOne(one);
    BelowIsLess(target, zero);
    ValBound(target);
    if target == zero {
      return None;
    }
    var divisor := CheckedAdd(target, one);
    if divisor.None? {
      QuotientUnique(Modulus(), Val(target) + 1, 1, 0);
      return Some(one);
    }
    r := DivideTwoTo256(divisor.value);
  }

  method TargetForWork(work: Word) returns (r: Option<Word>)
    ensures r.None? <==> Val(work) == 0
    ensures r.Some? ==> Val(work) >= 1 && Val(r.value) == Target(Val(work))
  {
    var zero: Word := seq(32, _ => 0);
    var one: Word := seq(32, i => if i == 31 then 1 else 0);
    ValZeros(zero);
    OneIsOne(one);
    BelowIsLess(work, zero);
    BelowIsLess(work, one);
    ValBound(work);
    if work == zero {
      return None;
    }
    if work == one {
      var greatest: Word := seq(32, _ => 255);
      AllOnes(greatest);
      return Some(greatest);
    }
    var quotient := DivideTwoTo256(work);
    QuotientAtLeast(Modulus(), Val(work), 1);
    r := CheckedSub(quotient.value, one);
  }

  lemma {:induction false} AllOnes(s: seq<Byte>)
    requires forall i :: 0 <= i < |s| ==> s[i] == 255
    ensures Val(s) == Scale(1, |s|) - 1
  {
    if s != [] {
      AllOnes(s[1..]);
      ScaleAdd(255, 1, |s| - 1);
      ScaleCarry(1, |s| - 1);
    }
  }

  lemma QuotientAtLeast(n: int, d: int, k: int)
    requires d > 0
    ensures n / d >= k <==> n >= k * d
  {
    var q := n / d;
    assert n == q * d + n % d;
    if q < k { MultiplesApart(q, k, d); } else if k < q { MultiplesApart(k, q, d); }
  }

  /** `Work` and `Target` are adjoint: more than `w` work exactly when the target is at most `Target(w)`. */
  lemma WorkTargetGalois(t: nat, w: nat)
    requires w >= 1
    ensures Work(t) >= w <==> t <= Target(w)
  {
    QuotientAtLeast(Modulus(), t + 1, w);
    QuotientAtLeast(Modulus(), w, t + 1);
  }

  // ---- compact encoding ----

  /** `v` with its `k` low bytes removed. */
  function Drop(v: nat, k: nat): nat
  {
    if k == 0 then v else Drop(v / 256, k - 1)
  }

  /** Number of significant bytes. */
  function Size(v: nat): nat
  {
    if v == 0 then 0 else 1 + Size(v / 256)
  }

  /** The mantissa read from the three leading bytes, before the sign bit is kept clear. */
  function Leading(v: nat): int
  {
    if Size(v) <= 3 then Scale(v, 3 - Size(v)) else Drop(v, Size(v) - 3)
  }

  /** `DecodedTarget::to_compact` as a function of the number. */
  function Compact(v: nat): int
  {
    if v == 0 then 0
    else if Leading(v) >= 0x80_0000 then (Size(v) + 1) * 0x100_0000 + Leading(v) / 256
    else Size(v) * 0x100_0000 + Leading(v)
  }

  /** The magnitude a compact value denotes, before reduction to 256 bits. */
  function Magnitude(bits: nat): int
  {
    var exponent, mantissa := bits / 0x100_0000, bits % 0x80_0000;
    if exponent <= 3 then Drop(mantissa, 3 - exponent) else Scale(mantissa, exponent - 3)
  }

  predicate Negative(bits: nat) {
    (bits / 0x80_0000) % 2 == 1
  }

  /** How many low bytes `Compact` forgets. */
  function Forgotten(v: nat): nat
  {
    if Size(v) < 3 then 0
    else if Leading(v) >= 0x80_0000 then Size(v) - 2
    else Size(v) - 3
  }

  /** `v` with its forgotten bytes cleared. */
  function Truncated(v: nat): int {
    Scale(Drop(v, Forgotten(v)), Forgotten(v))
  }

  lemma {:induction false} DropBounds(v: nat, k: nat)
    ensures Scale(Drop(v, k), k) <= v < Scale(Drop(v, k) + 1, k)
  {
    if k > 0 {
      DropBounds(v / 256, k - 1);
      ScaleAdd(Drop(v, k), 1, k - 1);
    }
  }

  lemma {:induction false} DropOfScale(x: nat, k: nat)
    ensures Scale(x, k) >= 0 && Drop(Scale(x, k), k) == x
  {
    if k > 0 { DropOfScale(x, k - 1); }
  }

  lemma {:induction false} DropOrder(v: nat, w: nat, k: nat)
    requires v <= w
    ensures Drop(v, k) <= Drop(w, k)
  {
    if k > 0 { DropOrder(v / 256, w / 256, k - 1); }
  }

  lemma {:induction false} DropDrop(v: nat, j: nat, k: nat)
    ensures Drop(Drop(v, j), k) == Drop(v, j + k)
  {
    if j > 0 { DropDrop(v / 256, j - 1, k); }
  }

  lemma {:induction false} DropSize(v: nat, k: nat)
    requires k <= Size(v)
    ensures Size(Drop(v, k)) == Size(v) - k
  {
    if k > 0 { DropSize(v / 256, k - 1); }
  }

  lemma {:induction false} SizeScale(v: nat, k: nat)
    requires v > 0
    ensures Scale(v, k) > 0 && Size(Scale(v, k)) == Size(v) + k
  {
    if k > 0 { SizeScale(v, k - 1); }
  }

  lemma {:induction false} SizeBound(v: nat, n: nat)
    ensures v < Scale(1, n) <==> Size(v) <= n
  {
    ScaleOrder(0, 1, n);
    if n > 0 && v > 0 { SizeBound(v / 256, n - 1); }
  }

  lemma {:induction false} ScaleTimes(x: int, n: nat)
    ensures Scale(0x8000 * x, n) == 0x8000 * Scale(x, n)
  {
    if n > 0 { ScaleTimes(x, n - 1); }
  }

  lemma SizeThree(v: nat)
    ensures Size(v) == 3 <==> 0x1_0000 <= v < 0x100_0000
    ensures Size(v) == 2 <==> 0x100 <= v < 0x1_0000
    ensures Size(v) == 1 <==> 1 <= v < 0x100
    ensures Size(v) <= 3 <==> v < 0x100_0000
  {
    assert Size(v) == 0 <==> v == 0;
    var a := v / 256;
    var b := a / 256;
    var c := b / 256;
    assert v > 0 ==> Size(v) == 1 + Size(a);
    assert a > 0 ==> Size(a) == 1 + Size(b);
    assert b > 0 ==> Size(b) == 1 + Size(c);
    assert c > 0 ==> Size(c) >= 1;
  }

  /** The kept mantissa fits 23 bits, and has at least 15 significant bits when anything is forgotten. */
  lemma KeptRange(v: nat)
    requires v > 0
    ensures Drop(v, Forgotten(v)) < 0x80_0000
    ensures Forgotten(v) > 0 ==> Drop(v, Forgotten(v)) >= 0x8000
  {
    SizeThree(v);
    if Size(v) >= 3 {
      DropSize(v, Size(v) - 3);
      SizeThree(Drop(v, Size(v) - 3));
      DropDrop(v, Size(v) - 3, 1);
      assert Drop(Leading(v), 1) == Leading(v) / 256;
      assert Leading(v) == Drop(v, Size(v) - 3);
    }
  }

  /** Packing an exponent over a 23-bit mantissa loses neither. */
  lemma Unpack(exponent: nat, mantissa: nat)
    requires mantissa < 0x80_0000
    ensures var bits := exponent * 0x100_0000 + mantissa;
            !Negative(bits) && bits / 0x100_0000 == exponent && bits % 0x80_0000 == mantissa
  {
    var bits := exponent * 0x100_0000 + mantissa;
    QuotientUnique(bits, 0x100_0000, exponent, mantissa);
    QuotientUnique(bits, 0x80_0000, 2 * exponent, mantissa);
  }

  lemma CompactSmall(v: nat)
    requires 0 < Size(v) < 3
    ensures 0 <= Compact(v) && !Negative(Compact(v)) && Magnitude(Compact(v)) == v
  {
    var n := Size(v);
    SizeThree(v);
    DropOfScale(v, 3 - n);
    DropOfScale(v, 2 - n);
    assert Scale(v, 1) == 256 * v && Scale(v, 2) == 256 * Scale(v, 1);
    assert Leading(v) == 256 * Scale(v, 2 - n);
    if Leading(v) >= 0x80_0000 {
      Unpack(n + 1, Scale(v, 2 - n));
    } else {
      Unpack(n, Leading(v));
    }
  }

  lemma CompactLarge(v: nat)
    requires Size(v) >= 3
    ensures 0 <= Compact(v) && !Negative(Compact(v)) && Magnitude(Compact(v)) == Truncated(v)
  {
    var n := Size(v);
    KeptRange(v);
    LeadingIsDrop(v);
    if Leading(v) >= 0x80_0000 {
      Unpack(n + 1, Drop(v, n - 2));
    } else {
      Unpack(n, Drop(v, n - 3));
    }
  }

  lemma LeadingIsDrop(v: nat)
    requires Size(v) >= 3
    ensures Leading(v) == Drop(v, Size(v) - 3) && Leading(v) / 256 == Drop(v, Size(v) - 2)
  {
    DropDrop(v, Size(v) - 3, 1);
    assert Drop(Leading(v), 1) == Drop(Leading(v) / 256, 0) == Leading(v) / 256;
  }

  /** What a compact code says: never negative, and exactly the truncated number. */
  lemma CompactDecodes(v: nat)
    requires v > 0
    ensures 0 <= Compact(v) && !Negative(Compact(v)) && Magnitude(Compact(v)) == Truncated(v)
  {
    if Size(v) < 3 { CompactSmall(v); } else { CompactLarge(v); }
  }

  /** Truncation never raises a number and loses less than one part in 2^15 of it. */
  lemma TruncationLoss(v: nat)
    requires v > 0
    ensures 0 < Truncated(v) <= v
    ensures (v - Truncated(v)) * 0x8000 < v
  {
    var k := Forgotten(v);
    var kept := Drop(v, k);
    KeptRange(v);
    DropBounds(v, k);
    if k > 0 {
      ScaleAdd(kept, 1, k);
      ScaleTimes(1, k);
      ScaleOrder(kept, 0x8000, k);
      ScaleOrder(0, kept, k);
    }
  }

  /** Numbers that forget fewer bytes lie wholly below the truncations of those that forget more. */
  lemma FewerForgotten(v: nat, w: nat)
    requires v > 0 && w > 0 && Forgotten(v) < Forgotten(w)
    ensures v < Truncated(w)
  {
    var j, k := Forgotten(v), Forgotten(w);
    KeptRange(v);
    KeptRange(w);
    DropBounds(v, j);
    ScaleOrder(0x80_0000, Drop(v, j) + 1, j);
    ScaleOrder(Drop(w, k), 0x8000, k);
    ScaleCarry(0x8000, k - 1);
    ScaleWider(0x80_0000, j, k - 1);
  }

  lemma {:induction false} ScaleWider(x: nat, m: nat, n: nat)
    requires m <= n
    ensures 0 <= Scale(x, m) <= Scale(x, n)
  {
    if m < n { ScaleWider(x, m, n - 1); } else if m > 0 { ScaleWider(x, m - 1, n - 1); }
  }

  lemma TruncationMonotone(v: nat, w: nat)
    requires 0 < v <= w
    ensures Truncated(v) <= Truncated(w)
  {
    TruncationLoss(v);
    if Forgotten(v) < Forgotten(w) {
      FewerForgotten(v, w);
    } else if Forgotten(w) < Forgotten(v) {
      FewerForgotten(w, v);
    } else {
      DropOrder(v, w, Forgotten(v));
      ScaleOrder(Drop(w, Forgotten(v)), Drop(v, Forgotten(v)), Forgotten(v));
    }
  }

  /** A truncated number is encoded by the very code it came from. */
  lemma TruncationIdempotent(v: nat)
    requires v > 0
    ensures Truncated(v) > 0 && Compact(Truncated(v)) == Compact(v)
  {
    var k := Forgotten(v);
    var kept := Drop(v, k);
    TruncationLoss(v);
    KeptRange(v);
    if k > 0 {
      var t := Truncated(v);
      DropSize(v, k);
      SizeScale(kept, k);
      DropOfScale(kept, k);
      if k == Size(v) - 2 {
        DropDrop(v, k - 1, 1);
        ScaleCarry(kept, k - 1);
        DropOfScale(256 * kept, k - 1);
        assert Drop(Leading(v), 1) == Leading(v) / 256;
      }
    }
  }

  // ---- the byte-array forms ----

  datatype DecodedTarget = DecodedTarget(bytes: Word, negative: bool, overflow: bool)
  {
    predicate IsValid() {
      !negative && !overflow && exists i :: 0 <= i < 32 && bytes[i] != 0
    }
  }

  /** The first `k` mantissa bytes at their weights. */
  ghost function Placed(m: seq<Byte>, exponent: nat, k: nat): int
    requires |m| == 3 && k <= 3 && exponent >= 3
  {
    if k == 0 then 0 else Placed(m, exponent, k - 1) + Scale(m[k - 1], exponent - k)
  }

  lemma PlacedIsScale(m: seq<Byte>, exponent: nat)
    requires |m| == 3 && exponent >= 3
    ensures Placed(m, exponent, 3) == Scale(m[0] as int * 0x1_0000 + m[1] as int * 0x100 + m[2] as int, exponent - 3)
  {
    var a: int, b: int, c: int := m[0], m[1], m[2];
    assert Placed(m, exponent, 1) == Scale(a, exponent - 1);
    assert Placed(m, exponent, 2) == Placed(m, exponent, 1) + Scale(b, exponent - 2);
    ScaleCarry(a, exponent - 2);
    ScaleCarry(256 * a, exponent - 3);
    ScaleCarry(b, exponent - 3);
    ScaleAdd(a * 0x1_0000, b * 0x100, exponent - 3);
    ScaleAdd(a * 0x1_0000 + b * 0x100, c, exponent - 3);
  }

  lemma HighByte(b: Byte, n: nat)
    requires b > 0 && n >= 32
    ensures Scale(b, n) >= Modulus()
  {
    ScaleOrder(b, 1, n);
    ScaleWider(1, 32, n);
  }

  /** Decoding writes exactly the magnitude, or reports that it does not fit. */
  method FromCompact(bits: nat) returns (t: DecodedTarget)
    requires bits < 0x1_0000_0000
    ensures t.negative == Negative(bits)
    ensures t.overflow <==> Magnitude(bits) >= Modulus()
    ensures !t.overflow ==> Val(t.bytes) == Magnitude(bits)
  {
    var exponent, mantissa: int := bits / 0x100_0000, bits % 0x80_0000;
    var bytes := new Byte[32](_ => 0);
    ValZeros(bytes[..]);
    var overflow := false;
    if exponent <= 3 {
      DropSmaller(mantissa, 3 - exponent);
      LowThree(bytes, Drop(mantissa, 3 - exponent));
    } else {
      overflow := PlaceMantissa(bytes, mantissa, exponent);
    }
    ValBound(bytes[..]);
    t := DecodedTarget(bytes[..], (bits / 0x80_0000) % 2 == 1, overflow);
  }

  lemma DropSmaller(v: nat, n: nat)
    ensures Drop(v, n) <= v
  {
    DropBounds(v, n);
    ScaleWider(Drop(v, n), 0, n);
  }

  method PlaceMantissa(bytes: array<Byte>, mantissa: nat, exponent: nat) returns (overflow: bool)
    requires bytes.Length == 32 && mantissa < 0x80_0000 && exponent >= 4
    requires forall i :: 0 <= i < 32 ==> bytes[i] == 0
    modifies bytes
    ensures overflow <==> Scale(mantissa, exponent - 3) >= Modulus()
    ensures !overflow ==> Val(bytes[..]) == Scale(mantissa, exponent - 3)
  {
    var high: Byte, middle: Byte, low: Byte := mantissa / 0x100 / 0x100, (mantissa / 0x100) % 0x100, mantissa % 0x100;
    PlacedIsScale([high, middle, low], exponent);
    overflow := Place(bytes, [high, middle, low], exponent);
  }

  method LowThree(bytes: array<Byte>, value: nat)
    requires bytes.Length == 32 && value < 0x100_0000
    requires forall i :: 0 <= i < 32 ==> bytes[i] == 0
    modifies bytes
    ensures Val(bytes[..]) == value
  {
    ValZeros(bytes[..]);
    var high, middle, low := value / 0x100 / 0x100, (value / 0x100) % 0x100, value % 0x100;
    Poke(bytes, 29, high);
    Poke(bytes, 30, middle);
    Poke(bytes, 31, low);
    assert Scale(high, 2) == 256 * Scale(high, 1) == 0x1_0000 * high;
  }

  /** Writing over a zero byte adds at its weight. */
  method Poke(bytes: array<Byte>, i: nat, b: Byte)
    requires bytes.Length == 32 && i < 32 && bytes[i] == 0
    modifies bytes
    ensures Val(bytes[..]) == old(Val(bytes[..])) + Scale(b, 31 - i)
    ensures forall j :: 0 <= j < 32 && j != i ==> bytes[j] == old(bytes[j])
  {
    ghost var was := bytes[..];
    ValUpdate(was, i, b);
    bytes[i] := b;
    assert bytes[..] == was[i := b];
  }

  method Place(bytes: array<Byte>, m: seq<Byte>, exponent: nat) returns (overflow: bool)
    requires bytes.Length == 32 && |m| == 3 && exponent >= 4
    requires forall i :: 0 <= i < 32 ==> bytes[i] == 0
    modifies bytes
    ensures overflow <==> Placed(m, exponent, 3) >= Modulus()
    ensures !overflow ==> Val(bytes[..]) == Placed(m, exponent, 3)
  {
    overflow := false;
    ValZeros(bytes[..]);
    for offset := 0 to 3
      invariant overflow ==> Placed(m, exponent, offset) >= Modulus()
      invariant !overflow ==> Val(bytes[..]) == Placed(m, exponent, offset)
      invariant Placed(m, exponent, offset) >= 0
      invariant forall i :: 0 <= i < 32 && i >= 32 - exponent + offset ==> bytes[i] == 0
    {
      var position := 32 - exponent + offset;
      ScaleOrder(m[offset], 0, exponent - 1 - offset);
      if position < 0 {
        if m[offset] != 0 {
          overflow := true;
          HighByte(m[offset], exponent - 1 - offset);
        }
      } else {
        Poke(bytes, position, m[offset]);
      }
    }
    ValBound(bytes[..]);
  }

  lemma {:induction false} ValInit(s: seq<Byte>)
    requires |s| > 0
    ensures Val(s) == 256 * Val(s[..|s| - 1]) + s[|s| - 1] as int
  {
    if |s| > 1 {
      ValInit(s[1..]);
      assert s[1..][..|s| - 2] == s[..|s| - 1][1..];
    }
  }

  lemma {:induction false} DropVal(s: seq<Byte>, k: nat)
    requires k <= |s|
    ensures Val(s) >= 0 && Drop(Val(s), k) == Val(s[..|s| - k])
  {
    ValBound(s);
    if k == 0 {
      assert s[..|s|] == s;
    } else {
      ValInit(s);
      ValBound(s[..|s| - 1]);
      DropVal(s[..|s| - 1], k - 1);
      assert s[..|s| - 1][..|s| - k] == s[..|s| - k];
    }
  }

  lemma {:induction false} LeadingZeros(s: seq<Byte>, first: nat)
    requires first <= |s| && forall i :: 0 <= i < first ==> s[i] == 0
    ensures Val(s) == Val(s[first..])
  {
    if first == 0 {
      assert s[0..] == s;
    } else {
      LeadingZeros(s[1..], first - 1);
      ScaleOrder(0, 0, |s| - 1);
      assert s[1..][first - 1..] == s[first..];
    }
  }

  lemma SizeOfBytes(s: seq<Byte>)
    requires |s| > 0 && s[0] != 0
    ensures Val(s) > 0 && Size(Val(s)) == |s|
  {
    ValBound(s);
    ValBound(s[1..]);
    ScaleOrder(s[0], 1, |s| - 1);
    ScaleOrder(0, 1, |s| - 1);
    SizeBound(Val(s), |s|);
    SizeBound(Val(s), |s| - 1);
  }

  /** Encoding reads the leading bytes of the number. */
  method ToCompact(bytes: Word) returns (bits: int)
    ensures Val(bytes) >= 0 && bits == Compact(Val(bytes))
  {
    var first := 0;
    while first < 32 && bytes[first] == 0
      invariant 0 <= first <= 32 && forall i :: 0 <= i < first ==> bytes[i] == 0
    {
      first := first + 1;
    }
    ValBound(bytes);
    LeadingZeros(bytes, first);
    if first == 32 {
      return 0;
    }
    var tail := bytes[first..];
    SizeOfBytes(tail);
    var exponent := 32 - first;
    var mantissa := Mantissa(tail);
    if mantissa >= 0x80_0000 {
      mantissa, exponent := mantissa / 256, exponent + 1;
    }
    bits := exponent * 0x100_0000 + mantissa;
  }

  method Mantissa(tail: seq<Byte>) returns (mantissa: int)
    requires |tail| > 0 && tail[0] != 0
    ensures Val(tail) >= 0 && mantissa == Leading(Val(tail))
  {
    SizeOfBytes(tail);
    if |tail| <= 3 {
      mantissa := 0;
      for i := 0 to |tail|
        invariant mantissa == Val(tail[..i])
      {
        ValInit(tail[..i + 1]);
        assert tail[..i + 1][..i] == tail[..i];
        mantissa := mantissa * 256 + tail[i] as int;
      }
      assert tail[..|tail|] == tail;
      mantissa := Scale(mantissa, 3 - |tail|);
    } else {
      DropVal(tail, |tail| - 3);
      ThreeBytes(tail[..3]);
      mantissa := tail[0] as int * 0x1_0000 + tail[1] as int * 0x100 + tail[2] as int;
    }
  }

  lemma ThreeBytes(s: seq<Byte>)
    requires |s| == 3
    ensures Val(s) == s[0] as int * 0x1_0000 + s[1] as int * 0x100 + s[2] as int
  {
    ValInit(s);
    ValInit(s[..2]);
    ValInit(s[..2][..1]);
    assert s[..2][..1][..0] == [];
  }
}
