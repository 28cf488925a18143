/**
  Byte-level 256-bit arithmetic of the header-consensus crate.

  A number is a big-endian array of 32 bytes. Every loop below is proved against the
  number `Val` that the bytes denote, ending in the exact quotient of the 257-step long division.
 */
module U256 {
  import opened Common

  type Word = s: seq<Byte> | |s| == 32 witness seq(32, _ => 0)

  /** `x` moved up by `n` bytes. */
  function Scale(x: int, n: nat): int
  {
    if n == 0 then x else 256 * Scale(x, n - 1)
  }

  /** `x` moved up by `n` bits. */
  function Shift(x: int, n: nat): int
  {
    if n == 0 then x else 2 * Shift(x, n - 1)
  }

  /** The number denoted by a big-endian byte string. */
  function Val(s: seq<Byte>): int
  {
    if s == [] then 0 else Scale(s[0], |s| - 1) + Val(s[1..])
  }

  /** 2^256, one more than the greatest word. */
  function Modulus(): int {
    Scale(1, 32)
  }

  // ---- scaling is linear and ordered ----

  lemma {:induction false} ScaleAdd(x: int, y: int, n: nat)
    ensures Scale(x + y, n) == Scale(x, n) + Scale(y, n)
  {
    if n > 0 { ScaleAdd(x, y, n - 1); }
  }

  lemma {:induction false} ScaleCarry(x: int, n: nat)
    ensures Scale(256 * x, n) == Scale(x, n + 1)
  {
    if n > 0 { ScaleCarry(x, n - 1); }
  }

  lemma {:induction false} ScaleOrder(x: int, y: int, n: nat)
    ensures x < y <==> Scale(x, n) < Scale(y, n)
    ensures Scale(0, n) == 0
  {
    if n > 0 { ScaleOrder(x, y, n - 1); }
  }

  lemma {:induction false} ShiftAdd(x: int, y: int, n: nat)
    ensures Shift(x + y, n) == Shift(x, n) + Shift(y, n)
  {
    if n > 0 { ShiftAdd(x, y, n - 1); }
  }

  lemma {:induction false} ShiftDouble(x: int, n: nat)
    ensures Shift(2 * x, n) == Shift(x, n + 1)
  {
    if n > 0 { ShiftDouble(x, n - 1); }
  }

  lemma {:induction false} ShiftShift(x: int, m: nat, n: nat)
    ensures Shift(Shift(x, m), n) == Shift(x, m + n)
  {
    if n > 0 { ShiftShift(x, m, n - 1); }
  }

  lemma ShiftByte(x: int)
    ensures Shift(x, 8) == 256 * x
  {
    assert Shift(x, 2) == 2 * Shift(x, 1) == 4 * x;
    assert Shift(x, 4) == 2 * Shift(x, 3) == 4 * Shift(x, 2);
    assert Shift(x, 6) == 2 * Shift(x, 5) == 4 * Shift(x, 4);
    assert Shift(x, 8) == 2 * Shift(x, 7) == 4 * Shift(x, 6);
  }

  lemma {:induction false} ScaleIsShift(x: int, n: nat)
    ensures Scale(x, n) == Shift(x, 8 * n)
  {
    if n > 0 {
      ScaleIsShift(x, n - 1);
      ShiftShift(x, 8 * (n - 1), 8);
      ShiftByte(Scale(x, n - 1));
    }
  }

  // ---- facts about the value of a byte string ----

  lemma ValFrom(s: seq<Byte>, i: nat)
    requires i < |s|
    ensures Val(s[i..]) == Scale(s[i], |s| - 1 - i) + Val(s[i + 1..])
  {
    assert s[i..][1..] == s[i + 1..];
  }

  lemma {:induction false} ValBound(s: seq<Byte>)
    ensures 0 <= Val(s) < Scale(1, |s|)
  {
    if s != [] {
      ValBound(s[1..]);
      var head: int := s[0];
      ScaleOrder(head, 0, |s| - 1);
      ScaleAdd(head, 1, |s| - 1);
      ScaleOrder(256, head + 1, |s| - 1);
      ScaleCarry(1, |s| - 1);
    }
  }

  lemma {:induction false} ValZeros(s: seq<Byte>)
    requires forall i :: 0 <= i < |s| ==> s[i] == 0
    ensures Val(s) == 0
  {
    if s != [] {
      ValZeros(s[1..]);
      ScaleOrder(0, 0, |s| - 1);
    }
  }

  /** Changing one byte changes the number at that byte's weight. */
  lemma {:induction false} ValUpdate(s: seq<Byte>, i: nat, b: Byte)
    requires i < |s|
    ensures Val(s[i := b]) == Val(s) + Scale(b as int - s[i] as int, |s| - 1 - i)
  {
    if i == 0 {
      assert s[0 := b][1..] == s[1..];
      ScaleAdd(s[0], b as int - s[0] as int, |s| - 1);
    } else {
      assert s[i := b][1..] == s[1..][i - 1 := b];
      ValUpdate(s[1..], i - 1, b);
    }
  }

  // ---- comparison: the derived order on byte arrays is the order of the numbers ----

  /** Lexicographic order, which is what `<` on `[u8; 32]` means. */
  predicate Below(a: seq<Byte>, b: seq<Byte>)
    requires |a| == |b|
  {
    a != [] && (a[0] < b[0] || (a[0] == b[0] && Below(a[1..], b[1..])))
  }

  lemma HeadDecides(a: seq<Byte>, b: seq<Byte>)
    requires |a| == |b| > 0 && a[0] < b[0]
    ensures Val(a) < Val(b)
  {
    ValBound(a[1..]);
    ValBound(b[1..]);
    var head: int := a[0];
    ScaleAdd(head, 1, |a| - 1);
    ScaleOrder(b[0], head + 1, |a| - 1);
  }

  lemma {:induction false} BelowIsLess(a: seq<Byte>, b: seq<Byte>)
    requires |a| == |b|
    ensures Below(a, b) <==> Val(a) < Val(b)
    ensures Val(a) == Val(b) <==> a == b
  {
    if a != [] {
      if a[0] < b[0] {
        HeadDecides(a, b);
      } else if b[0] < a[0] {
        HeadDecides(b, a);
      } else {
        BelowIsLess(a[1..], b[1..]);
        assert a == [a[0]] + a[1..] && b == [b[0]] + b[1..];
      }
    }
  }

  // ---- byte loops ----

  lemma CarryStep(s: nat, n: nat)
    ensures Scale(s % 256, n) + Scale(s / 256, n + 1) == Scale(s, n)
  {
    ScaleCarry(s / 256, n);
    ScaleAdd(s % 256, 256 * (s / 256), n);
  }

  lemma AddStep(x: int, y: int, c: int, n: nat)
    requires x + y + c >= 0
    ensures Scale((x + y + c) % 256, n) + Scale((x + y + c) / 256, n + 1) == Scale(x, n) + Scale(y, n) + Scale(c, n)
  {
    CarryStep(x + y + c, n);
    ScaleAdd(x, y, n);
    ScaleAdd(x + y, c, n);
  }

  /** Schoolbook addition; absent exactly when the sum needs a 257th bit. */
  method CheckedAdd(a: Word, b: Word) returns (r: Option<Word>)
    ensures r.Some? <==> Val(a) + Val(b) < Modulus()
    ensures r.Some? ==> Val(r.value) == Val(a) + Val(b)
  {
    hide Scale;
    ScaleOrder(0, 0, 0);
    var output := new Byte[32](_ => 0);
    var carry: int, index := 0, 32;
    while index > 0
      invariant 0 <= index <= 32 && 0 <= carry <= 1
      invariant Val(output[index..]) + Scale(carry, 32 - index) == Val(a[index..]) + Val(b[index..])
    {
      ghost var low := output[index..];
      index := index - 1;
      var x: int, y: int := a[index], b[index];
      AddStep(x, y, carry, 31 - index);
      ValFrom(a, index);
      ValFrom(b, index);
      output[index] := (x + y + carry) % 256;
      carry := (x + y + carry) / 256;
      assert output[index..][1..] == low;
    }
    assert a[0..] == a && b[0..] == b && output[0..] == output[..];
    Uncarry(output[..], Val(a) + Val(b), carry);
    r := if carry == 0 then Some(output[..]) else None;
  }

  lemma Uncarry(r: seq<Byte>, sum: int, carry: int)
    requires 0 <= carry <= 1 && Val(r) + Scale(carry, |r|) == sum
    ensures carry == 0 <==> sum < Scale(1, |r|)
    ensures Val(r) + (if carry == 1 then Scale(1, |r|) else 0) == sum
  {
    ValBound(r);
    ScaleOrder(0, 0, |r|);
  }

  /** Subtraction modulo 2^256 with a running borrow. */
  method WrappingSub(a: Word, b: Word) returns (r: Word)
    ensures Val(r) == if Val(a) >= Val(b) then Val(a) - Val(b) else Val(a) - Val(b) + Modulus()
  {
    hide Scale;
    ScaleOrder(0, 0, 0);
    var output := new Byte[32](_ => 0);
    var borrow: int, index := 0, 32;
    while index > 0
      invariant 0 <= index <= 32 && 0 <= borrow <= 1
      invariant Val(output[index..]) + Val(b[index..]) == Val(a[index..]) + Scale(borrow, 32 - index)
    {
      ghost var low := output[index..];
      index := index - 1;
      ghost var was := borrow;
      var difference: int := a[index] as int - b[index] as int - borrow;
      borrow := if difference < 0 then 1 else 0;
      output[index] := difference + 256 * borrow;
      assert output[index..][1..] == low;
      BorrowStep(a[index], b[index], was, output[index], borrow, 31 - index);
      ValFrom(a, index);
      ValFrom(b, index);
    }
    assert a[0..] == a && b[0..] == b && output[0..] == output[..];
    ValBound(output[..]);
    ValBound(a);
    ValBound(b);
    ScaleOrder(0, 0, 32);
    Unborrow(Val(output[..]), Val(a), Val(b), borrow, Modulus(), Scale(borrow, 32));
    r := output[..];
  }

  lemma Unborrow(r: int, a: int, b: int, borrow: int, m: int, scaled: int)
    requires 0 <= r < m && 0 <= a < m && 0 <= b < m && 0 <= borrow <= 1
    requires scaled == (if borrow == 1 then m else 0) && r + b == a + scaled
    ensures r == if a >= b then a - b else a - b + m
  {
  }

  lemma BorrowStep(x: int, y: int, c: int, d: int, c': int, n: nat)
    requires d + y + c == x + 256 * c'
    ensures Scale(d, n) + Scale(y, n) + Scale(c, n) == Scale(x, n) + Scale(c', n + 1)
  {
    ScaleCarry(c', n);
    ScaleAdd(x, 256 * c', n);
    ScaleAdd(d, y, n);
    ScaleAdd(d + y, c, n);
  }

  method CheckedSub(a: Word, b: Word) returns (r: Option<Word>)
    ensures r.Some? <==> Val(a) >= Val(b)
    ensures r.Some? ==> Val(r.value) == Val(a) - Val(b)
  {
    BelowIsLess(a, b);
    if Below(a, b) {
      r := None;
    } else {
      var d := WrappingSub(a, b);
      r := Some(d);
    }
  }

  /** In-place doubling; the returned bit is the one shifted out. */
  method ShiftLeftOne(w: array<Byte>) returns (high: bool)
    requires w.Length == 32
    modifies w
    ensures Val(w[..]) + (if high then Modulus() else 0) == 2 * old(Val(w[..]))
  {
    high := w[0] >= 128;
    ghost var was := w[..];
    var carry: int, index := 0, 32;
    while index > 0
      invariant 0 <= index <= 32 && 0 <= carry <= 1
      invariant forall j :: 0 <= j < index ==> w[j] == was[j]
      invariant Val(w[index..]) + Scale(carry, 32 - index) == 2 * Val(was[index..])
      invariant index == 0 ==> (carry == 1 <==> high)
    {
      ghost var low := w[index..];
      index := index - 1;
      var x: int := w[index];
      AddStep(x, x, carry, 31 - index);
      ValFrom(was, index);
      w[index] := (2 * x + carry) % 256;
      carry := (2 * x + carry) / 256;
      assert w[index..][1..] == low;
    }
    assert w[0..] == w[..] && was[0..] == was;
    Uncarry(w[..], 2 * Val(was), carry);
  }

  // ---- long division ----

  /** Bit `k` of `b`. */
  function Bit(b: nat, k: nat): nat {
    if k == 0 then b % 2 else Bit(b / 2, k - 1)
  }

  /** The low `k` bits of `b` are clear. */
  predicate LowClear(b: nat, k: nat) {
    k == 0 || (b % 2 == 0 && LowClear(b / 2, k - 1))
  }

  /** Every bit of `q` below position `n` is clear. */
  ghost predicate ClearBelow(q: seq<Byte>, n: nat)
    requires |q| == 32 && n <= 256
  {
    && (forall j :: 0 <= j < 32 && 31 - j < n / 8 ==> q[j] == 0)
    && (n % 8 != 0 ==> LowClear(q[31 - n / 8], n % 8))
  }

  lemma {:induction false} FreeBitFits(b: nat, k: nat, n: nat)
    requires k < n && b < Shift(1, n) && Bit(b, k) == 0
    ensures b + Shift(1, k) < Shift(1, n)
  {
    if k > 0 {
      assert Shift(1, n) == 2 * Shift(1, n - 1) && b / 2 < Shift(1, n - 1);
      FreeBitFits(b / 2, k - 1, n - 1);
    }
  }

  lemma {:induction false} FreeBit(b: nat, k: nat)
    requires LowClear(b, k + 1)
    ensures Bit(b, k) == 0 && LowClear(b, k) && b + Shift(1, k) >= 0 && LowClear(b + Shift(1, k), k)
  {
    if k > 0 {
      FreeBit(b / 2, k - 1);
      assert (b + Shift(1, k)) / 2 == b / 2 + Shift(1, k - 1);
    }
  }

  lemma {:induction false} ZeroClear(k: nat)
    ensures LowClear(0, k)
  {
    if k > 0 { ZeroClear(k - 1); }
  }

  lemma FreeBitOfByte(q: seq<Byte>, bit: nat)
    requires |q| == 32 && bit < 256 && ClearBelow(q, bit + 1)
    ensures LowClear(q[31 - bit / 8], bit % 8 + 1)
    ensures forall j :: 31 - bit / 8 < j < 32 ==> q[j] == 0
  {
    ZeroClear(8);
  }

  lemma ShiftOneByte(k: nat)
    requires k <= 8
    ensures Shift(1, 8) == 256 && Shift(1, k) >= 1
  {
    ShiftByte(1);
    ShiftPositive(k);
  }

  lemma {:induction false} ShiftPositive(k: nat)
    ensures Shift(1, k) >= 1
  {
    if k > 0 { ShiftPositive(k - 1); }
  }

  /** The byte-wise `|=` of one bit: adds exactly that bit when it was clear. */
  method SetBit(q: array<Byte>, bit: nat)
    requires q.Length == 32 && bit < 256
    modifies q
    ensures old(ClearBelow(q[..], bit + 1)) ==>
              Val(q[..]) == old(Val(q[..])) + Shift(1, bit) && ClearBelow(q[..], bit)
  {
    var i, k := 31 - bit / 8, bit % 8;
    ghost var was := q[..];
    ShiftOneByte(k);
    if Bit(q[i], k) == 0 {
      FreeBitFits(q[i], k, 8);
      var raised: Byte := q[i] as int + Shift(1, k);
      q[i] := raised;
      assert q[..] == was[i := raised];
      SetFreeBit(was, bit, raised);
    } else if ClearBelow(was, bit + 1) {
      FreeBitOfByte(was, bit);
      FreeBit(was[i], k);
    }
  }

  lemma SetFreeBit(q: seq<Byte>, bit: nat, raised: Byte)
    requires |q| == 32 && bit < 256 && raised as int == q[31 - bit / 8] as int + Shift(1, bit % 8)
    ensures var r := q[31 - bit / 8 := raised];
            && Val(r) == Val(q) + Shift(1, bit)
            && (ClearBelow(q, bit + 1) ==> ClearBelow(r, bit))
  {
    var i := 31 - bit / 8;
    ValUpdate(q, i, raised);
    ScaleIsShift(Shift(1, bit % 8), bit / 8);
    ShiftShift(1, bit % 8, 8 * (bit / 8));
    if ClearBelow(q, bit + 1) {
      FreeBitOfByte(q, bit);
      FreeBit(q[i], bit % 8);
    }
  }

  /** `c` divided by `d` is `q` remainder `r`. */
  ghost predicate Quotient(c: int, d: int, q: int, r: int) {
    c == q * d + r && 0 <= r < d
  }

  lemma DivisionStep(c: int, d: int, q: int, r: int)
    requires Quotient(c, d, q, r)
    ensures 2 * r >= d ==> Quotient(2 * c, d, 2 * q + 1, 2 * r - d)
    ensures 2 * r < d ==> Quotient(2 * c, d, 2 * q, 2 * r)
  {
    assert (2 * q) * d == 2 * (q * d);
    assert (2 * q + 1) * d == 2 * (q * d) + d;
  }

  lemma MultiplesApart(a: int, b: int, d: int)
    requires a < b && 0 < d
    ensures a * d + d <= b * d
  {
    assert (a + 1) * d <= b * d;
  }

  lemma QuotientUnique(n: int, d: int, q: int, r: int)
    requires Quotient(n, d, q, r)
    ensures q == n / d
  {
    var q', r' := n / d, n % d;
    assert n == q' * d + r' && 0 <= r' < d;
    if q < q' {
      MultiplesApart(q, q', d);
    } else if q' < q {
      MultiplesApart(q', q, d);
    }
  }

  /** The dividend bits consumed once `bit` bits remain: the leading one followed by zeros. */
  ghost function Consumed(bit: nat): int
    requires bit <= 257
  {
    if bit == 257 then 0 else Shift(1, 256 - bit)
  }

  /** One conditional subtraction; `high` is the 257th bit of the running remainder. */
  method Reduce(remainder: array<Byte>, divisor: Word, high: bool) returns (taken: bool)
    requires remainder.Length == 32
    requires Val(remainder[..]) + (if high then Modulus() else 0) < 2 * Val(divisor)
    modifies remainder
    ensures taken <==> old(Val(remainder[..])) + (if high then Modulus() else 0) >= Val(divisor)
    ensures Val(remainder[..]) ==
            old(Val(remainder[..])) + (if high then Modulus() else 0) - (if taken then Val(divisor) else 0)
  {
    BelowIsLess(remainder[..], divisor);
    ValBound(divisor);
    ValBound(remainder[..]);
    taken := high || !Below(remainder[..], divisor);
    if taken {
      var difference := WrappingSub(remainder[..], divisor);
      forall i | 0 <= i < 32 { remainder[i] := difference[i]; }
      assert remainder[..] == difference;
    }
  }

  /** What the division has established once `bit` dividend bits remain: schoolbook division of a prefix. */
  ghost predicate Dividing(remainder: seq<Byte>, quotient: seq<Byte>, d: int, q: int, bit: nat)
    requires |remainder| == |quotient| == 32
  {
    && bit <= 257
    && Val(quotient) == Shift(q, bit)
    && ClearBelow(quotient, if bit == 257 then 256 else bit)
    && (bit == 257 ==> q == 0 && Val(remainder) == 0)
    && Quotient(Consumed(bit), d, q, Val(remainder))
  }

  lemma ClearWeaken(q: seq<Byte>, bit: nat)
    requires |q| == 32 && bit < 256 && ClearBelow(q, bit + 1)
    ensures ClearBelow(q, bit)
  {
    FreeBitOfByte(q, bit);
    FreeBit(q[31 - bit / 8], bit % 8);
  }

  lemma NextBit(r: int, quo: int, r': int, quo': int, d: int, q: int, bit: nat, taken: bool)
    requires bit <= 256 && d > 1
    requires quo == Shift(q, bit + 1) && Quotient(Consumed(bit + 1), d, q, r) && (bit == 256 ==> q == 0 && r == 0)
    requires taken <==> 2 * r + (if bit == 256 then 1 else 0) >= d
    requires r' == 2 * r + (if bit == 256 then 1 else 0) - (if taken then d else 0)
    requires quo' == quo + (if taken && bit < 256 then Shift(1, bit) else 0)
    ensures var q' := if taken then 2 * q + 1 else 2 * q;
            quo' == Shift(q', bit) && Quotient(Consumed(bit), d, q', r')
  {
    ShiftDouble(q, bit);
    if bit < 256 {
      ShiftAdd(2 * q, 1, bit);
      DivisionStep(Consumed(bit + 1), d, q, r);
    }
  }

  method DivideBit(remainder: array<Byte>, quotient: array<Byte>, divisor: Word, ghost q: int, bit: nat)
    returns (ghost q': int)
    requires remainder.Length == quotient.Length == 32 && remainder != quotient
    requires bit <= 256 && Val(divisor) > 1
    requires Dividing(remainder[..], quotient[..], Val(divisor), q, bit + 1)
    modifies remainder, quotient
    ensures Dividing(remainder[..], quotient[..], Val(divisor), q', bit)
  {
    ghost var r, quo := remainder[..], quotient[..];
    var high := ShiftLeftOne(remainder);
    if bit == 256 {
      ValBound(remainder[..]);
      LeadingOne(remainder);
    }
    var taken := Reduce(remainder, divisor, high);
    if bit < 256 {
      if taken {
        SetBit(quotient, bit);
      } else {
        ClearWeaken(quo, bit);
      }
    }
    NextBit(Val(r), Val(quo), Val(remainder[..]), Val(quotient[..]), Val(divisor), q, bit, taken);
    q' := if taken then 2 * q + 1 else 2 * q;
  }

  /** `remainder.0[31] |= 1` on a zero remainder. */
  method LeadingOne(remainder: array<Byte>)
    requires remainder.Length == 32 && Val(remainder[..]) == 0
    modifies remainder
    ensures Val(remainder[..]) == 1
  {
    ghost var was := remainder[..];
    var zeros: Word := seq(32, _ => 0);
    ValZeros(zeros);
    BelowIsLess(was, zeros);
    remainder[31] := remainder[31] as int + 1;
    OneIsOne(remainder[..]);
  }

  method DivideTwoTo256(divisor: Word) returns (r: Option<Word>)
    ensures r.None? <==> Val(divisor) <= 1
    ensures r.Some? ==> Val(r.value) == Modulus() / Val(divisor)
  {
    var one: Word := seq(32, i => if i == 31 then 1 else 0);
    OneIsOne(one);
    BelowIsLess(one, divisor);
    if !Below(one, divisor) {
      return None;
    }
    var remainder := new Byte[32](_ => 0);
    var quotient := new Byte[32](_ => 0);
    ValZeros(remainder[..]);
    ValZeros(quotient[..]);
    ghost var q := 0;
    var bit := 257;
    ShiftZero(bit);
    while bit > 0
      invariant 0 <= bit <= 257
      invariant Dividing(remainder[..], quotient[..], Val(divisor), q, bit)
    {
      bit := bit - 1;
      q := DivideBit(remainder, quotient, divisor, q, bit);
    }
    ScaleIsShift(1, 32);
    QuotientUnique(Modulus(), Val(divisor), q, Val(remainder[..]));
    r := Some(quotient[..]);
  }

  lemma {:induction false} ShiftZero(n: nat)
    ensures Shift(0, n) == 0
  {
    if n > 0 { ShiftZero(n - 1); }
  }

  lemma OneIsOne(one: Word)
    requires forall i :: 0 <= i < 32 ==> one[i] == if i == 31 then 1 else 0
    ensures Val(one) == 1
  {
    var zeros: seq<Byte> := seq(32, _ => 0);
    ValZeros(zeros);
    ValUpdate(zeros, 31, 1);
    assert one == zeros[31 := 1];
  }
}
