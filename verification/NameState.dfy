/**
  The HSD name-tree value: two length-prefixed byte strings, two heights, a ten-bit bitmap of optional
  fields, and the optional fields themselves.
 */
module NameStates {
  import opened Common
  import opened Encoding

  const MAX_NAME_SIZE := 63
  const MAX_RESOURCE_SIZE := 512
  const MAX_NAME_STATE_SIZE := 668
  const MAX_SAFE_INTEGER := 0x1f_ffff_ffff_ffff

  /** SHA3-256 of a valid name, absent for an invalid one; the hash itself is a parameter of the model. */
  type NameHasher = seq<Byte> -> Option<seq<Byte>>

  type Hash = s: seq<Byte> | |s| == 32 witness seq(32, _ => 0)
  type U32 = x: int | 0 <= x <= U32_MAX
  type U64 = x: int | 0 <= x <= U64_MAX

  datatype Outpoint = Outpoint(transactionHash: Hash, index: U32)
  {
    predicate IsNull() {
      index == U32_MAX && transactionHash == ZERO_HASH
    }
  }

  const ZERO_HASH: Hash := [
    0, 0, 0, 0, 0, 0, 0, 0, 0, 0, 0, 0, 0, 0, 0, 0,
    0, 0, 0, 0, 0, 0, 0, 0, 0, 0, 0, 0, 0, 0, 0, 0]

  const NULL_OUTPOINT: Outpoint := Outpoint(ZERO_HASH, U32_MAX)

  datatype NameState = NameState(
    nameHash: Hash, name: seq<Byte>, height: U32, renewal: U32, owner: Outpoint, value: U64, highest: U64,
    resourceData: seq<Byte>, transfer: U32, revoked: U32, claimed: U32, renewals: U32,
    registered: bool, expired: bool, weak: bool)
  {
    predicate IsNull() {
      && height == 0 && renewal == 0 && owner.IsNull() && value == 0 && highest == 0 && resourceData == []
      && transfer == 0 && revoked == 0 && claimed == 0 && renewals == 0 && !registered && !expired && !weak
    }

    predicate KeyBound(hash: NameHasher) {
      IsNull() || hash(name) == Some(nameHash)
    }

    /** What `encode` accepts. */
    predicate Encodable(hash: NameHasher) {
      && |name| <= MAX_NAME_SIZE && |resourceData| <= MAX_RESOURCE_SIZE
      && value <= MAX_SAFE_INTEGER && highest <= MAX_SAFE_INTEGER && KeyBound(hash)
    }

    /** Which optional fields are present, lowest bit first. */
    function Flags(): seq<bool> {
      [!owner.IsNull(), value != 0, highest != 0, transfer != 0, revoked != 0, claimed != 0, renewals != 0,
       registered, expired, weak]
    }
  }

  // ---- the bitmap ----

  /** The number whose bit `i` is `flags[i]`. */
  function Pack(flags: seq<bool>): nat {
    if flags == [] then 0 else (if flags[0] then 1 else 0) + 2 * Pack(flags[1..])
  }

  function Unpack(field: nat, n: nat): (flags: seq<bool>)
    ensures |flags| == n
  {
    if n == 0 then [] else [field % 2 == 1] + Unpack(field / 2, n - 1)
  }

  lemma {:induction false} UnpackPack(flags: seq<bool>)
    ensures Unpack(Pack(flags), |flags|) == flags
  {
    if flags != [] {
      UnpackPack(flags[1..]);
      assert flags == [flags[0]] + flags[1..];
    }
  }

  lemma PackTen(flags: seq<bool>)
    requires |flags| == 10
    ensures Pack(flags) < 1024
  {
    PackBound(flags);
  }

  function Doubles(n: nat): nat {
    if n == 0 then 1 else 2 * Doubles(n - 1)
  }

  lemma {:induction false} PackBound(flags: seq<bool>)
    ensures Pack(flags) < Doubles(|flags|)
  {
    if flags != [] { PackBound(flags[1..]); }
  }

  // ---- what is written ----

  function PutOwner(s: NameState): (b: seq<Byte>)
    ensures |b| <= 37
  {
    if s.owner.IsNull() then [] else s.owner.transactionHash + PutCompact(s.owner.index)
  }

  function PutOptionalCompact(v: nat): (b: seq<Byte>)
    ensures |b| <= 9 && (v <= U32_MAX ==> |b| <= 5)
  {
    if v == 0 then [] else PutCompact(v)
  }

  function PutOptionalHeight(v: nat): (b: seq<Byte>)
    ensures |b| <= 4
  {
    if v == 0 then [] else PutLe(v, 4)
  }

  function PutStrings(s: NameState): seq<Byte> {
    PutLe(|s.name|, 1) + s.name + PutLe(|s.resourceData|, 2) + s.resourceData
  }

  function PutFixed(s: NameState): seq<Byte> {
    PutLe(s.height, 4) + PutLe(s.renewal, 4) + PutLe(Pack(s.Flags()), 2)
  }

  function PutMoney(s: NameState): seq<Byte> {
    PutOwner(s) + PutOptionalCompact(s.value) + PutOptionalCompact(s.highest)
  }

  function PutTimes(s: NameState): seq<Byte> {
    PutOptionalHeight(s.transfer) + PutOptionalHeight(s.revoked) + PutOptionalHeight(s.claimed)
    + PutOptionalCompact(s.renewals)
  }

  /** The bytes of HSD's `NameState.write`. */
  function PutState(s: NameState): seq<Byte> {
    PutStrings(s) + PutFixed(s) + PutMoney(s) + PutTimes(s)
  }

  // ---- what is read ----

  datatype Strings = Strings(name: seq<Byte>, resourceData: seq<Byte>)
  datatype Fixed = Fixed(height: U32, renewal: U32, field: nat)
  datatype Money = Money(owner: Outpoint, value: U64, highest: U64)
  datatype Times = Times(transfer: U32, revoked: U32, claimed: U32, renewals: U32)

  function Bounded(p: Parsed<nat>, maximum: nat): (q: Parsed<nat>)
    ensures q.Parsed? ==> q.value <= maximum
  {
    if p.Parsed? && p.value > maximum then Failed else p
  }

  function ParseStrings(s: seq<Byte>): (p: Parsed<Strings>)
    ensures p.Parsed? ==> |p.value.name| <= MAX_NAME_SIZE && |p.value.resourceData| <= MAX_RESOURCE_SIZE
  {
    var (nameLength, s) :- Bounded(ReadLe(s, 1), MAX_NAME_SIZE);
    var (name, s) :- Take(s, nameLength);
    var (resourceLength, s) :- Bounded(ReadLe(s, 2), MAX_RESOURCE_SIZE);
    var (resourceData, s) :- Take(s, resourceLength);
    Parsed(Strings(name, resourceData), s)
  }

  function ParseFixed(s: seq<Byte>): Parsed<Fixed> {
    var (height, s) :- Bounded(ReadLe(s, 4), U32_MAX);
    var (renewal, s) :- Bounded(ReadLe(s, 4), U32_MAX);
    var (field, s) :- Bounded(ReadLe(s, 2), 1023);
    Parsed(Fixed(height, renewal, field), s)
  }

  function ParseOwner(present: bool, s: seq<Byte>): Parsed<Outpoint> {
    if !present then Parsed(NULL_OUTPOINT, s)
    else
      var (hash, s) :- Take(s, 32);
      var (index, s) :- Bounded(ReadCompact(s), U32_MAX);
      Parsed(Outpoint(hash, index), s)
  }

  function ParseCompact(present: bool, maximum: nat, s: seq<Byte>): (p: Parsed<nat>)
    ensures p.Parsed? ==> p.value <= maximum
  {
    if present then Bounded(ReadCompact(s), maximum) else Parsed(0, s)
  }

  function ParseHeight(present: bool, s: seq<Byte>): (p: Parsed<nat>)
    ensures p.Parsed? ==> p.value <= U32_MAX
  {
    if present then Bounded(ReadLe(s, 4), U32_MAX) else Parsed(0, s)
  }

  function ParseMoney(owned: bool, valued: bool, bid: bool, s: seq<Byte>): (p: Parsed<Money>)
    ensures p.Parsed? ==> p.value.value <= MAX_SAFE_INTEGER && p.value.highest <= MAX_SAFE_INTEGER
  {
    var (owner, s) :- ParseOwner(owned, s);
    var (value, s) :- ParseCompact(valued, MAX_SAFE_INTEGER, s);
    var (highest, s) :- ParseCompact(bid, MAX_SAFE_INTEGER, s);
    Parsed(Money(owner, value, highest), s)
  }

  function ParseTimes(moving: bool, gone: bool, claim: bool, renewed: bool, s: seq<Byte>): Parsed<Times>
  {
    var (transfer, s) :- ParseHeight(moving, s);
    var (revoked, s) :- ParseHeight(gone, s);
    var (claimed, s) :- ParseHeight(claim, s);
    var (renewals, s) :- ParseCompact(renewed, U32_MAX, s);
    Parsed(Times(transfer, revoked, claimed, renewals), s)
  }

  datatype Error = TooLarge | Malformed | UnsafeInteger | KeyMismatch | NonCanonical

  function Assemble(key: Hash, a: Strings, b: Fixed, flags: seq<bool>, c: Money, d: Times): NameState
    requires |flags| == 10
  {
    NameState(key, a.name, b.height, b.renewal, c.owner, c.value, c.highest, a.resourceData,
              d.transfer, d.revoked, d.claimed, d.renewals, flags[7], flags[8], flags[9])
  }

  function ParseOptional(key: Hash, a: Strings, b: Fixed, f: seq<bool>, s: seq<Byte>): (p: Parsed<NameState>)
    requires |f| == 10
    ensures p.Parsed? ==>
              && p.value.nameHash == key && p.value.name == a.name && p.value.resourceData == a.resourceData
              && p.value.value <= MAX_SAFE_INTEGER && p.value.highest <= MAX_SAFE_INTEGER
  {
    var (c, s) :- ParseMoney(f[0], f[1], f[2], s);
    var (d, s) :- ParseTimes(f[3], f[4], f[5], f[6], s);
    Parsed(Assemble(key, a, b, f, c, d), s)
  }

  /** Everything the decoder reads, with whatever it leaves unread. */
  function ParseState(key: Hash, s: seq<Byte>): (p: Parsed<NameState>)
    ensures p.Parsed? ==>
              && p.value.nameHash == key && |p.value.name| <= MAX_NAME_SIZE && |p.value.resourceData| <= MAX_RESOURCE_SIZE
              && p.value.value <= MAX_SAFE_INTEGER && p.value.highest <= MAX_SAFE_INTEGER
  {
    var (a, s) :- ParseStrings(s);
    var (b, s) :- ParseFixed(s);
    ParseOptional(key, a, b, Unpack(b.field, 10), s)
  }

  /** What `decode` returns: parse, consume everything, bind the key, and demand the canonical form. */
  function DecodeSpec(key: Hash, hash: NameHasher, input: seq<Byte>): Result<NameState, Error> {
    if |input| > MAX_NAME_STATE_SIZE then Err(TooLarge)
    else
      var p := ParseState(key, input);
      if p.Failed? || p.rest != [] then Err(Malformed)
      else if !p.value.KeyBound(hash) then Err(KeyMismatch)
      else if PutState(p.value) != input then Err(NonCanonical)
      else Ok(p.value)
  }

  // ---- round trip ----

  lemma TakePrefix(a: seq<Byte>, rest: seq<Byte>)
    ensures Take(a + rest, |a|) == Parsed(a, rest)
  {
    assert (a + rest)[..|a|] == a && (a + rest)[|a|..] == rest;
  }

  lemma Regroup3(a: seq<Byte>, b: seq<Byte>, c: seq<Byte>, rest: seq<Byte>)
    ensures a + b + c + rest == a + (b + (c + rest))
  {
  }

  lemma Regroup4(a: seq<Byte>, b: seq<Byte>, c: seq<Byte>, d: seq<Byte>, rest: seq<Byte>)
    ensures a + b + c + d + rest == a + (b + (c + (d + rest)))
  {
    Regroup3(a, b, c, d + rest);
    assert a + b + c + d + rest == a + b + c + (d + rest);
  }

  lemma Prefixed3(p: seq<Byte>, a: seq<Byte>, b: seq<Byte>, c: seq<Byte>)
    ensures p + a + b + c == p + (a + b + c)
  {
  }

  lemma ParsePutStrings(s: NameState, rest: seq<Byte>)
    requires |s.name| <= MAX_NAME_SIZE && |s.resourceData| <= MAX_RESOURCE_SIZE
    ensures ParseStrings(PutStrings(s) + rest) == Parsed(Strings(s.name, s.resourceData), rest)
  {
    Capacities();
    var s3 := s.resourceData + rest;
    var s2 := PutLe(|s.resourceData|, 2) + s3;
    var s1 := s.name + s2;
    Regroup4(PutLe(|s.name|, 1), s.name, PutLe(|s.resourceData|, 2), s.resourceData, rest);
    ReadPutLe(|s.name|, 1, s1);
    TakePrefix(s.name, s2);
    ReadPutLe(|s.resourceData|, 2, s3);
    TakePrefix(s.resourceData, rest);
  }

  lemma ParsePutFixed(s: NameState, rest: seq<Byte>)
    ensures ParseFixed(PutFixed(s) + rest) == Parsed(Fixed(s.height, s.renewal, Pack(s.Flags())), rest)
  {
    Capacities();
    PackTen(s.Flags());
    var s2 := PutLe(Pack(s.Flags()), 2) + rest;
    var s1 := PutLe(s.renewal, 4) + s2;
    Regroup3(PutLe(s.height, 4), PutLe(s.renewal, 4), PutLe(Pack(s.Flags()), 2), rest);
    ReadPutLe(s.height, 4, s1);
    ReadPutLe(s.renewal, 4, s2);
    ReadPutLe(Pack(s.Flags()), 2, rest);
  }

  lemma ParsePutOwner(s: NameState, rest: seq<Byte>)
    ensures ParseOwner(!s.owner.IsNull(), PutOwner(s) + rest) == Parsed(s.owner, rest)
  {
    if s.owner.IsNull() {
      assert PutOwner(s) + rest == rest;
    } else {
      var hash, index := s.owner.transactionHash, PutCompact(s.owner.index);
      assert (hash + index) + rest == hash + (index + rest);
      TakePrefix(hash, index + rest);
      ReadPutCompact(s.owner.index, rest);
    }
  }

  lemma ParsePutCompact(v: nat, maximum: nat, rest: seq<Byte>)
    requires v <= maximum <= U64_MAX
    ensures ParseCompact(v != 0, maximum, PutOptionalCompact(v) + rest) == Parsed(v, rest)
  {
    if v == 0 { assert [] + rest == rest; } else { ReadPutCompact(v, rest); }
  }

  lemma ParsePutHeight(v: U32, rest: seq<Byte>)
    ensures ParseHeight(v != 0, PutOptionalHeight(v) + rest) == Parsed(v, rest)
  {
    Capacities();
    if v == 0 { assert [] + rest == rest; } else { ReadPutLe(v, 4, rest); }
  }

  lemma ParsePutMoney(s: NameState, rest: seq<Byte>)
    requires s.value <= MAX_SAFE_INTEGER && s.highest <= MAX_SAFE_INTEGER
    ensures ParseMoney(!s.owner.IsNull(), s.value != 0, s.highest != 0, PutMoney(s) + rest)
         == Parsed(Money(s.owner, s.value, s.highest), rest)
  {
    var s2 := PutOptionalCompact(s.highest) + rest;
    var s1 := PutOptionalCompact(s.value) + s2;
    Regroup3(PutOwner(s), PutOptionalCompact(s.value), PutOptionalCompact(s.highest), rest);
    ParsePutOwner(s, s1);
    ParsePutCompact(s.value, MAX_SAFE_INTEGER, s2);
    ParsePutCompact(s.highest, MAX_SAFE_INTEGER, rest);
  }

  lemma ParsePutTimes(s: NameState)
    ensures ParseTimes(s.transfer != 0, s.revoked != 0, s.claimed != 0, s.renewals != 0, PutTimes(s))
         == Parsed(Times(s.transfer, s.revoked, s.claimed, s.renewals), [])
  {
    var s3 := PutOptionalCompact(s.renewals) + [];
    var s2 := PutOptionalHeight(s.claimed) + s3;
    var s1 := PutOptionalHeight(s.revoked) + s2;
    Regroup4(PutOptionalHeight(s.transfer), PutOptionalHeight(s.revoked), PutOptionalHeight(s.claimed),
             PutOptionalCompact(s.renewals), []);
    assert PutTimes(s) + [] == PutTimes(s);
    ParsePutHeight(s.transfer, s1);
    ParsePutHeight(s.revoked, s2);
    ParsePutHeight(s.claimed, s3);
    ParsePutCompact(s.renewals, U32_MAX, []);
  }

  ghost predicate Describes(f: seq<bool>, s: NameState) {
    && |f| == 10 && f[0] == !s.owner.IsNull() && f[1] == (s.value != 0) && f[2] == (s.highest != 0)
    && f[3] == (s.transfer != 0) && f[4] == (s.revoked != 0) && f[5] == (s.claimed != 0) && f[6] == (s.renewals != 0)
    && f[7] == s.registered && f[8] == s.expired && f[9] == s.weak
  }

  /** Two reads in a row. */
  lemma ParseOptionalSteps(key: Hash, a: Strings, b: Fixed, f: seq<bool>, s: seq<Byte>, c: Money, s1: seq<Byte>, d: Times)
    requires |f| == 10
    requires ParseMoney(f[0], f[1], f[2], s) == Parsed(c, s1)
    requires ParseTimes(f[3], f[4], f[5], f[6], s1) == Parsed(d, [])
    ensures ParseOptional(key, a, b, f, s) == Parsed(Assemble(key, a, b, f, c, d), [])
  {
  }

  lemma ParsePutOptional(s: NameState, f: seq<bool>)
    requires s.value <= MAX_SAFE_INTEGER && s.highest <= MAX_SAFE_INTEGER
    requires Describes(f, s)
    ensures ParseOptional(s.nameHash, Strings(s.name, s.resourceData), Fixed(s.height, s.renewal, Pack(f)), f,
                          PutMoney(s) + PutTimes(s)) == Parsed(s, [])
  {
    var a, b := Strings(s.name, s.resourceData), Fixed(s.height, s.renewal, Pack(f));
    var c, d := Money(s.owner, s.value, s.highest), Times(s.transfer, s.revoked, s.claimed, s.renewals);
    ParsePutMoney(s, PutTimes(s));
    ParsePutTimes(s);
    ParseOptionalSteps(s.nameHash, a, b, f, PutMoney(s) + PutTimes(s), c, PutTimes(s), d);
    assert Assemble(s.nameHash, a, b, f, c, d) == s;
  }

  lemma ParseStateSteps(key: Hash, s: seq<Byte>, a: Strings, s1: seq<Byte>, b: Fixed, s2: seq<Byte>)
    requires ParseStrings(s) == Parsed(a, s1) && ParseFixed(s1) == Parsed(b, s2)
    ensures ParseState(key, s) == ParseOptional(key, a, b, Unpack(b.field, 10), s2)
  {
  }

  lemma FlagsDescribe(s: NameState)
    ensures Describes(s.Flags(), s)
  {
  }

  lemma ParsePutRequired(s: NameState, field: nat, s2: seq<Byte>)
    requires |s.name| <= MAX_NAME_SIZE && |s.resourceData| <= MAX_RESOURCE_SIZE && field == Pack(s.Flags())
    ensures ParseState(s.nameHash, PutStrings(s) + (PutFixed(s) + s2))
         == ParseOptional(s.nameHash, Strings(s.name, s.resourceData), Fixed(s.height, s.renewal, field),
                          Unpack(field, 10), s2)
  {
    ParsePutStrings(s, PutFixed(s) + s2);
    ParsePutFixed(s, s2);
    ParseStateSteps(s.nameHash, PutStrings(s) + (PutFixed(s) + s2), Strings(s.name, s.resourceData), PutFixed(s) + s2,
                    Fixed(s.height, s.renewal, field), s2);
  }

  lemma ParsePutState(s: NameState)
    requires |s.name| <= MAX_NAME_SIZE && |s.resourceData| <= MAX_RESOURCE_SIZE
    requires s.value <= MAX_SAFE_INTEGER && s.highest <= MAX_SAFE_INTEGER
    ensures ParseState(s.nameHash, PutState(s)) == Parsed(s, [])
  {
    FlagsDescribe(s);
    Regroup3(PutStrings(s), PutFixed(s), PutMoney(s), PutTimes(s));
    ParsePutFlagged(s, s.Flags());
  }

  lemma ParsePutFlagged(s: NameState, f: seq<bool>)
    requires |s.name| <= MAX_NAME_SIZE && |s.resourceData| <= MAX_RESOURCE_SIZE
    requires s.value <= MAX_SAFE_INTEGER && s.highest <= MAX_SAFE_INTEGER
    requires f == s.Flags() && Describes(f, s)
    ensures ParseState(s.nameHash, PutStrings(s) + (PutFixed(s) + (PutMoney(s) + PutTimes(s)))) == Parsed(s, [])
  {
    UnpackPack(f);
    ParsePutRequired(s, Pack(f), PutMoney(s) + PutTimes(s));
    ParsePutOptional(s, f);
  }

  /** Every encodable state is at most 660 bytes long and decodes under its key to itself. */
  lemma NameStateRoundTrip(s: NameState, hash: NameHasher)
    requires s.Encodable(hash)
    ensures |PutState(s)| <= 660 < MAX_NAME_STATE_SIZE
    ensures DecodeSpec(s.nameHash, hash, PutState(s)) == Ok(s)
  {
    ParsePutState(s);
    assert |PutStrings(s)| <= 578 && |PutFixed(s)| == 10 && |PutMoney(s)| <= 55 && |PutTimes(s)| <= 17;
  }

  /** Whatever decodes is bound to its key and is the encoding of the state returned. */
  lemma NameStateCanonical(key: Hash, hash: NameHasher, input: seq<Byte>)
    requires DecodeSpec(key, hash, input).Ok?
    ensures var s := DecodeSpec(key, hash, input).value;
            && s.nameHash == key && s.Encodable(hash) && PutState(s) == input
            && (|| s.height != 0 || s.renewal != 0 || s.owner != NULL_OUTPOINT || s.value != 0 || s.highest != 0 || s.resourceData != []
                || s.transfer != 0 || s.revoked != 0 || s.claimed != 0 || s.renewals != 0 || s.registered || s.expired || s.weak
                ==> hash(s.name) == Some(key))
  {
    var p := ParseState(key, input);
    assert p.Parsed?;
  }

  // ---- a state known from HSD ----

  function Bytes32(): Hash {
    seq(32, i requires 0 <= i < 32 => i)
  }

  /** The fixed fields of the fully populated state, then its optional ones: owner, amounts, heights and renewals. */
  const KnownHead: seq<Byte> := [0x40, 0x30, 0x20, 0x10, 0x80, 0x70, 0x60, 0x50, 0xff, 0x03]
  const KnownAmounts: seq<Byte> := [0xfe, 0x70, 0x11, 0x01, 0x00, 0xfe, 0x15, 0xcd, 0x5b, 0x07, 0xfe, 0xb1, 0x68, 0xde, 0x3a]
  const KnownTimes: seq<Byte> := [0xd2, 0x04, 0x00, 0x00, 0x2e, 0x16, 0x00, 0x00, 0x34, 0x23, 0x00, 0x00, 0xfd, 0x2c, 0x01]

  /** The populated state of HSD's own vectors is written to exactly its bytes, whatever name and resource it carries. */
  lemma KnownState(name: seq<Byte>, data: seq<Byte>, hash: Hash)
    requires |name| == 9 && |data| == 104
    ensures var s := NameState(hash, name, 0x1020_3040, 0x5060_7080, Outpoint(Bytes32(), 70_000), 123_456_789, 987_654_321,
                               data, 1234, 5678, 9012, 300, true, true, true);
            PutState(s) == ([9] + name + [104, 0] + data) + KnownHead + (Bytes32() + KnownAmounts) + KnownTimes
  {
    var s := NameState(hash, name, 0x1020_3040, 0x5060_7080, Outpoint(Bytes32(), 70_000), 123_456_789, 987_654_321,
                       data, 1234, 5678, 9012, 300, true, true, true);
    hide PutStrings, PutFixed, PutMoney, PutTimes, Bytes32;
    assert s.Flags() == seq(10, _ => true);
    KnownFixed(s);
    KnownMoney(s);
    KnownHeights(s);
    KnownStrings(s);
  }

  lemma KnownStrings(s: NameState)
    requires |s.name| == 9 && |s.resourceData| == 104
    ensures PutStrings(s) == [9] + s.name + [104, 0] + s.resourceData
  {
    LeTwo(104);
    assert PutLe(9, 1) == [9 as Byte] + PutLe(0, 0);
  }

  lemma LeTwo(v: nat)
    ensures PutLe(v, 2) == [v % 256, v / 256 % 256]
  {
    assert PutLe(v / 256, 1) == [v / 256 % 256] + PutLe(v / 256 / 256, 0);
  }

  lemma LeFour(v: nat)
    ensures PutLe(v, 4) == [v % 256, v / 256 % 256, v / 256 / 256 % 256, v / 256 / 256 / 256 % 256]
  {
    LeTwo(v / 256 / 256);
    assert PutLe(v / 256, 3) == [v / 256 % 256] + PutLe(v / 256 / 256, 2);
    assert PutLe(v, 4) == [v % 256] + PutLe(v / 256, 3);
  }

  lemma KnownFixed(s: NameState)
    requires s.height == 0x1020_3040 && s.renewal == 0x5060_7080 && s.Flags() == seq(10, _ => true)
    ensures PutFixed(s) == KnownHead
  {
    hide PutLe;
    LeFour(0x1020_3040);
    LeFour(0x5060_7080);
    LeTwo(1023);
    AllFlags();
  }

  lemma AllFlags()
    ensures Pack(seq(10, _ => true)) == 1023
  {
    OnesPack(10);
  }

  lemma {:induction false} OnesPack(n: nat)
    ensures Pack(seq(n, _ => true)) == Doubles(n) - 1
  {
    if n > 0 {
      OnesPack(n - 1);
      assert seq(n, _ => true)[1..] == seq(n - 1, _ => true);
    }
  }

  lemma KnownMoney(s: NameState)
    requires s.owner == Outpoint(Bytes32(), 70_000) && s.value == 123_456_789 && s.highest == 987_654_321
    ensures PutMoney(s) == Bytes32() + KnownAmounts
  {
    hide PutCompact, Bytes32;
    var a, b, c := PutCompact(70_000), PutCompact(123_456_789), PutCompact(987_654_321);
    KnownCompacts();
    assert PutMoney(s) == (Bytes32() + a) + b + c;
    Regroup(Bytes32(), a, b, c);
  }

  lemma KnownCompacts()
    ensures PutCompact(70_000) + PutCompact(123_456_789) + PutCompact(987_654_321) == KnownAmounts
  {
    hide PutLe;
    LeFour(70_000);
    LeFour(123_456_789);
    LeFour(987_654_321);
  }

  lemma Regroup(h: seq<Byte>, a: seq<Byte>, b: seq<Byte>, c: seq<Byte>)
    ensures (h + a) + b + c == h + (a + b + c)
  {
  }

  lemma KnownHeights(s: NameState)
    requires s.transfer == 1234 && s.revoked == 5678 && s.claimed == 9012 && s.renewals == 300
    ensures PutTimes(s) == KnownTimes
  {
    hide PutLe;
    LeFour(1234);
    LeFour(5678);
    LeFour(9012);
    LeTwo(300);
    assert PutCompact(300) == [0xfd, 0x2c, 0x01];
  }

  // ---- the imperative codec ----

  /** Accumulates the bitmap one optional field at a time. */
  method PackFlags(flags: seq<bool>) returns (field: nat)
    ensures field == Pack(flags)
  {
    field := 0;
    var weight: nat := 1;
    assert flags[0..] == flags;
    for i := 0 to |flags|
      invariant weight >= 0 && Pack(flags) == field + weight * Pack(flags[i..])
    {
      assert flags[i..][1..] == flags[i + 1..];
      WeighBit(weight, Pack(flags[i + 1..]));
      if flags[i] {
        field := field + weight;
      }
      weight := 2 * weight;
    }
  }

  lemma WeighBit(w: nat, p: nat)
    ensures w * (2 * p) == (2 * w) * p && w * (1 + 2 * p) == w + (2 * w) * p
  {
  }

  method Encode(s: NameState, hash: NameHasher) returns (r: Result<seq<Byte>, Error>)
    ensures r.Ok? <==> s.Encodable(hash)
    ensures r.Ok? ==> r.value == PutState(s)
  {
    if |s.name| > MAX_NAME_SIZE || |s.resourceData| > MAX_RESOURCE_SIZE {
      return Err(TooLarge);
    }
    if s.value > MAX_SAFE_INTEGER || s.highest > MAX_SAFE_INTEGER {
      return Err(UnsafeInteger);
    }
    if !s.KeyBound(hash) {
      return Err(KeyMismatch);
    }
    var encoder := new Encoder();
    EncodeRequired(s, encoder);
    EncodeOptional(s, encoder);
    r := Ok(encoder.bytes);
  }

  method EncodeRequired(s: NameState, encoder: Encoder)
    requires encoder.bytes == []
    modifies encoder
    ensures encoder.bytes == PutStrings(s) + PutFixed(s)
  {
    var field := PackFlags(s.Flags());
    encoder.PutInteger(|s.name|, 1);
    encoder.PutBytes(s.name);
    encoder.PutInteger(|s.resourceData|, 2);
    encoder.PutBytes(s.resourceData);
    assert encoder.bytes == PutStrings(s);
    encoder.PutInteger(s.height, 4);
    encoder.PutInteger(s.renewal, 4);
    encoder.PutInteger(field, 2);
    Prefixed3(PutStrings(s), PutLe(s.height, 4), PutLe(s.renewal, 4), PutLe(field, 2));
  }

  method EncodeOptional(s: NameState, encoder: Encoder)
    modifies encoder
    ensures encoder.bytes == old(encoder.bytes) + PutMoney(s) + PutTimes(s)
  {
    ghost var was := encoder.bytes;
    if !s.owner.IsNull() {
      encoder.PutBytes(s.owner.transactionHash);
      encoder.PutCompactSize(s.owner.index);
    }
    assert encoder.bytes == was + PutOwner(s);
    EncodeOptionalCompact(s.value, encoder);
    EncodeOptionalCompact(s.highest, encoder);
    Prefixed3(was, PutOwner(s), PutOptionalCompact(s.value), PutOptionalCompact(s.highest));
    EncodeTimes(s, encoder);
  }

  method EncodeTimes(s: NameState, encoder: Encoder)
    modifies encoder
    ensures encoder.bytes == old(encoder.bytes) + PutTimes(s)
  {
    ghost var was := encoder.bytes;
    EncodeOptionalHeight(s.transfer, encoder);
    EncodeOptionalHeight(s.revoked, encoder);
    EncodeOptionalHeight(s.claimed, encoder);
    Prefixed3(was, PutOptionalHeight(s.transfer), PutOptionalHeight(s.revoked), PutOptionalHeight(s.claimed));
    EncodeOptionalCompact(s.renewals, encoder);
  }

  method EncodeOptionalCompact(v: nat, encoder: Encoder)
    modifies encoder
    ensures encoder.bytes == old(encoder.bytes) + PutOptionalCompact(v)
  {
    if v != 0 { encoder.PutCompactSize(v); }
  }

  method EncodeOptionalHeight(v: nat, encoder: Encoder)
    modifies encoder
    ensures encoder.bytes == old(encoder.bytes) + PutOptionalHeight(v)
  {
    if v != 0 { encoder.PutInteger(v, 4); }
  }

  method DecodeStrings(decoder: Decoder) returns (r: Option<Strings>)
    requires decoder.Valid()
    modifies decoder
    ensures decoder.Valid()
    ensures r.None? <==> ParseStrings(old(decoder.Rest())).Failed?
    ensures r.Some? ==> ParseStrings(old(decoder.Rest())) == Parsed(r.value, decoder.Rest())
  {
    var nameLength := decoder.ReadInteger(1);
    if nameLength.Err? || nameLength.value > MAX_NAME_SIZE { return None; }
    var name := decoder.ReadBounded(nameLength.value, MAX_NAME_SIZE);
    if name.Err? { return None; }
    var resourceLength := decoder.ReadInteger(2);
    if resourceLength.Err? || resourceLength.value > MAX_RESOURCE_SIZE { return None; }
    var resourceData := decoder.ReadBounded(resourceLength.value, MAX_RESOURCE_SIZE);
    if resourceData.Err? { return None; }
    r := Some(Strings(name.value, resourceData.value));
  }

  method DecodeFixed(decoder: Decoder) returns (r: Option<Fixed>)
    requires decoder.Valid()
    modifies decoder
    ensures decoder.Valid()
    ensures r.None? <==> ParseFixed(old(decoder.Rest())).Failed?
    ensures r.Some? ==> ParseFixed(old(decoder.Rest())) == Parsed(r.value, decoder.Rest())
  {
    ghost var s := decoder.Rest();
    var height := decoder.ReadInteger(4);
    if height.Err? { return None; }
    FourBytes(s);
    s := decoder.Rest();
    var renewal := decoder.ReadInteger(4);
    if renewal.Err? { return None; }
    FourBytes(s);
    var field := decoder.ReadInteger(2);
    if field.Err? || field.value > 1023 { return None; }
    r := Some(Fixed(height.value, renewal.value, field.value));
  }

  /** Four bytes always fit a `u32`. */
  lemma FourBytes(s: seq<Byte>)
    requires ReadLe(s, 4).Parsed?
    ensures ReadLe(s, 4).value <= U32_MAX
  {
    PutReadLe(s, 4);
    Capacities();
  }

  method DecodeMoney(owned: bool, valued: bool, bid: bool, decoder: Decoder) returns (r: Option<Money>)
    requires decoder.Valid()
    modifies decoder
    ensures decoder.Valid()
    ensures r.None? <==> ParseMoney(owned, valued, bid, old(decoder.Rest())).Failed?
    ensures r.Some? ==> ParseMoney(owned, valued, bid, old(decoder.Rest())) == Parsed(r.value, decoder.Rest())
  {
    var owner := NULL_OUTPOINT;
    if owned {
      var hash := decoder.ReadSlice(32);
      if hash.Err? { return None; }
      var index := decoder.ReadCompactSize();
      if index.Err? || index.value > U32_MAX { return None; }
      owner := Outpoint(hash.value, index.value);
    }
    var value := DecodeOptionalCompact(valued, MAX_SAFE_INTEGER, decoder);
    if value.None? { return None; }
    var highest := DecodeOptionalCompact(bid, MAX_SAFE_INTEGER, decoder);
    if highest.None? { return None; }
    r := Some(Money(owner, value.value, highest.value));
  }

  method DecodeTimes(moving: bool, gone: bool, claim: bool, renewed: bool, decoder: Decoder) returns (r: Option<Times>)
    requires decoder.Valid()
    modifies decoder
    ensures decoder.Valid()
    ensures r.None? <==> ParseTimes(moving, gone, claim, renewed, old(decoder.Rest())).Failed?
    ensures r.Some? ==> ParseTimes(moving, gone, claim, renewed, old(decoder.Rest())) == Parsed(r.value, decoder.Rest())
  {
    var transfer := DecodeOptionalHeight(moving, decoder);
    if transfer.None? { return None; }
    var revoked := DecodeOptionalHeight(gone, decoder);
    if revoked.None? { return None; }
    var claimed := DecodeOptionalHeight(claim, decoder);
    if claimed.None? { return None; }
    var renewals := DecodeOptionalCompact(renewed, U32_MAX, decoder);
    if renewals.None? { return None; }
    r := Some(Times(transfer.value, revoked.value, claimed.value, renewals.value));
  }

  method DecodeOptionalCompact(present: bool, maximum: nat, decoder: Decoder) returns (r: Option<nat>)
    requires decoder.Valid()
    modifies decoder
    ensures decoder.Valid()
    ensures r.None? <==> ParseCompact(present, maximum, old(decoder.Rest())).Failed?
    ensures r.Some? ==> ParseCompact(present, maximum, old(decoder.Rest())) == Parsed(r.value, decoder.Rest())
  {
    if !present { return Some(0); }
    var value := decoder.ReadCompactSize();
    if value.Err? || value.value > maximum { return None; }
    r := Some(value.value);
  }

  method DecodeOptionalHeight(present: bool, decoder: Decoder) returns (r: Option<nat>)
    requires decoder.Valid()
    modifies decoder
    ensures decoder.Valid()
    ensures r.None? <==> ParseHeight(present, old(decoder.Rest())).Failed?
    ensures r.Some? ==> ParseHeight(present, old(decoder.Rest())) == Parsed(r.value, decoder.Rest())
  {
    if !present { return Some(0); }
    ghost var s := decoder.Rest();
    var value := decoder.ReadInteger(4);
    if value.Err? { return None; }
    FourBytes(s);
    r := Some(value.value);
  }

  method Decode(key: Hash, hash: NameHasher, input: seq<Byte>) returns (r: Result<NameState, Error>)
    ensures r == DecodeSpec(key, hash, input)
  {
    if |input| > MAX_NAME_STATE_SIZE {
      return Err(TooLarge);
    }
    var decoder := new Decoder(input);
    var state := DecodeFields(key, decoder);
    if state.None? {
      return Err(Malformed);
    }
    var finished := decoder.Finish();
    if finished.Err? {
      return Err(Malformed);
    }
    if !state.value.KeyBound(hash) {
      return Err(KeyMismatch);
    }
    var again := Encode(state.value, hash);
    if again.Err? || again.value != input {
      return Err(NonCanonical);
    }
    r := Ok(state.value);
  }

  method DecodeFields(key: Hash, decoder: Decoder) returns (r: Option<NameState>)
    requires decoder.Valid()
    modifies decoder
    ensures decoder.Valid()
    ensures r.None? <==> ParseState(key, old(decoder.Rest())).Failed?
    ensures r.Some? ==> ParseState(key, old(decoder.Rest())) == Parsed(r.value, decoder.Rest())
  {
    var a := DecodeStrings(decoder);
    if a.None? { return None; }
    var b := DecodeFixed(decoder);
    if b.None? { return None; }
    r := DecodeOptional(key, a.value, b.value, Unpack(b.value.field, 10), decoder);
  }

  method DecodeOptional(key: Hash, a: Strings, b: Fixed, flags: seq<bool>, decoder: Decoder)
    returns (r: Option<NameState>)
    requires decoder.Valid() && |flags| == 10
    modifies decoder
    ensures decoder.Valid()
    ensures r.None? <==> ParseOptional(key, a, b, flags, old(decoder.Rest())).Failed?
    ensures r.Some? ==> ParseOptional(key, a, b, flags, old(decoder.Rest())) == Parsed(r.value, decoder.Rest())
  {
    var c := DecodeMoney(flags[0], flags[1], flags[2], decoder);
    if c.None? { return None; }
    var d := DecodeTimes(flags[3], flags[4], flags[5], flags[6], decoder);
    if d.None? { return None; }
    r := Some(Assemble(key, a, b, flags, c.value, d.value));
  }
}
