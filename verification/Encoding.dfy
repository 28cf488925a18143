/**
  Little-endian wire encoding: a decoder that advances a position over its input, an encoder that
  grows a buffer, and the canonical compact-size integer.

  The `Read*`/`Put*` functions say what one read consumes and what one write appends; the two
  classes are proved against them.
 */
module Encoding {
  import opened Common

  /** A read either yields a value and the unread rest, or fails. */
  datatype Parsed<+T> = Failed | Parsed(value: T, rest: seq<Byte>)
  {
    predicate IsFailure() { Failed? }
    function PropagateFailure<U>(): Parsed<U> requires Failed? { Failed }
    function Extract(): (T, seq<Byte>) requires Parsed? { (value, rest) }
  }

  // ---- what is written and read ----

  /** `n` little-endian bytes of `v`. */
  function PutLe(v: nat, n: nat): (s: seq<Byte>)
    ensures |s| == n
  {
    if n == 0 then [] else [v % 256] + PutLe(v / 256, n - 1)
  }

  function LeVal(s: seq<Byte>): nat {
    if s == [] then 0 else s[0] as int + 256 * LeVal(s[1..])
  }

  /** Values that fit `n` bytes. */
  function Capacity(n: nat): nat {
    if n == 0 then 1 else 256 * Capacity(n - 1)
  }

  function Take(s: seq<Byte>, n: nat): Parsed<seq<Byte>> {
    if n <= |s| then Parsed(s[..n], s[n..]) else Failed
  }

  function ReadLe(s: seq<Byte>, n: nat): Parsed<nat> {
    if n <= |s| then Parsed(LeVal(s[..n]), s[n..]) else Failed
  }

  function PutCompact(v: nat): (s: seq<Byte>)
    ensures |s| <= 9 && (v <= U32_MAX ==> |s| <= 5)
  {
    if v <= 0xfc then [v]
    else if v <= 0xffff then [0xfd] + PutLe(v, 2)
    else if v <= 0xffff_ffff then [0xfe] + PutLe(v, 4)
    else [0xff] + PutLe(v, 8)
  }

  function ReadCompact(s: seq<Byte>): Parsed<nat> {
    if s == [] then Failed
    else if s[0] <= 0xfc then Parsed(s[0], s[1..])
    else if s[0] == 0xfd then AtLeast(ReadLe(s[1..], 2), 0xfd)
    else if s[0] == 0xfe then AtLeast(ReadLe(s[1..], 4), 0x1_0000)
    else AtLeast(ReadLe(s[1..], 8), 0x1_0000_0000)
  }

  /** A wide form is canonical only if no narrower one could hold the value. */
  function AtLeast(p: Parsed<nat>, minimum: nat): Parsed<nat> {
    if p.Parsed? && p.value < minimum then Failed else p
  }

  // ---- the two directions are inverse ----

  lemma {:induction false} LeRoundTrip(v: nat, n: nat)
    requires v < Capacity(n)
    ensures LeVal(PutLe(v, n)) == v
  {
    if n > 0 {
      LeRoundTrip(v / 256, n - 1);
      assert PutLe(v, n)[1..] == PutLe(v / 256, n - 1);
    }
  }

  lemma {:induction false} LeUnique(s: seq<Byte>)
    ensures PutLe(LeVal(s), |s|) == s && LeVal(s) < Capacity(|s|)
  {
    if s != [] {
      LeUnique(s[1..]);
      assert LeVal(s) % 256 == s[0] as int && LeVal(s) / 256 == LeVal(s[1..]);
      assert s == [s[0]] + s[1..];
    }
  }

  lemma ReadPutLe(v: nat, n: nat, rest: seq<Byte>)
    requires v < Capacity(n)
    ensures ReadLe(PutLe(v, n) + rest, n) == Parsed(v, rest)
  {
    LeRoundTrip(v, n);
    assert (PutLe(v, n) + rest)[..n] == PutLe(v, n);
    assert (PutLe(v, n) + rest)[n..] == rest;
  }

  lemma PutReadLe(s: seq<Byte>, n: nat)
    requires ReadLe(s, n).Parsed?
    ensures var p := ReadLe(s, n); s == PutLe(p.value, n) + p.rest && p.value < Capacity(n)
  {
    LeUnique(s[..n]);
    assert s[..n] + s[n..] == s;
  }

  lemma Capacities()
    ensures Capacity(1) == 0x100 && Capacity(2) == 0x1_0000
    ensures Capacity(4) == 0x1_0000_0000 && Capacity(8) == 0x1_0000_0000_0000_0000
  {
    assert Capacity(2) == 256 * Capacity(1);
    assert Capacity(4) == 256 * Capacity(3) && Capacity(3) == 256 * Capacity(2);
    assert Capacity(6) == 256 * Capacity(5) && Capacity(5) == 256 * Capacity(4);
    assert Capacity(8) == 256 * Capacity(7) && Capacity(7) == 256 * Capacity(6);
  }

  /** Reading what was written returns it and leaves exactly what followed. */
  lemma ReadPutCompact(v: nat, rest: seq<Byte>)
    requires v <= U64_MAX
    ensures ReadCompact(PutCompact(v) + rest) == Parsed(v, rest)
  {
    Capacities();
    if v <= 0xfc {
      assert ([v as Byte] + rest)[1..] == rest;
    } else if v <= 0xffff {
      ReadPutWide(0xfd, v, 2, rest);
    } else if v <= 0xffff_ffff {
      ReadPutWide(0xfe, v, 4, rest);
    } else {
      ReadPutWide(0xff, v, 8, rest);
    }
  }

  lemma ReadPutWide(tag: Byte, v: nat, n: nat, rest: seq<Byte>)
    requires v < Capacity(n)
    ensures var s := ([tag] + PutLe(v, n)) + rest; s[0] == tag && ReadLe(s[1..], n) == Parsed(v, rest)
  {
    assert (([tag] + PutLe(v, n)) + rest)[1..] == PutLe(v, n) + rest;
    ReadPutLe(v, n, rest);
  }

  /** Whatever is accepted is the canonical form of the value it denotes. */
  lemma PutReadCompact(s: seq<Byte>)
    requires ReadCompact(s).Parsed?
    ensures var p := ReadCompact(s); p.value <= U64_MAX && s == PutCompact(p.value) + p.rest
  {
    Capacities();
    var p := ReadCompact(s);
    assert s == [s[0]] + s[1..];
    if s[0] > 0xfc {
      var n := if s[0] == 0xfd then 2 else if s[0] == 0xfe then 4 else 8;
      PutReadLe(s[1..], n);
      assert [s[0]] + (PutLe(p.value, n) + p.rest) == ([s[0]] + PutLe(p.value, n)) + p.rest;
    }
  }

  // ---- the decoder and encoder objects ----

  datatype DecodeError = UnexpectedEnd | LengthExceedsBound | TrailingBytes | InvalidValue

  class Decoder {
    const input: seq<Byte>
    var position: nat

    ghost predicate Valid()
      reads this
    {
      position <= |input|
    }

    ghost function Rest(): seq<Byte>
      requires Valid()
      reads this
    {
      input[position..]
    }

    constructor (input: seq<Byte>)
      ensures Valid() && this.input == input && position == 0 && Rest() == input
    {
      this.input := input;
      position := 0;
    }

    method Remaining() returns (n: nat)
      requires Valid()
      ensures n == |Rest()|
    {
      n := |input| - position;
    }

    /** A failed slice read leaves the position where it was. */
    method ReadSlice(length: nat) returns (r: Result<seq<Byte>, DecodeError>)
      requires Valid()
      modifies this
      ensures Valid()
      ensures r.Ok? <==> length <= old(|Rest()|)
      ensures r.Ok? ==> Take(old(Rest()), length) == Parsed(r.value, Rest()) && position == old(position) + length
      ensures r.Err? ==> position == old(position)
    {
      if length > |input| - position {
        return Err(UnexpectedEnd);
      }
      ghost var s := Rest();
      r := Ok(input[position..position + length]);
      position := position + length;
      assert s[..length] == r.value && s[length..] == Rest();
    }

    method ReadBounded(length: nat, maximum: nat) returns (r: Result<seq<Byte>, DecodeError>)
      requires Valid()
      modifies this
      ensures Valid()
      ensures r.Ok? <==> length <= maximum && length <= old(|Rest()|)
      ensures r.Ok? ==> Take(old(Rest()), length) == Parsed(r.value, Rest()) && position == old(position) + length
    {
      if length > maximum {
        return Err(LengthExceedsBound);
      }
      r := ReadSlice(length);
    }

    /** `read_u8`, `read_u16_le`, `read_u32_le` and `read_u64_le` for n = 1, 2, 4, 8. */
    method ReadInteger(n: nat) returns (r: Result<nat, DecodeError>)
      requires Valid()
      modifies this
      ensures Valid()
      ensures r.Ok? <==> ReadLe(old(Rest()), n).Parsed?
      ensures r.Ok? ==> ReadLe(old(Rest()), n) == Parsed(r.value, Rest()) && position == old(position) + n
    {
      var bytes := ReadSlice(n);
      if bytes.Err? {
        return Err(bytes.error);
      }
      r := Ok(LeVal(bytes.value));
    }

    method ReadCompactSize() returns (r: Result<nat, DecodeError>)
      requires Valid()
      modifies this
      ensures Valid()
      ensures r.Ok? <==> ReadCompact(old(Rest())).Parsed?
      ensures r.Ok? ==> ReadCompact(old(Rest())) == Parsed(r.value, Rest())
    {
      ghost var s := Rest();
      var tag := ReadInteger(1);
      if tag.Err? {
        return Err(tag.error);
      }
      assert s[..1] == [s[0]] && LeVal([s[0]]) == s[0] as int;
      if tag.value <= 0xfc {
        return tag;
      }
      var width := if tag.value == 0xfd then 2 else if tag.value == 0xfe then 4 else 8;
      var minimum := if tag.value == 0xfd then 0xfd else if tag.value == 0xfe then 0x1_0000 else 0x1_0000_0000;
      var value := ReadInteger(width);
      if value.Ok? && value.value < minimum {
        return Err(InvalidValue);
      }
      r := value;
    }

    method Finish() returns (r: Result<(), DecodeError>)
      requires Valid()
      ensures r.Ok? <==> Rest() == []
    {
      r := if |input| - position == 0 then Ok(()) else Err(TrailingBytes);
    }
  }

  class Encoder {
    var bytes: seq<Byte>

    constructor ()
      ensures bytes == []
    {
      bytes := [];
    }

    method PutBytes(value: seq<Byte>)
      modifies this
      ensures bytes == old(bytes) + value
    {
      bytes := bytes + value;
    }

    method PutInteger(value: nat, n: nat)
      modifies this
      ensures bytes == old(bytes) + PutLe(value, n)
    {
      bytes := bytes + PutLe(value, n);
    }

    method PutCompactSize(value: nat)
      modifies this
      ensures bytes == old(bytes) + PutCompact(value)
    {
      if value <= 0xfc {
        bytes := bytes + [value];
      } else {
        var tag, n := 0xff, 8;
        if value <= 0xffff {
          tag, n := 0xfd, 2;
        } else if value <= 0xffff_ffff {
          tag, n := 0xfe, 4;
        }
        ghost var was := bytes;
        bytes := bytes + [tag];
        PutInteger(value, n);
        assert was + ([tag] + PutLe(value, n)) == (was + [tag]) + PutLe(value, n);
      }
    }
  }
}
