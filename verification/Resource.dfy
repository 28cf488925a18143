/**
  The HSD version-zero resource: a version byte and a run of tagged records, whose names share one
  table of label offsets.
 */
module Resources {
  import opened Common
  import opened Encoding
  import opened DnsNames

  datatype Record =
    | Ds(keyTag: nat, algorithm: nat, digestType: nat, digest: seq<Byte>)
    | Ns(nameServer: seq<Label>)
    | Glue(nameServer: seq<Label>, address: seq<Byte>)
    | Synth(address: seq<Byte>)
    | Txt(strings: seq<seq<Byte>>)

  datatype Error = TooLarge | UnsupportedVersion | Malformed

  function ParseNameAt(raw: seq<Byte>, table: Table, s: seq<Byte>): (p: Parsed<seq<Label>>)
    requires |s| <= |raw|
    ensures p.Parsed? ==> |p.rest| < |s|
  {
    var start := |raw| - |s|;
    if Acceptable(raw, table, start) then
      var w := Walk(raw, table, start).value;
      Parsed(w.labels, raw[w.end..])
    else Failed
  }

  function ParseText(s: seq<Byte>): (p: Parsed<seq<Byte>>)
    ensures p.Parsed? ==> |p.rest| < |s|
  {
    var (length, s) :- ReadLe(s, 1);
    Take(s, length)
  }

  function ParseTexts(n: nat, s: seq<Byte>): (p: Parsed<seq<seq<Byte>>>)
    ensures p.Parsed? ==> |p.rest| <= |s|
  {
    if n == 0 then Parsed([], s)
    else
      var (text, s) :- ParseText(s);
      var (texts, s) :- ParseTexts(n - 1, s);
      Parsed([text] + texts, s)
  }

  function ParseDs(s: seq<Byte>): (p: Parsed<Record>)
    ensures p.Parsed? ==> |p.rest| <= |s|
  {
    var (tag, s) :- Take(s, 2);
    var (algorithm, s) :- ReadLe(s, 1);
    var (digestType, s) :- ReadLe(s, 1);
    var (length, s) :- ReadLe(s, 1);
    var (digest, s) :- Take(s, length);
    Parsed(Ds(tag[0] as int * 256 + tag[1] as int, algorithm, digestType, digest), s)
  }

  /** Octets of the address that follows a name or stands alone, by record kind. */
  function AddressSize(kind: nat): nat {
    if kind == 2 || kind == 4 then 4 else 16
  }

  function ParseBody(raw: seq<Byte>, table: Table, kind: nat, s: seq<Byte>): (p: Parsed<Record>)
    requires |s| <= |raw|
    ensures p.Parsed? ==> |p.rest| <= |s|
  {
    if kind == 0 then ParseDs(s)
    else if 1 <= kind <= 3 then
      var (name, s) :- ParseNameAt(raw, table, s);
      if kind == 1 then Parsed(Ns(name), s)
      else
        var (address, s) :- Take(s, AddressSize(kind));
        Parsed(Glue(name, address), s)
    else if kind == 4 || kind == 5 then
      var (address, s) :- Take(s, AddressSize(kind));
      Parsed(Synth(address), s)
    else if kind == 6 then
      var (count, s) :- ReadLe(s, 1);
      var (strings, s) :- ParseTexts(count, s);
      Parsed(Txt(strings), s)
    else Failed
  }

  /** A record that holds a name adds that name's labels to the table. */
  function TableAfter(raw: seq<Byte>, table: Table, kind: nat, s: seq<Byte>): Table
    requires |s| <= |raw|
  {
    if 1 <= kind <= 3 then Extend(raw, table, |raw| - |s|) else table
  }

  function ParseRecords(raw: seq<Byte>, table: Table, s: seq<Byte>): Option<seq<Record>>
    requires |s| <= |raw|
    decreases |s|
  {
    if s == [] then Some([])
    else
      var kind, body := s[0], s[1..];
      var p := ParseBody(raw, table, kind, body);
      if p.Failed? then None
      else
        var rest := ParseRecords(raw, TableAfter(raw, table, kind, body), p.rest);
        if rest.None? then None else Some([p.value] + rest.value)
  }

  function ParseResource(raw: seq<Byte>): Result<seq<Record>, Error> {
    if |raw| > MAX_RESOURCE_SIZE then Err(TooLarge)
    else if raw == [] then Err(Malformed)
    else if raw[0] != 0 then Err(UnsupportedVersion)
    else
      var records := ParseRecords(raw, map[], raw[1..]);
      if records.None? then Err(Malformed) else Ok(records.value)
  }

  // ---- the imperative decoder ----

  /** One octet is below 256. */
  lemma OneByte(s: seq<Byte>)
    requires ReadLe(s, 1).Parsed?
    ensures ReadLe(s, 1).value <= 255 && ReadLe(s, 1) == Parsed(s[0], s[1..])
  {
    var one := s[..1];
    assert one[1..] == [] && LeVal(one[1..]) == 0;
    assert LeVal(one) == one[0] as int + 256 * LeVal(one[1..]);
  }

  method DecodeText(decoder: Decoder) returns (r: Option<seq<Byte>>)
    requires decoder.Valid()
    modifies decoder
    ensures decoder.Valid()
    ensures r.None? <==> ParseText(old(decoder.Rest())).Failed?
    ensures r.Some? ==> ParseText(old(decoder.Rest())) == Parsed(r.value, decoder.Rest())
  {
    ghost var s := decoder.Rest();
    var length := decoder.ReadInteger(1);
    if length.Err? { return None; }
    OneByte(s);
    var text := decoder.ReadBounded(length.value, 255);
    if text.Err? { return None; }
    r := Some(text.value);
  }

  /** The texts read so far followed by those still to come are the texts of the record. */
  ghost predicate Collecting(whole: Parsed<seq<seq<Byte>>>, strings: seq<seq<Byte>>, later: Parsed<seq<seq<Byte>>>) {
    && (whole.Failed? <==> later.Failed?)
    && (whole.Parsed? ==> whole.rest == later.rest && whole.value == strings + later.value)
  }

  lemma CollectText(whole: Parsed<seq<seq<Byte>>>, strings: seq<seq<Byte>>, n: nat, s: seq<Byte>)
    requires n > 0 && Collecting(whole, strings, ParseTexts(n, s))
    ensures ParseText(s).Failed? ==> whole.Failed?
    ensures ParseText(s).Parsed? ==>
              Collecting(whole, strings + [ParseText(s).value], ParseTexts(n - 1, ParseText(s).rest))
  {
    if ParseText(s).Parsed? && whole.Parsed? {
      var text, rest := ParseText(s).value, ParseTexts(n - 1, ParseText(s).rest);
      assert strings + ([text] + rest.value) == (strings + [text]) + rest.value;
    }
  }

  method DecodeTexts(count: nat, decoder: Decoder) returns (r: Option<seq<seq<Byte>>>)
    requires decoder.Valid()
    modifies decoder
    ensures decoder.Valid()
    ensures r.None? <==> ParseTexts(count, old(decoder.Rest())).Failed?
    ensures r.Some? ==> ParseTexts(count, old(decoder.Rest())) == Parsed(r.value, decoder.Rest())
  {
    var strings := [];
    ghost var whole := ParseTexts(count, decoder.Rest());
    for i := 0 to count
      invariant decoder.Valid()
      invariant Collecting(whole, strings, ParseTexts(count - i, decoder.Rest()))
    {
      CollectText(whole, strings, count - i, decoder.Rest());
      var text := DecodeText(decoder);
      if text.None? { return None; }
      strings := strings + [text.value];
    }
    assert strings + [] == strings;
    r := Some(strings);
  }

  method DecodeDs(decoder: Decoder) returns (r: Option<Record>)
    requires decoder.Valid()
    modifies decoder
    ensures decoder.Valid()
    ensures r.None? <==> ParseDs(old(decoder.Rest())).Failed?
    ensures r.Some? ==> ParseDs(old(decoder.Rest())) == Parsed(r.value, decoder.Rest())
  {
    var tag := decoder.ReadSlice(2);
    if tag.Err? { return None; }
    var algorithm := decoder.ReadInteger(1);
    if algorithm.Err? { return None; }
    var digestType := decoder.ReadInteger(1);
    if digestType.Err? { return None; }
    ghost var s := decoder.Rest();
    var length := decoder.ReadInteger(1);
    if length.Err? { return None; }
    OneByte(s);
    var digest := decoder.ReadBounded(length.value, 255);
    if digest.Err? { return None; }
    r := Some(Ds(tag.value[0] as int * 256 + tag.value[1] as int, algorithm.value, digestType.value, digest.value));
  }

  /** The body of a record that starts with a name. */
  method DecodeNamed(raw: seq<Byte>, kind: nat, decoder: Decoder, known: array<bool>, ghost table: Table)
    returns (r: Option<Record>, ghost table': Table)
    requires 1 <= kind <= 3 && |raw| <= MAX_RESOURCE_SIZE && decoder.input == raw && decoder.Valid()
    requires Marks(known, table) && WellTabled(raw, table, decoder.position)
    modifies decoder, known
    ensures decoder.Valid()
    ensures r.None? <==> ParseBody(raw, table, kind, old(decoder.Rest())).Failed?
    ensures r.Some? ==>
              && ParseBody(raw, table, kind, old(decoder.Rest())) == Parsed(r.value, decoder.Rest())
              && table' == TableAfter(raw, table, kind, old(decoder.Rest()))
              && Marks(known, table') && WellTabled(raw, table', decoder.position)
  {
    var name;
    name, table' := DecodeName(raw, decoder, known, table);
    if name.Err? { return None, table; }
    if kind == 1 {
      return Some(Ns(name.value)), table';
    }
    var address := decoder.ReadSlice(AddressSize(kind));
    if address.Err? { return None, table; }
    r := Some(Glue(name.value, address.value));
  }

  /** A record body, keeping the table of known label offsets in step with the bits. */
  method DecodeBody(raw: seq<Byte>, kind: nat, decoder: Decoder, known: array<bool>, ghost table: Table)
    returns (r: Option<Record>, ghost table': Table)
    requires |raw| <= MAX_RESOURCE_SIZE && decoder.input == raw && decoder.Valid()
    requires Marks(known, table) && WellTabled(raw, table, decoder.position)
    modifies decoder, known
    ensures decoder.Valid()
    ensures r.None? <==> ParseBody(raw, table, kind, old(decoder.Rest())).Failed?
    ensures r.Some? ==>
              && ParseBody(raw, table, kind, old(decoder.Rest())) == Parsed(r.value, decoder.Rest())
              && table' == TableAfter(raw, table, kind, old(decoder.Rest()))
              && Marks(known, table') && WellTabled(raw, table', decoder.position)
  {
    table' := table;
    if kind == 0 {
      r := DecodeDs(decoder);
    } else if 1 <= kind <= 3 {
      r, table' := DecodeNamed(raw, kind, decoder, known, table);
    } else if kind == 4 || kind == 5 {
      var address := decoder.ReadSlice(AddressSize(kind));
      if address.Err? { return None, table; }
      r := Some(Synth(address.value));
    } else if kind == 6 {
      var count := decoder.ReadInteger(1);
      if count.Err? { return None, table; }
      var strings := DecodeTexts(count.value, decoder);
      if strings.None? { return None, table; }
      r := Some(Txt(strings.value));
    } else {
      r := None;
    }
  }

  lemma TableReaches(raw: seq<Byte>, table: Table, p: nat, q: nat)
    requires WellTabled(raw, table, p) && p <= q
    ensures WellTabled(raw, table, q)
  {
  }

  /** Decodes a whole resource: one pass, one shared table, every byte consumed. */
  method DecodeResource(raw: seq<Byte>) returns (r: Result<seq<Record>, Error>)
    ensures r == ParseResource(raw)
  {
    if |raw| > MAX_RESOURCE_SIZE {
      return Err(TooLarge);
    }
    var decoder := new Decoder(raw);
    var version := decoder.ReadInteger(1);
    if version.Err? {
      return Err(Malformed);
    }
    OneByte(raw);
    if version.value != 0 {
      return Err(UnsupportedVersion);
    }
    r := DecodeRecords(raw, decoder);
  }

  /** What was read already, in front of what the rest gives. */
  ghost function After(records: seq<Record>, rest: Option<seq<Record>>): Option<seq<Record>> {
    if rest.None? then None else Some(records + rest.value)
  }

  lemma ParseNone(raw: seq<Byte>, table: Table, s: seq<Byte>)
    requires s == []
    ensures ParseRecords(raw, table, s) == Some([])
  {
  }

  /** One record read off the front. */
  lemma ParseOne(raw: seq<Byte>, table: Table, s: seq<Byte>, records: seq<Record>)
    requires s != [] && |s| <= |raw|
    ensures var p := ParseBody(raw, table, s[0], s[1..]);
            After(records, ParseRecords(raw, table, s))
            == if p.Failed? then None else After(records + [p.value], ParseRecords(raw, TableAfter(raw, table, s[0], s[1..]), p.rest))
  {
    hide ParseBody, TableAfter;
    var p := ParseBody(raw, table, s[0], s[1..]);
    if !p.Failed? {
      var rest := ParseRecords(raw, TableAfter(raw, table, s[0], s[1..]), p.rest);
      if rest.Some? {
        assert records + ([p.value] + rest.value) == (records + [p.value]) + rest.value;
      }
    }
  }

  method DecodeRecords(raw: seq<Byte>, decoder: Decoder) returns (r: Result<seq<Record>, Error>)
    requires |raw| <= MAX_RESOURCE_SIZE && decoder.input == raw && decoder.Valid()
    modifies decoder
    ensures var records := ParseRecords(raw, map[], old(decoder.Rest()));
            r == if records.None? then Err(Malformed) else Ok(records.value)
  {
    hide ParseBody, TableAfter, ParseRecords;
    var known := new bool[MAX_RESOURCE_SIZE](_ => false);
    ghost var table: Table := map[];
    ghost var whole := ParseRecords(raw, table, decoder.Rest());
    var records := [];
    var remaining := decoder.Remaining();
    assert whole.Some? ==> [] + whole.value == whole.value;
    while remaining != 0
      invariant decoder.Valid() && remaining == |decoder.Rest()|
      invariant Marks(known, table) && WellTabled(raw, table, decoder.position)
      invariant whole == After(records, ParseRecords(raw, table, decoder.Rest()))
      decreases remaining
    {
      ghost var s := decoder.Rest();
      var kind := decoder.ReadInteger(1);
      OneByte(s);
      TableReaches(raw, table, |raw| - |s|, decoder.position);
      var record;
      ParseOne(raw, table, s, records);
      record, table := DecodeBody(raw, kind.value, decoder, known, table);
      if record.None? {
        return Err(Malformed);
      }
      records := records + [record.value];
      remaining := decoder.Remaining();
    }
    ParseNone(raw, table, decoder.Rest());
    assert records + [] == records;
    r := Ok(records);
  }
}
