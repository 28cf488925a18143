/** What the records of a resource look like on the wire, apart from the parser: a writer, and that parsing undoes it. */
module ResourceWriters {
  import opened Common
  import opened Encoding
  import opened DnsNames
  import opened Resources

  // ---- what can be written ----

  /** Labels of 1 to 63 octets, 255 octets in all. */
  predicate WritableName(labels: seq<Label>) {
    (forall i :: 0 <= i < |labels| ==> 0 < |labels[i]| < 64) && Expanded(labels) <= MAX_DNS_NAME_SIZE
  }

  predicate Writable(r: Record) {
    match r
    case Ds(tag, algorithm, digestType, digest) => tag < 65_536 && algorithm < 256 && digestType < 256 && |digest| < 256
    case Ns(name) => WritableName(name)
    case Glue(name, address) => WritableName(name) && (|address| == 4 || |address| == 16)
    case Synth(address) => |address| == 4 || |address| == 16
    case Txt(strings) => |strings| < 256 && forall i :: 0 <= i < |strings| ==> |strings[i]| < 256
  }

  // ---- the writer ----

  /** A name as literal labels, each behind its length, and the root. */
  function PutName(labels: seq<Label>): seq<Byte> {
    if labels == [] then [0] else PutText(labels[0]) + PutName(labels[1..])
  }

  /** Octets behind their number. */
  function PutText(text: seq<Byte>): seq<Byte> {
    [|text| % 256] + text
  }

  function PutTexts(texts: seq<seq<Byte>>): seq<Byte> {
    if texts == [] then [] else PutText(texts[0]) + PutTexts(texts[1..])
  }

  /** The assigned tag. */
  function Kind(r: Record): Byte {
    match r
    case Ds(_, _, _, _) => 0
    case Ns(_) => 1
    case Glue(_, address) => if |address| == 4 then 2 else 3
    case Synth(address) => if |address| == 4 then 4 else 5
    case Txt(_) => 6
  }

  function PutBody(r: Record): seq<Byte> {
    match r
    case Ds(tag, algorithm, digestType, digest) => [tag / 256 % 256, tag % 256, algorithm % 256, digestType % 256] + PutText(digest)
    case Ns(name) => PutName(name)
    case Glue(name, address) => PutName(name) + address
    case Synth(address) => address
    case Txt(strings) => [|strings| % 256] + PutTexts(strings)
  }

  function PutRecords(records: seq<Record>): seq<Byte> {
    if records == [] then [] else [Kind(records[0])] + PutBody(records[0]) + PutRecords(records[1..])
  }

  // ---- parsing undoes writing ----

  lemma OctetRead(b: Byte, rest: seq<Byte>)
    ensures ReadLe([b] + rest, 1) == Parsed(b, rest)
  {
    var s := [b] + rest;
    assert s[..1] == [b] && s[1..] == rest;
    assert [b][1..] == [] && LeVal([b]) == b as int + 256 * LeVal([b][1..]);
  }

  lemma TakeRead(a: seq<Byte>, rest: seq<Byte>)
    ensures Take(a + rest, |a|) == Parsed(a, rest)
  {
    assert (a + rest)[..|a|] == a && (a + rest)[|a|..] == rest;
  }

  lemma TextRead(text: seq<Byte>, rest: seq<Byte>)
    requires |text| < 256
    ensures ParseText(PutText(text) + rest) == Parsed(text, rest)
  {
    OctetRead(|text|, text + rest);
    assert PutText(text) + rest == [|text| as Byte] + (text + rest);
    TakeRead(text, rest);
  }

  lemma {:induction false} TextsRead(texts: seq<seq<Byte>>, rest: seq<Byte>)
    requires forall i :: 0 <= i < |texts| ==> |texts[i]| < 256
    ensures ParseTexts(|texts|, PutTexts(texts) + rest) == Parsed(texts, rest)
    decreases |texts|
  {
    hide ParseText, PutText;
    if texts == [] {
      assert PutTexts(texts) + rest == rest;
    } else {
      TextsRead(texts[1..], rest);
      TextRead(texts[0], PutTexts(texts[1..]) + rest);
      assert PutTexts(texts) + rest == PutText(texts[0]) + (PutTexts(texts[1..]) + rest);
      assert texts == [texts[0]] + texts[1..];
    }
  }

  lemma {:induction false} NameSize(labels: seq<Label>)
    requires forall i :: 0 <= i < |labels| ==> 0 < |labels[i]| < 64
    ensures |PutName(labels)| == Expanded(labels)
  {
    if labels != [] {
      NameSize(labels[1..]);
    }
  }

  lemma LabelAt(raw: seq<Byte>, p: nat, text: seq<Byte>, tail: seq<Byte>)
    requires p <= |raw| && raw[p..] == PutText(text) + tail && |text| < 256
    ensures var q := p + 1 + |text|;
            q <= |raw| && raw[p] == |text| && raw[p + 1..q] == text && raw[q..] == tail
  {
    var s := raw[p..];
    assert raw[p] == s[0];
    assert raw[p + 1..p + 1 + |text|] == s[1..1 + |text|] == text;
    assert raw[p + 1 + |text|..] == s[1 + |text|..] == tail;
  }

  lemma LabelWalk(raw: seq<Byte>, table: Table, p: nat, text: seq<Byte>, w: Layout)
    requires 0 < |text| < 64 && p < |raw| && raw[p] == |text|
    requires var q := p + 1 + |text|; q <= |raw| && raw[p + 1..q] == text && Walk(raw, table, q) == Some(w)
    ensures Walk(raw, table, p) == Some(Layout([text] + w.labels, w.pointers, w.end))
  {
  }

  /** Literal labels are walked without the table. */
  lemma {:induction false} NameWalk(raw: seq<Byte>, table: Table, p: nat, labels: seq<Label>, rest: seq<Byte>)
    requires (forall i :: 0 <= i < |labels| ==> 0 < |labels[i]| < 64) && p <= |raw| && raw[p..] == PutName(labels) + rest
    ensures Walk(raw, table, p) == Some(Layout(labels, 0, |raw| - |rest|))
    decreases |labels|
  {
    hide PutText;
    if labels == [] {
      assert raw[p..][0] == 0;
    } else {
      hide Walk;
      var first := labels[0];
      var tail := PutName(labels[1..]) + rest;
      assert raw[p..] == PutText(first) + tail;
      LabelAt(raw, p, first, tail);
      NameWalk(raw, table, p + 1 + |first|, labels[1..], rest);
      LabelWalk(raw, table, p, first, Layout(labels[1..], 0, |raw| - |rest|));
      assert labels == [first] + labels[1..];
    }
  }

  lemma NameRead(raw: seq<Byte>, table: Table, s: seq<Byte>, labels: seq<Label>, rest: seq<Byte>)
    requires WritableName(labels) && |s| <= |raw| && s == raw[|raw| - |s|..] && s == PutName(labels) + rest
    ensures ParseNameAt(raw, table, s) == Parsed(labels, rest)
  {
    hide Walk, PutName;
    var p := |raw| - |s|;
    NameWalk(raw, table, p, labels, rest);
    assert raw[|raw| - |rest|..] == rest by {
      assert raw[|raw| - |rest|..] == s[|s| - |rest|..];
    }
  }

  lemma DsRead(r: Record, rest: seq<Byte>)
    requires r.Ds? && Writable(r)
    ensures ParseDs(PutBody(r) + rest) == Parsed(r, rest)
  {
    hide ReadLe, Take;
    var hi: Byte, lo: Byte, a: Byte, d: Byte := r.keyTag / 256, r.keyTag % 256, r.algorithm, r.digestType;
    var s4 := PutText(r.digest) + rest;
    var s3 := [d] + s4;
    var s2 := [a] + s3;
    assert PutBody(r) + rest == [hi, lo] + s2;
    TakeRead([hi, lo], s2);
    OctetRead(a, s3);
    OctetRead(d, s4);
    assert s4 == [|r.digest| as Byte] + (r.digest + rest);
    OctetRead(|r.digest|, r.digest + rest);
    TakeRead(r.digest, rest);
  }

  lemma GlueRead(raw: seq<Byte>, table: Table, s: seq<Byte>, r: Record, rest: seq<Byte>)
    requires r.Glue? && Writable(r) && |s| <= |raw| && s == raw[|raw| - |s|..] && s == PutBody(r) + rest
    ensures ParseBody(raw, table, Kind(r), s) == Parsed(r, rest)
  {
    hide ParseNameAt, PutName, Take, WritableName;
    assert s == PutName(r.nameServer) + (r.address + rest);
    NameRead(raw, table, s, r.nameServer, r.address + rest);
    TakeRead(r.address, rest);
  }

  lemma TxtRead(raw: seq<Byte>, table: Table, s: seq<Byte>, r: Record, rest: seq<Byte>)
    requires r.Txt? && Writable(r) && |s| <= |raw| && s == PutBody(r) + rest
    ensures ParseBody(raw, table, Kind(r), s) == Parsed(r, rest)
  {
    hide ParseTexts, PutTexts, ReadLe;
    assert s == [|r.strings| as Byte] + (PutTexts(r.strings) + rest);
    OctetRead(|r.strings|, PutTexts(r.strings) + rest);
    TextsRead(r.strings, rest);
  }

  /** Each kind of record, wherever it stands and whatever follows. */
  lemma BodyRead(raw: seq<Byte>, table: Table, s: seq<Byte>, r: Record, rest: seq<Byte>)
    requires Writable(r) && |s| <= |raw| && s == raw[|raw| - |s|..] && s == PutBody(r) + rest
    ensures ParseBody(raw, table, Kind(r), s) == Parsed(r, rest)
  {
    hide ParseNameAt, ParseDs, ParseTexts, PutName, PutTexts, ReadLe, Take;
    match r
    case Ds(_, _, _, _) => DsRead(r, rest);
    case Ns(name) => NameRead(raw, table, s, name, rest);
    case Glue(_, _) => GlueRead(raw, table, s, r, rest);
    case Synth(address) => TakeRead(address, rest);
    case Txt(_) => TxtRead(raw, table, s, r, rest);
  }

  lemma {:induction false} RecordsRead(raw: seq<Byte>, table: Table, s: seq<Byte>, records: seq<Record>)
    requires (forall i :: 0 <= i < |records| ==> Writable(records[i])) && |s| <= |raw| && s == raw[|raw| - |s|..] && s == PutRecords(records)
    ensures ParseRecords(raw, table, s) == Some(records)
    decreases |records|
  {
    hide ParseBody, PutBody, Writable, TableAfter;
    if records != [] {
      var r := records[0];
      var rest := PutRecords(records[1..]);
      var body := PutBody(r) + rest;
      assert s == [Kind(r)] + body;
      assert s[1..] == body && body == raw[|raw| - |body|..];
      BodyRead(raw, table, body, r, rest);
      assert rest == raw[|raw| - |rest|..] by {
        assert rest == body[|body| - |rest|..];
      }
      RecordsRead(raw, TableAfter(raw, table, Kind(r), body), rest, records[1..]);
      assert records == [r] + records[1..];
    }
  }

  /** A resource of writable records that fits parses to exactly those records. */
  lemma ResourceRoundTrip(records: seq<Record>)
    requires (forall i :: 0 <= i < |records| ==> Writable(records[i])) && 1 + |PutRecords(records)| <= MAX_RESOURCE_SIZE
    ensures ParseResource([0] + PutRecords(records)) == Ok(records)
  {
    var raw: seq<Byte> := [0] + PutRecords(records);
    assert raw[1..] == PutRecords(records);
    RecordsRead(raw, map[], raw[1..], records);
  }
}
