/**
  The persistence image of the replay ledger: a checksummed header and the entries in strict key order.

  Keys and digests are fixed-size byte arrays; each is represented by the number it spells in big-endian order, so
  that numeric order is byte order. The checksum and public-key validity are parameters.
 */
module LedgerSnapshots {
  import opened Common
  import opened Encoding
  import opened Tallies
  import Replay
  import L = ReplayLedger
  import opened RouteStores
  import opened RouteStoreInvariants

  const HEADER_SIZE: nat := 44
  const ENTRY_SIZE: nat := 155
  const CHECKSUM_SIZE: nat := 32

  /** "HNSRV3L" and a zero byte. */
  const Magic: seq<Byte> := [72, 78, 83, 82, 86, 51, 76, 0]

  type Checksum = seq<Byte> -> seq<Byte>

  // ---- fixed-size arrays ----

  function PutBe(v: nat, n: nat): (s: seq<Byte>)
    ensures |s| == n
  {
    if n == 0 then [] else PutBe(v / 256, n - 1) + [v % 256]
  }

  function BeVal(s: seq<Byte>): nat {
    if s == [] then 0 else 256 * BeVal(s[..|s| - 1]) + s[|s| - 1] as int
  }

  function ReadBe(s: seq<Byte>, n: nat): Parsed<nat> {
    if n <= |s| then Parsed(BeVal(s[..n]), s[n..]) else Failed
  }

  lemma {:induction false} BeRoundTrip(v: nat, n: nat)
    requires v < Encoding.Capacity(n)
    ensures BeVal(PutBe(v, n)) == v
  {
    if n > 0 {
      BeRoundTrip(v / 256, n - 1);
      assert PutBe(v, n)[..n - 1] == PutBe(v / 256, n - 1);
    }
  }

  lemma ReadPutBe(v: nat, n: nat, rest: seq<Byte>)
    requires v < Encoding.Capacity(n)
    ensures ReadBe(PutBe(v, n) + rest, n) == Parsed(v, rest)
  {
    BeRoundTrip(v, n);
    assert (PutBe(v, n) + rest)[..n] == PutBe(v, n);
    assert (PutBe(v, n) + rest)[n..] == rest;
  }

  // ---- one entry ----

  datatype Item = Item(key: LedgerKey, entry: L.Entry)

  function PutFlag(b: bool): seq<Byte> {
    [if b then 1 else 0]
  }

  function ReadFlag(s: seq<Byte>): Parsed<bool> {
    if s == [] || s[0] > 1 then Failed else Parsed(s[0] == 1, s[1..])
  }

  function PutKey(k: LedgerKey): (s: seq<Byte>)
    ensures |s| == 65
  {
    PutBe(k.routeKey, 32) + PutBe(k.endpointKey, 33)
  }

  function ReadKey(s: seq<Byte>): Parsed<LedgerKey> {
    var (r, t) :- ReadBe(s, 32);
    var (e, u) :- ReadBe(t, 33);
    Parsed(LedgerKey(r, e), u)
  }

  function PutEndpoint(c: L.Counter): (s: seq<Byte>)
    ensures |s| == 41
  {
    PutLe(c.high, 8) + (PutBe(c.id, 32) + PutFlag(c.conflicted))
  }

  function ReadEndpoint(s: seq<Byte>): Parsed<L.Counter> {
    var (high, t) :- ReadLe(s, 8);
    var (id, u) :- ReadBe(t, 32);
    var (conflicted, v) :- ReadFlag(u);
    Parsed(Replay.Counter(high, conflicted, id), v)
  }

  function PutRoute(c: L.Counter, retain: nat): (s: seq<Byte>)
    ensures |s| == 49
  {
    PutLe(c.high, 8) + (PutLe(retain, 8) + (PutFlag(c.conflicted) + PutBe(c.id, 32)))
  }

  function ReadRoute(s: seq<Byte>): Parsed<(L.Counter, nat)> {
    var (high, t) :- ReadLe(s, 8);
    var (retain, u) :- ReadLe(t, 8);
    var (conflicted, v) :- ReadFlag(u);
    var (id, w) :- ReadBe(v, 32);
    Parsed((Replay.Counter(high, conflicted, id), retain), w)
  }

  function PutItem(i: Item): (s: seq<Byte>)
    ensures |s| == ENTRY_SIZE
  {
    PutKey(i.key) + (PutEndpoint(i.entry.endpoint) + PutRoute(i.entry.route, i.entry.retainUntil))
  }

  function ReadItem(s: seq<Byte>): Parsed<Item> {
    var (k, t) :- ReadKey(s);
    var (e, u) :- ReadEndpoint(t);
    var (r, v) :- ReadRoute(u);
    Parsed(Item(k, L.Entry(e, r.0, r.1)), v)
  }

  /** Every number fits the field it is written to. */
  predicate Fits(i: Item) {
    && i.key.routeKey < Encoding.Capacity(32) && i.key.endpointKey < Encoding.Capacity(33)
    && i.entry.endpoint.high < Encoding.Capacity(8) && i.entry.endpoint.id < Encoding.Capacity(32)
    && i.entry.route.high < Encoding.Capacity(8) && i.entry.route.id < Encoding.Capacity(32) && i.entry.retainUntil < Encoding.Capacity(8)
  }

  lemma ReadPutFlag(b: bool, rest: seq<Byte>)
    ensures ReadFlag(PutFlag(b) + rest) == Parsed(b, rest)
  {
    assert (PutFlag(b) + rest)[1..] == rest;
  }

  lemma ReadPutKey(k: LedgerKey, rest: seq<Byte>)
    requires k.routeKey < Encoding.Capacity(32) && k.endpointKey < Encoding.Capacity(33)
    ensures ReadKey(PutKey(k) + rest) == Parsed(k, rest)
  {
    hide Encoding.Capacity, PutBe, ReadBe;
    assert PutKey(k) + rest == PutBe(k.routeKey, 32) + (PutBe(k.endpointKey, 33) + rest);
    ReadPutBe(k.routeKey, 32, PutBe(k.endpointKey, 33) + rest);
    ReadPutBe(k.endpointKey, 33, rest);
  }

  lemma ReadPutEndpoint(c: L.Counter, rest: seq<Byte>)
    requires c.high < Encoding.Capacity(8) && c.id < Encoding.Capacity(32)
    ensures ReadEndpoint(PutEndpoint(c) + rest) == Parsed(c, rest)
  {
    hide Encoding.Capacity, PutBe, ReadBe, PutLe, ReadLe, PutFlag, ReadFlag;
    assert PutEndpoint(c) + rest == PutLe(c.high, 8) + (PutBe(c.id, 32) + (PutFlag(c.conflicted) + rest));
    ReadPutLe(c.high, 8, PutBe(c.id, 32) + (PutFlag(c.conflicted) + rest));
    ReadPutBe(c.id, 32, PutFlag(c.conflicted) + rest);
    ReadPutFlag(c.conflicted, rest);
  }

  lemma ReadPutRoute(c: L.Counter, retain: nat, rest: seq<Byte>)
    requires c.high < Encoding.Capacity(8) && c.id < Encoding.Capacity(32) && retain < Encoding.Capacity(8)
    ensures ReadRoute(PutRoute(c, retain) + rest) == Parsed((c, retain), rest)
  {
    hide Encoding.Capacity, PutBe, ReadBe, PutLe, ReadLe, PutFlag, ReadFlag;
    assert PutRoute(c, retain) + rest == PutLe(c.high, 8) + (PutLe(retain, 8) + (PutFlag(c.conflicted) + (PutBe(c.id, 32) + rest)));
    ReadPutLe(c.high, 8, PutLe(retain, 8) + (PutFlag(c.conflicted) + (PutBe(c.id, 32) + rest)));
    ReadPutLe(retain, 8, PutFlag(c.conflicted) + (PutBe(c.id, 32) + rest));
    ReadPutFlag(c.conflicted, PutBe(c.id, 32) + rest);
    ReadPutBe(c.id, 32, rest);
  }

  lemma ReadPutItem(i: Item, rest: seq<Byte>)
    requires Fits(i)
    ensures ReadItem(PutItem(i) + rest) == Parsed(i, rest)
  {
    hide Encoding.Capacity, PutKey, ReadKey, PutEndpoint, ReadEndpoint, PutRoute, ReadRoute;
    var e, r := PutEndpoint(i.entry.endpoint), PutRoute(i.entry.route, i.entry.retainUntil);
    assert PutItem(i) + rest == PutKey(i.key) + (e + (r + rest));
    ReadPutKey(i.key, e + (r + rest));
    ReadPutEndpoint(i.entry.endpoint, r + rest);
    ReadPutRoute(i.entry.route, i.entry.retainUntil, rest);
  }

  // ---- the entries ----

  function PutItems(items: seq<Item>): (s: seq<Byte>)
    ensures |s| == |items| * ENTRY_SIZE
  {
    if items == [] then [] else PutItem(items[0]) + PutItems(items[1..])
  }

  predicate KeyLess(a: LedgerKey, b: LedgerKey) {
    a.routeKey < b.routeKey || (a.routeKey == b.routeKey && a.endpointKey < b.endpointKey)
  }

  /** Where the decoder stands: the last key, how long its run of equal route keys is, and the bounds. */
  datatype Cursor = Cursor(previous: Option<LedgerKey>, run: nat, perKey: nat, prunedThrough: nat)

  function Advance(c: Cursor, k: LedgerKey): Cursor {
    c.(previous := Some(k), run := if c.previous.Some? && c.previous.value.routeKey == k.routeKey then c.run + 1 else 1)
  }

  /** The checks on one entry. */
  predicate Admits(c: Cursor, i: Item, validKey: nat -> bool) {
    && validKey(i.key.endpointKey)
    && (c.previous.Some? ==> KeyLess(c.previous.value, i.key))
    && Advance(c, i.key).run <= c.perKey
    && i.entry.endpoint.high != 0 && i.entry.route.high != 0 && i.entry.retainUntil != 0 && i.entry.retainUntil > c.prunedThrough
  }

  function ReadItems(s: seq<Byte>, n: nat, c: Cursor, validKey: nat -> bool): Parsed<seq<Item>>
    decreases n
  {
    if n == 0 then Parsed([], s)
    else
      var (i, t) :- ReadItem(s);
      if !Admits(c, i, validKey) then Failed
      else
        var (rest, u) :- ReadItems(t, n - 1, Advance(c, i.key), validKey);
        Parsed([i] + rest, u)
  }

  /** What was read already, in front of what a read gives. */
  function Behind(items: seq<Item>, p: Parsed<seq<Item>>): Parsed<seq<Item>> {
    if p.Failed? then Failed else Parsed(items + p.value, p.rest)
  }

  /** The decoder's loop: one entry at a time, keeping the last key and the length of its run. */
  method DecodeItems(s: seq<Byte>, n: nat, start: Cursor, validKey: nat -> bool) returns (r: Parsed<seq<Item>>)
    ensures r == ReadItems(s, n, start, validKey)
  {
    hide ReadItem, Admits;
    var items: seq<Item>, rest, c := [], s, start;
    assert ReadItems(s, n, start, validKey).Parsed? ==> [] + ReadItems(s, n, start, validKey).value == ReadItems(s, n, start, validKey).value;
    for i := 0 to n
      invariant ReadItems(s, n, start, validKey) == Behind(items, ReadItems(rest, n - i, c, validKey))
    {
      var p := ReadItem(rest);
      if p.Failed? || !Admits(c, p.value, validKey) {
        return Failed;
      }
      ghost var next := ReadItems(p.rest, n - i - 1, Advance(c, p.value.key), validKey);
      assert next.Parsed? ==> items + ([p.value] + next.value) == (items + [p.value]) + next.value;
      items := items + [p.value];
      rest := p.rest;
      c := Advance(c, p.value.key);
    }
    assert items + [] == items;
    return Parsed(items, rest);
  }

  predicate AdmitsAll(c: Cursor, items: seq<Item>, validKey: nat -> bool)
    decreases |items|
  {
    items == [] || (Admits(c, items[0], validKey) && AdmitsAll(Advance(c, items[0].key), items[1..], validKey))
  }

  lemma {:induction false} ReadPutItems(items: seq<Item>, c: Cursor, validKey: nat -> bool, rest: seq<Byte>)
    requires AdmitsAll(c, items, validKey) && forall i :: 0 <= i < |items| ==> Fits(items[i])
    ensures ReadItems(PutItems(items) + rest, |items|, c, validKey) == Parsed(items, rest)
    decreases |items|
  {
    hide PutItem, ReadItem, Fits;
    if items == [] {
      assert PutItems(items) + rest == rest;
    } else {
      assert PutItems(items) + rest == PutItem(items[0]) + (PutItems(items[1..]) + rest);
      ReadPutItem(items[0], PutItems(items[1..]) + rest);
      ReadPutItems(items[1..], Advance(c, items[0].key), validKey, rest);
      assert [items[0]] + items[1..] == items;
    }
  }

  // ---- the whole image ----

  datatype Image = Image(network: nat, capacity: nat, perKey: nat, revision: nat, prunedThrough: nat, items: seq<Item>)

  datatype Header = Header(network: nat, capacity: nat, perKey: nat, revision: nat, prunedThrough: nat, count: nat)

  function HeaderOf(i: Image): Header {
    Header(i.network, i.capacity, i.perKey, i.revision, i.prunedThrough, |i.items|)
  }

  /** Magic, schema 1 and three reserved zeros. */
  const Prefix: seq<Byte> := Magic + [1, 0, 0, 0]

  function PutBounds(h: Header): (s: seq<Byte>)
    ensures |s| == 12
  {
    PutLe(h.network, 4) + (PutLe(h.capacity, 4) + PutLe(h.perKey, 4))
  }

  function PutMarks(h: Header): (s: seq<Byte>)
    ensures |s| == 20
  {
    PutLe(h.revision, 8) + (PutLe(h.prunedThrough, 8) + PutLe(h.count, 4))
  }

  function PutHeader(h: Header): (s: seq<Byte>)
    ensures |s| == HEADER_SIZE
  {
    Prefix + (PutBounds(h) + PutMarks(h))
  }

  function ReadBounds(s: seq<Byte>): Parsed<(nat, nat, nat)> {
    var (network, t) :- ReadLe(s, 4);
    var (capacity, u) :- ReadLe(t, 4);
    var (perKey, v) :- ReadLe(u, 4);
    Parsed((network, capacity, perKey), v)
  }

  function ReadMarks(s: seq<Byte>): Parsed<(nat, nat, nat)> {
    var (revision, t) :- ReadLe(s, 8);
    var (prunedThrough, u) :- ReadLe(t, 8);
    var (count, v) :- ReadLe(u, 4);
    Parsed((revision, prunedThrough, count), v)
  }

  function ReadHeader(s: seq<Byte>): Parsed<Header> {
    var (prefix, t) :- Take(s, 12);
    if prefix != Prefix then Failed
    else
      var (b, u) :- ReadBounds(t);
      var (m, v) :- ReadMarks(u);
      Parsed(Header(b.0, b.1, b.2, m.0, m.1, m.2), v)
  }

  /** The header's own checks. */
  predicate Sound(h: Header) {
    && 0 < h.capacity <= MAX_STORED_RECORDS && 0 < h.perKey <= MAX_RECORDS_PER_KEY && h.perKey <= h.capacity
    && h.count <= h.capacity && h.count <= h.revision && h.revision != U64_MAX
    && !(h.revision == 0 && (h.count != 0 || h.prunedThrough != 0))
  }

  function Payload(i: Image): (s: seq<Byte>)
    ensures |s| == HEADER_SIZE + |i.items| * ENTRY_SIZE
  {
    PutHeader(HeaderOf(i)) + PutItems(i.items)
  }

  function Encode(i: Image, sum: Checksum): seq<Byte> {
    Payload(i) + sum(Payload(i))
  }

  function Decode(input: seq<Byte>, sum: Checksum, validKey: nat -> bool): Option<Image> {
    if |input| < HEADER_SIZE + CHECKSUM_SIZE || |input| > HEADER_SIZE + MAX_STORED_RECORDS * ENTRY_SIZE + CHECKSUM_SIZE then None
    else
      var payload := input[..|input| - CHECKSUM_SIZE];
      if input[|input| - CHECKSUM_SIZE..] != sum(payload) then None
      else
        var decoded := DecodePayload(payload, validKey);
        if decoded.Some? && Encode(decoded.value, sum) == input then decoded else None
  }

  function DecodePayload(payload: seq<Byte>, validKey: nat -> bool): Option<Image> {
    var h := ReadHeader(payload);
    if h.Failed? || !Sound(h.value) || |payload| != HEADER_SIZE + h.value.count * ENTRY_SIZE then None
    else
      var items := ReadItems(h.rest, h.value.count, Cursor(None, 0, h.value.perKey, h.value.prunedThrough), validKey);
      if items.Failed? || items.rest != [] then None
      else Some(Image(h.value.network, h.value.capacity, h.value.perKey, h.value.revision, h.value.prunedThrough, items.value))
  }

  lemma ReadPutBounds(h: Header, rest: seq<Byte>)
    requires h.network < Encoding.Capacity(4) && h.capacity < Encoding.Capacity(4) && h.perKey < Encoding.Capacity(4)
    ensures ReadBounds(PutBounds(h) + rest) == Parsed((h.network, h.capacity, h.perKey), rest)
  {
    hide Encoding.Capacity, PutLe, ReadLe;
    assert PutBounds(h) + rest == PutLe(h.network, 4) + (PutLe(h.capacity, 4) + (PutLe(h.perKey, 4) + rest));
    ReadPutLe(h.network, 4, PutLe(h.capacity, 4) + (PutLe(h.perKey, 4) + rest));
    ReadPutLe(h.capacity, 4, PutLe(h.perKey, 4) + rest);
    ReadPutLe(h.perKey, 4, rest);
  }

  lemma ReadPutMarks(h: Header, rest: seq<Byte>)
    requires h.revision < Encoding.Capacity(8) && h.prunedThrough < Encoding.Capacity(8) && h.count < Encoding.Capacity(4)
    ensures ReadMarks(PutMarks(h) + rest) == Parsed((h.revision, h.prunedThrough, h.count), rest)
  {
    hide Encoding.Capacity, PutLe, ReadLe;
    assert PutMarks(h) + rest == PutLe(h.revision, 8) + (PutLe(h.prunedThrough, 8) + (PutLe(h.count, 4) + rest));
    ReadPutLe(h.revision, 8, PutLe(h.prunedThrough, 8) + (PutLe(h.count, 4) + rest));
    ReadPutLe(h.prunedThrough, 8, PutLe(h.count, 4) + rest);
    ReadPutLe(h.count, 4, rest);
  }

  lemma ReadPutHeader(h: Header, rest: seq<Byte>)
    requires Sound(h) && h.network < Encoding.Capacity(4) && h.revision < Encoding.Capacity(8) && h.prunedThrough < Encoding.Capacity(8)
    ensures ReadHeader(PutHeader(h) + rest) == Parsed(h, rest)
  {
    Capacities();
    hide Encoding.Capacity, PutBounds, PutMarks, ReadBounds, ReadMarks;
    var s := PutHeader(h) + rest;
    assert s[..12] == Prefix && s[12..] == PutBounds(h) + (PutMarks(h) + rest);
    ReadPutBounds(h, PutMarks(h) + rest);
    ReadPutMarks(h, rest);
  }

  ghost predicate Writable(i: Image, validKey: nat -> bool) {
    && Sound(HeaderOf(i)) && i.network < Encoding.Capacity(4) && i.revision < Encoding.Capacity(8) && i.prunedThrough < Encoding.Capacity(8)
    && AdmitsAll(Cursor(None, 0, i.perKey, i.prunedThrough), i.items, validKey)
    && forall j :: 0 <= j < |i.items| ==> Fits(i.items[j])
  }

  lemma PayloadRoundTrip(i: Image, validKey: nat -> bool)
    requires Writable(i, validKey)
    ensures DecodePayload(Payload(i), validKey) == Some(i)
  {
    hide PutHeader, ReadHeader, PutItems, ReadItems, AdmitsAll, Fits, Encoding.Capacity;
    var h := HeaderOf(i);
    ReadPutHeader(h, PutItems(i.items));
    ReadPutItems(i.items, Cursor(None, 0, i.perKey, i.prunedThrough), validKey, []);
    assert PutItems(i.items) + [] == PutItems(i.items);
  }

  /** A well-formed image survives encoding and decoding. */
  lemma ImageRoundTrip(i: Image, sum: Checksum, validKey: nat -> bool)
    requires Writable(i, validKey) && |sum(Payload(i))| == CHECKSUM_SIZE
    ensures Decode(Encode(i, sum), sum, validKey) == Some(i)
  {
    hide Payload, DecodePayload;
    var input := Encode(i, sum);
    var n := |input| - CHECKSUM_SIZE;
    assert n == |Payload(i)| == HEADER_SIZE + |i.items| * ENTRY_SIZE;
    assert input[..n] == Payload(i) && input[n..] == sum(Payload(i));
    PayloadRoundTrip(i, validKey);
  }

  // ---- every reachable ledger is well-formed ----

  lemma {:induction false} HasLeast(keys: set<LedgerKey>)
    requires keys != {}
    ensures exists k :: k in keys && forall j :: j in keys && j != k ==> KeyLess(k, j)
    decreases |keys|
  {
    var x :| x in keys;
    var rest := keys - {x};
    assert forall j :: j in keys ==> j == x || j in rest;
    if rest != {} {
      HasLeast(rest);
      var k :| k in rest && forall j :: j in rest && j != k ==> KeyLess(k, j);
      assert KeyLess(x, k) || KeyLess(k, x) by {
        assert x == LedgerKey(x.routeKey, x.endpointKey) && k == LedgerKey(k.routeKey, k.endpointKey);
      }
      var least := if KeyLess(x, k) then x else k;
      forall j | j in keys && j != least ensures KeyLess(least, j) {
        assert j == x || j in rest;
      }
    }
  }

  function Least(keys: set<LedgerKey>): (k: LedgerKey)
    requires keys != {}
    ensures k in keys && forall j :: j in keys && j != k ==> KeyLess(k, j)
  {
    HasLeast(keys);
    var k :| k in keys && forall j :: j in keys && j != k ==> KeyLess(k, j);
    k
  }

  /** The ledger's entries in key order. */
  function Listing(ledger: map<LedgerKey, L.Entry>): seq<Item>
    decreases |ledger|
  {
    if ledger == map[] then []
    else
      var k := Least(ledger.Keys);
      RemoveSize(ledger, k);
      [Item(k, ledger[k])] + Listing(ledger - {k})
  }

  /** A ledger back from its entries. */
  function FromItems(items: seq<Item>): map<LedgerKey, L.Entry> {
    if items == [] then map[] else FromItems(items[1..])[items[0].key := items[0].entry]
  }

  lemma {:induction false} ListingIs(ledger: map<LedgerKey, L.Entry>)
    ensures FromItems(Listing(ledger)) == ledger && |Listing(ledger)| == |ledger|
    ensures forall i :: 0 <= i < |Listing(ledger)| ==> Listing(ledger)[i].key in ledger && Listing(ledger)[i].entry == ledger[Listing(ledger)[i].key]
    decreases |ledger|
  {
    if ledger != map[] {
      var k := Least(ledger.Keys);
      RemoveSize(ledger, k);
      ListingIs(ledger - {k});
      assert Listing(ledger)[1..] == Listing(ledger - {k});
    }
  }

  /** The decoder has read everything up to `c.previous`, and `rest` remains. */
  ghost predicate Midway(ledger: map<LedgerKey, L.Entry>, rest: map<LedgerKey, L.Entry>, c: Cursor) {
    && Submap(rest, ledger)
    && (c.previous.None? ==> rest == ledger)
    && (c.previous.Some? ==>
          && (forall k :: k in rest ==> KeyLess(c.previous.value, k))
          && (forall k :: k in ledger && k !in rest ==> k == c.previous.value || KeyLess(k, c.previous.value))
          && c.run == |set k | k in ledger && k !in rest && k.routeKey == c.previous.value.routeKey|)
  }

  lemma MidwayAdvances(ledger: map<LedgerKey, L.Entry>, rest: map<LedgerKey, L.Entry>, c: Cursor, k: LedgerKey)
    requires Midway(ledger, rest, c) && rest != map[] && k == Least(rest.Keys)
    ensures Midway(ledger, rest - {k}, Advance(c, k)) && Advance(c, k).run <= |RouteKeys(ledger, k.routeKey)|
  {
    var before := set j | j in ledger && j !in rest && j.routeKey == k.routeKey;
    var after := set j | j in ledger && j !in rest - {k} && j.routeKey == k.routeKey;
    assert after == before + {k};
    if c.previous.None? || c.previous.value.routeKey != k.routeKey {
      assert before == {};
    }
    Subset(after, RouteKeys(ledger, k.routeKey));
  }

  lemma {:induction false} ListingAdmitted(ledger: map<LedgerKey, L.Entry>, rest: map<LedgerKey, L.Entry>, c: Cursor, validKey: nat -> bool)
    requires Midway(ledger, rest, c)
    requires forall r :: |RouteKeys(ledger, r)| <= c.perKey
    requires forall k :: k in ledger ==> validKey(k.endpointKey) && Positive(ledger[k]) && ledger[k].retainUntil > c.prunedThrough
    ensures AdmitsAll(c, Listing(rest), validKey)
    decreases |rest|
  {
    if rest != map[] {
      var k := Least(rest.Keys);
      RemoveSize(rest, k);
      MidwayAdvances(ledger, rest, c, k);
      ListingAdmitted(ledger, rest - {k}, Advance(c, k), validKey);
      assert Listing(rest)[0] == Item(k, rest[k]) && Listing(rest)[1..] == Listing(rest - {k});
    }
  }

  function ImageOf(network: nat, s: Snapshot): Image {
    Image(network, s.capacity, s.perKey, s.revision, s.prunedThrough, Listing(s.ledger))
  }

  /** The fixed widths of the program's own types, and that stored keys are valid points. */
  ghost predicate Typed(network: nat, s: Snapshot, validKey: nat -> bool) {
    && network < Encoding.Capacity(4) && s.prunedThrough < Encoding.Capacity(8)
    && forall k :: k in s.ledger ==> validKey(k.endpointKey) && Fits(Item(k, s.ledger[k]))
  }

  /** Whatever a reachable store captures survives encoding and decoding, ledger and all. */
  lemma SnapshotSurvives(s: Store, network: nat, sum: Checksum, validKey: nat -> bool, expiryOf: Expiry)
    requires Inv(s, expiryOf) && Typed(network, Capture(s), validKey)
    requires |sum(Payload(ImageOf(network, Capture(s))))| == CHECKSUM_SIZE
    ensures var i := ImageOf(network, Capture(s));
            Decode(Encode(i, sum), sum, validKey) == Some(i) && FromItems(i.items) == s.ledger
  {
    Capacities();
    hide Listing, AdmitsAll, Encode, Decode, Payload, Fits, FromItems;
    var i := ImageOf(network, Capture(s));
    ListingIs(s.ledger);
    ListingAdmitted(s.ledger, s.ledger, Cursor(None, 0, i.perKey, i.prunedThrough), validKey);
    ImageRoundTrip(i, sum, validKey);
  }

  // ---- the layout, by offset ----

  lemma Slices(a: seq<Byte>, b: seq<Byte>, c: seq<Byte>)
    ensures (a + (b + c))[..|a|] == a && (a + (b + c))[|a|..|a| + |b|] == b && (a + (b + c))[|a| + |b|..] == c
  {
  }

  /** One entry: 65 bytes of key, 41 of the endpoint dimension, 49 of the route dimension with the horizon inside. */
  lemma ItemLayout(i: Item)
    ensures var b := PutItem(i);
            && b[..32] == PutBe(i.key.routeKey, 32) && b[32..65] == PutBe(i.key.endpointKey, 33)
            && b[65..73] == PutLe(i.entry.endpoint.high, 8) && b[73..105] == PutBe(i.entry.endpoint.id, 32)
            && b[105] == (if i.entry.endpoint.conflicted then 1 else 0)
            && b[106..114] == PutLe(i.entry.route.high, 8) && b[114..122] == PutLe(i.entry.retainUntil, 8)
            && b[122] == (if i.entry.route.conflicted then 1 else 0) && b[123..155] == PutBe(i.entry.route.id, 32)
  {
    hide PutBe, PutLe;
    var e, r := PutEndpoint(i.entry.endpoint), PutRoute(i.entry.route, i.entry.retainUntil);
    var b := PutItem(i);
    Slices(PutKey(i.key), e, r);
    assert b[..65] == PutKey(i.key) && b[65..106] == e && b[106..155] == r;
    assert b[..32] == PutKey(i.key)[..32] && b[32..65] == PutKey(i.key)[32..];
    assert b[65..73] == e[..8] && b[73..105] == e[8..40] && b[105] == e[40];
    assert b[106..114] == r[..8] && b[114..122] == r[8..16] && b[122] == r[16] && b[123..155] == r[17..49];
  }

  /** The header: magic, schema 1, three zero bytes, and seven little-endian numbers at their offsets. */
  lemma HeaderLayout(i: Image)
    ensures var b := Payload(i);
            && b[..12] == [72, 78, 83, 82, 86, 51, 76, 0, 1, 0, 0, 0]
            && b[12..16] == PutLe(i.network, 4) && b[16..20] == PutLe(i.capacity, 4) && b[20..24] == PutLe(i.perKey, 4)
            && b[24..32] == PutLe(i.revision, 8) && b[32..40] == PutLe(i.prunedThrough, 8) && b[40..44] == PutLe(|i.items|, 4)
            && b[44..] == PutItems(i.items)
  {
    hide PutLe, PutItems;
    var h := HeaderOf(i);
    var head := PutHeader(h);
    var b := Payload(i);
    assert b[..44] == head && b[44..] == PutItems(i.items);
    Slices(Prefix, PutBounds(h), PutMarks(h));
    assert b[12..24] == PutBounds(h) && b[24..44] == PutMarks(h);
    assert b[12..16] == PutBounds(h)[..4] && b[16..20] == PutBounds(h)[4..8] && b[20..24] == PutBounds(h)[8..12];
    assert b[24..32] == PutMarks(h)[..8] && b[32..40] == PutMarks(h)[8..16] && b[40..44] == PutMarks(h)[16..20];
  }
}
