/**
  DNS name decompression inside an HSD resource (section 4.1.4 of RFC 1035; the limits of 63 octets a
  label and 255 octets a name are in section 2.3.4).

  `Table` records, for every label offset decoded so far, the labels from there to the root. The decoder
  keeps only a bit per offset and walks the raw bytes again; it is proved to return exactly what the
  table says, to terminate, and never to meet a pointer target twice.
 */
module DnsNames {
  import opened Common
  import opened Encoding

  const MAX_RESOURCE_SIZE := 512
  const MAX_DNS_NAME_SIZE := 255
  const MAX_DNS_POINTERS := 10

  type Label = seq<Byte>

  datatype DnsError =
    | TruncatedName | TruncatedLabel | NameTooLong | TruncatedPointer | NotAPriorLabel | PointerLoopOrDepth | BadPrefix

  /** What a known label offset stands for: its labels down to the root, how many pointers that takes, and
      where the name that introduced it starts. */
  datatype Suffix = Suffix(labels: seq<Label>, pointers: nat, start: nat)
  type Table = map<nat, Suffix>

  /** A name as laid out at one position: labels, pointers followed, and the end of its own encoding. */
  datatype Layout = Layout(labels: seq<Label>, pointers: nat, end: nat)

  predicate IsLabel(raw: seq<Byte>, p: nat) {
    p < |raw| && 0 < raw[p] < 64
  }

  predicate IsPointer(raw: seq<Byte>, p: nat) {
    p < |raw| && raw[p] >= 192
  }

  function Next(raw: seq<Byte>, p: nat): nat
    requires IsLabel(raw, p)
  {
    p + 1 + raw[p]
  }

  function PointerTarget(raw: seq<Byte>, p: nat): nat
    requires IsPointer(raw, p) && p + 1 < |raw|
  {
    (raw[p] as int - 192) * 256 + raw[p + 1] as int
  }

  /** Reads literal labels up to the root or a pointer, and takes the pointed-to labels from the table. */
  function Walk(raw: seq<Byte>, table: Table, p: nat): (r: Option<Layout>)
    ensures r.Some? ==> p < r.value.end <= |raw|
    decreases |raw| - p
  {
    if p >= |raw| then None
    else if raw[p] == 0 then Some(Layout([], 0, p + 1))
    else if raw[p] < 64 then
      if Next(raw, p) > |raw| then None
      else
        var tail := Walk(raw, table, Next(raw, p));
        if tail.None? then None
        else Some(Layout([raw[p + 1..Next(raw, p)]] + tail.value.labels, tail.value.pointers, tail.value.end))
    else if raw[p] < 192 || p + 1 >= |raw| then None
    else
      var t := PointerTarget(raw, p);
      if t >= p || t !in table then None
      else Some(Layout(table[t].labels, 1 + table[t].pointers, p + 2))
  }

  /** Wire size of a name: one length octet per label and the root octet. */
  function Expanded(labels: seq<Label>): nat {
    if labels == [] then 1 else 1 + |labels[0]| + Expanded(labels[1..])
  }

  /** The names the decoder accepts at `start`. */
  predicate Acceptable(raw: seq<Byte>, table: Table, start: nat) {
    var w := Walk(raw, table, start);
    w.Some? && Expanded(w.value.labels) <= MAX_DNS_NAME_SIZE && w.value.pointers <= MAX_DNS_POINTERS
  }

  // ---- the literal part of a name ----

  /** The pointer that ends the literal labels at `p`, if they do not end at the root. */
  function RunTarget(raw: seq<Byte>, p: nat): Option<nat>
    decreases |raw| - p
  {
    if IsLabel(raw, p) then RunTarget(raw, Next(raw, p))
    else if IsPointer(raw, p) && p + 1 < |raw| then Some(PointerTarget(raw, p))
    else None
  }

  function RunLabels(raw: seq<Byte>, p: nat): seq<Label>
    decreases |raw| - p
  {
    if IsLabel(raw, p) && Next(raw, p) <= |raw| then [raw[p + 1..Next(raw, p)]] + RunLabels(raw, Next(raw, p)) else []
  }

  function RunOffsets(raw: seq<Byte>, p: nat): set<nat>
    decreases |raw| - p
  {
    if IsLabel(raw, p) then {p} + RunOffsets(raw, Next(raw, p)) else {}
  }

  /** A decoded name is its own literal labels followed by the suffix already decoded at the pointed-to offset. */
  lemma {:induction false} WalkSplits(raw: seq<Byte>, table: Table, p: nat)
    requires Walk(raw, table, p).Some?
    ensures var t := RunTarget(raw, p); var w := Walk(raw, table, p).value;
            && (t.Some? ==> t.value in table && w.labels == RunLabels(raw, p) + table[t.value].labels
                            && w.pointers == 1 + table[t.value].pointers)
            && (t.None? ==> w.labels == RunLabels(raw, p) && w.pointers == 0)
    decreases |raw| - p
  {
    if IsLabel(raw, p) {
      WalkSplits(raw, table, Next(raw, p));
    }
  }

  // ---- what the table guarantees ----

  /** Every entry is what the bytes say, and its pointer leads to an earlier name. */
  ghost predicate Entry(raw: seq<Byte>, table: Table, o: nat)
    requires o in table
  {
    && IsLabel(raw, o)
    && table[o].start <= o
    && Walk(raw, table, o).Some?
    && Walk(raw, table, o).value.labels == table[o].labels
    && Walk(raw, table, o).value.pointers == table[o].pointers
    && (IsLabel(raw, Next(raw, o)) ==> Next(raw, o) in table && table[Next(raw, o)].start == table[o].start)
    && (RunTarget(raw, o).Some? ==> RunTarget(raw, o).value in table && RunTarget(raw, o).value < table[o].start)
  }

  ghost predicate WellTabled(raw: seq<Byte>, table: Table, limit: nat) {
    forall o :: o in table ==> o < limit && Entry(raw, table, o)
  }

  /** The table after a name at `start` has been decoded. */
  function Extend(raw: seq<Byte>, table: Table, start: nat): Table
  {
    table + map o | o in RunOffsets(raw, start) ::
      (var w := Walk(raw, table, o); if w.Some? then Suffix(w.value.labels, w.value.pointers, start) else Suffix([], 0, start))
  }

  lemma {:induction false} WalkGrows(raw: seq<Byte>, table: Table, table': Table, p: nat)
    requires forall o :: o in table ==> o in table' && table'[o] == table[o]
    requires Walk(raw, table, p).Some?
    ensures Walk(raw, table', p) == Walk(raw, table, p)
    decreases |raw| - p
  {
    if IsLabel(raw, p) { WalkGrows(raw, table, table', Next(raw, p)); }
  }

  /** Offsets of the literal labels lie inside the name, walk the same way, and share its pointer. */
  lemma {:induction false} RunInside(raw: seq<Byte>, table: Table, p: nat, o: nat)
    requires Walk(raw, table, p).Some? && o in RunOffsets(raw, p)
    ensures p <= o < Walk(raw, table, p).value.end && IsLabel(raw, o) && Walk(raw, table, o).Some?
    ensures RunTarget(raw, o) == RunTarget(raw, p)
    ensures IsLabel(raw, Next(raw, o)) ==> Next(raw, o) in RunOffsets(raw, p)
    decreases |raw| - p
  {
    if o != p { RunInside(raw, table, Next(raw, p), o); }
  }

  /** Decoding one more name keeps the table sound. */
  lemma ExtendSound(raw: seq<Byte>, table: Table, start: nat)
    requires WellTabled(raw, table, start) && Walk(raw, table, start).Some?
    ensures WellTabled(raw, Extend(raw, table, start), Walk(raw, table, start).value.end)
    ensures Extend(raw, table, start).Keys == table.Keys + RunOffsets(raw, start)
  {
    var table' := Extend(raw, table, start);
    forall o | o in RunOffsets(raw, start) ensures o >= start {
      RunInside(raw, table, start, o);
    }
    forall o | o in table' ensures o < Walk(raw, table, start).value.end && Entry(raw, table', o) {
      if o in RunOffsets(raw, start) {
        RunInside(raw, table, start, o);
        WalkSplits(raw, table, start);
        WalkGrows(raw, table, table', o);
      } else {
        assert Entry(raw, table, o);
        WalkGrows(raw, table, table', o);
      }
    }
  }

  // ---- the decoder ----

  lemma {:induction false} ExpandedAppend(a: seq<Label>, b: seq<Label>)
    ensures Expanded(a + b) == Expanded(a) + Expanded(b) - 1
  {
    if a == [] {
      assert a + b == b;
    } else {
      assert (a + b)[1..] == a[1..] + b;
      ExpandedAppend(a[1..], b);
    }
  }

  /** The bits kept by the decoder are exactly the offsets in the table. */
  ghost predicate Marks(known: array<bool>, table: Table)
    reads known
  {
    known.Length == MAX_RESOURCE_SIZE && forall o: nat :: (o < known.Length && known[o]) <==> o in table
  }

  /** Mid-decoding: labels and pointers so far, followed by what the rest of the walk will give, make up the name. */
  ghost predicate Reading(raw: seq<Byte>, table: Table, start: nat, position: nat, labels: seq<Label>, pointers: nat)
  {
    var whole, rest := Walk(raw, table, start), Walk(raw, table, position);
    && (whole.Some? <==> rest.Some?)
    && (whole.Some? ==> whole.value.labels == labels + rest.value.labels
                        && whole.value.pointers == pointers + rest.value.pointers)
  }

  /** The next pointer, if any, leads to a name that starts before `bound`. */
  ghost predicate Bounded(raw: seq<Byte>, table: Table, position: nat, bound: nat) {
    RunTarget(raw, position).Some? && Walk(raw, table, position).Some?
    ==> RunTarget(raw, position).value in table && RunTarget(raw, position).value < bound
  }

  /** Before the first pointer the walk is in the name's own encoding; afterwards it is inside known names. */
  ghost predicate Located(raw: seq<Byte>, table: Table, start: nat, position: nat, end: Option<nat>, offsets: set<nat>)
  {
    var whole, rest := Walk(raw, table, start), Walk(raw, table, position);
    && (end.None? ==> RunOffsets(raw, start) == offsets + RunOffsets(raw, position)
                      && (whole.Some? && rest.Some? ==> rest.value.end == whole.value.end))
    && (end.Some? ==> RunOffsets(raw, start) <= offsets <= RunOffsets(raw, start) + table.Keys
                      && (whole.Some? ==> end.value == whole.value.end)
                      && (IsLabel(raw, position) ==> position in table))
  }

  lemma LocateLabel(raw: seq<Byte>, table: Table, limit: nat, start: nat, position: nat, end: Option<nat>, offsets: set<nat>)
    requires WellTabled(raw, table, limit) && Located(raw, table, start, position, end, offsets)
    requires IsLabel(raw, position) && Next(raw, position) <= |raw|
    ensures Located(raw, table, start, Next(raw, position), end, offsets + {position})
  {
    if end.Some? { assert Entry(raw, table, position); }
  }

  lemma LocatePointer(raw: seq<Byte>, table: Table, limit: nat, start: nat, position: nat, end: Option<nat>, offsets: set<nat>)
    requires WellTabled(raw, table, limit) && Located(raw, table, start, position, end, offsets)
    requires IsPointer(raw, position) && position + 1 < |raw|
    requires PointerTarget(raw, position) in table && PointerTarget(raw, position) < position
    requires Walk(raw, table, start).Some?
    ensures Located(raw, table, start, PointerTarget(raw, position),
                    if end.None? then Some(position + 2) else end, offsets)
  {
  }

  lemma ReadLabel(raw: seq<Byte>, table: Table, start: nat, position: nat, labels: seq<Label>, pointers: nat)
    requires Reading(raw, table, start, position, labels, pointers)
    requires IsLabel(raw, position) && Next(raw, position) <= |raw|
    ensures Reading(raw, table, start, Next(raw, position), labels + [raw[position + 1..Next(raw, position)]], pointers)
    ensures Expanded(labels + [raw[position + 1..Next(raw, position)]]) == Expanded(labels) + 1 + raw[position] as int
  {
    ExpandedAppend(labels, [raw[position + 1..Next(raw, position)]]);
    var rest := Walk(raw, table, Next(raw, position));
    if rest.Some? {
      var read := raw[position + 1..Next(raw, position)];
      assert labels + ([read] + rest.value.labels) == (labels + [read]) + rest.value.labels;
    }
  }

  lemma TooLong(raw: seq<Byte>, table: Table, start: nat, position: nat, labels: seq<Label>, pointers: nat)
    requires Reading(raw, table, start, position, labels, pointers)
    requires Expanded(labels) > MAX_DNS_NAME_SIZE || pointers > MAX_DNS_POINTERS
    ensures !Acceptable(raw, table, start)
  {
    var rest := Walk(raw, table, position);
    if rest.Some? { ExpandedAppend(labels, rest.value.labels); ExpandedAtLeastOne(rest.value.labels); }
  }

  lemma ExpandedAtLeastOne(labels: seq<Label>)
    ensures Expanded(labels) >= 1
  {
  }

  lemma FollowPointer(raw: seq<Byte>, table: Table, limit: nat, start: nat, position: nat, labels: seq<Label>, pointers: nat)
    requires WellTabled(raw, table, limit) && Reading(raw, table, start, position, labels, pointers)
    requires IsPointer(raw, position) && position + 1 < |raw| && PointerTarget(raw, position) in table
    requires PointerTarget(raw, position) < position
    ensures Reading(raw, table, start, PointerTarget(raw, position), labels, pointers + 1)
    ensures Bounded(raw, table, PointerTarget(raw, position), table[PointerTarget(raw, position)].start)
    ensures table[PointerTarget(raw, position)].start <= PointerTarget(raw, position)
  {
    assert Entry(raw, table, PointerTarget(raw, position));
  }

  /** What the walk yields: labels, where the name's own encoding ends, and every label offset it visited. */
  datatype Visited = Visited(labels: seq<Label>, end: nat, offsets: set<nat>)

  /** Reads a label or follows a pointer until the root; succeeds exactly on acceptable names. */
  method Expand(raw: seq<Byte>, start: nat, known: array<bool>, ghost table: Table) returns (r: Result<Visited, DnsError>)
    requires |raw| <= MAX_RESOURCE_SIZE && start <= |raw|
    requires Marks(known, table) && WellTabled(raw, table, start)
    ensures r.Ok? <==> Acceptable(raw, table, start)
    ensures r.Ok? ==>
              && r.value.labels == Walk(raw, table, start).value.labels
              && r.value.end == Walk(raw, table, start).value.end
              && RunOffsets(raw, start) <= r.value.offsets <= RunOffsets(raw, start) + table.Keys
  {
    var position: nat, pointerCount: nat, expandedSize: nat := start, 0, 1;
    var encodedEnd: Option<nat> := None;
    var labels: seq<Label> := [];
    var literalOffsets: set<nat> := {};
    var followed: set<nat> := {};
    ghost var bound: nat := start;
    FirstPointer(raw, table, start);
    while true
      invariant 0 <= position <= |raw| && 0 <= bound <= start
      invariant Reading(raw, table, start, position, labels, pointerCount)
      invariant Located(raw, table, start, position, encodedEnd, literalOffsets)
      invariant Bounded(raw, table, position, bound)
      invariant expandedSize == Expanded(labels) <= MAX_DNS_NAME_SIZE && pointerCount <= MAX_DNS_POINTERS
      invariant forall t :: t in followed ==> t >= bound
      decreases bound, |raw| - position
    {
      if position >= |raw| {
        return Err(TruncatedName);
      }
      if raw[position] == 0 {
        var end := if encodedEnd.None? then position + 1 else encodedEnd.value;
        assert labels + [] == labels;
        return Ok(Visited(labels, end, literalOffsets));
      } else if raw[position] < 64 {
        var end := Next(raw, position);
        if end > |raw| {
          return Err(TruncatedLabel);
        }
        ReadLabel(raw, table, start, position, labels, pointerCount);
        LocateLabel(raw, table, start, start, position, encodedEnd, literalOffsets);
        literalOffsets := literalOffsets + {position};
        labels := labels + [raw[position + 1..end]];
        expandedSize := expandedSize + 1 + raw[position] as int;
        position := end;
        if expandedSize > MAX_DNS_NAME_SIZE {
          TooLong(raw, table, start, position, labels, pointerCount);
          return Err(NameTooLong);
        }
      } else if raw[position] < 192 {
        return Err(BadPrefix);
      } else {
        if position + 1 >= |raw| {
          return Err(TruncatedPointer);
        }
        var target := PointerTarget(raw, position);
        if target >= position || target >= |raw| || !known[target] {
          return Err(NotAPriorLabel);
        }
        FollowPointer(raw, table, start, start, position, labels, pointerCount);
        LocatePointer(raw, table, start, start, position, encodedEnd, literalOffsets);
        // A pointer target is never met twice: the guard can only fire on depth.
        assert target !in followed;
        if target in followed || pointerCount >= MAX_DNS_POINTERS {
          TooLong(raw, table, start, target, labels, pointerCount + 1);
          return Err(PointerLoopOrDepth);
        }
        followed := followed + {target};
        pointerCount := pointerCount + 1;
        encodedEnd := if encodedEnd.None? then Some(position + 2) else encodedEnd;
        bound := table[target].start;
        position := target;
      }
    }
  }

  lemma FirstPointer(raw: seq<Byte>, table: Table, start: nat)
    requires WellTabled(raw, table, start)
    ensures Bounded(raw, table, start, start)
  {
    if Walk(raw, table, start).Some? { WalkSplits(raw, table, start); }
  }

  /**
    Decodes one name. It succeeds exactly on acceptable names, returns the labels the table gives, leaves
    the decoder after the name's own encoding, and records the name's literal label offsets.
   */
  method DecodeName(raw: seq<Byte>, decoder: Decoder, known: array<bool>, ghost table: Table)
    returns (r: Result<seq<Label>, DnsError>, ghost table': Table)
    requires |raw| <= MAX_RESOURCE_SIZE && decoder.input == raw && decoder.Valid()
    requires Marks(known, table) && WellTabled(raw, table, decoder.position)
    modifies decoder, known
    ensures decoder.Valid()
    ensures r.Ok? <==> Acceptable(raw, table, old(decoder.position))
    ensures r.Ok? ==>
              && r.value == Walk(raw, table, old(decoder.position)).value.labels
              && decoder.position == Walk(raw, table, old(decoder.position)).value.end
              && table' == Extend(raw, table, old(decoder.position))
              && Marks(known, table') && WellTabled(raw, table', decoder.position)
  {
    var start := decoder.position;
    table' := Extend(raw, table, start);
    var name := Expand(raw, start, known, table);
    if name.Err? {
      return Err(name.error), table;
    }
    var consumed := decoder.ReadSlice(name.value.end - start);
    MarkAll(raw, table, start, name.value.offsets, known);
    r := Ok(name.value.labels);
  }

  method MarkAll(raw: seq<Byte>, ghost table: Table, start: nat, offsets: set<nat>, known: array<bool>)
    requires |raw| <= MAX_RESOURCE_SIZE && Marks(known, table) && WellTabled(raw, table, start)
    requires Walk(raw, table, start).Some?
    requires RunOffsets(raw, start) <= offsets <= RunOffsets(raw, start) + table.Keys
    modifies known
    ensures Marks(known, Extend(raw, table, start))
    ensures WellTabled(raw, Extend(raw, table, start), Walk(raw, table, start).value.end)
  {
    ExtendSound(raw, table, start);
    assert forall o :: o in offsets ==> o in Extend(raw, table, start);
    forall o | o in offsets ensures o < known.Length {
      assert Entry(raw, Extend(raw, table, start), o);
    }
    forall o | o in offsets {
      known[o] := true;
    }
  }
}
