/** Byte-level encodings of the wire protocol: big-endian integers and the
    length-prefixed field format every transcript, proof message, payload and
    associated-data string is built with. */
module Encoding {

  newtype Byte = b: int | 0 <= b < 256
  type Bytes = seq<Byte>

  const MAX_FIELD_BYTES: nat := 0x10_0000
  const MAX_FIELDS: nat := 64

  datatype EncodingError =
    | InvalidDomain
    | TooManyFields
    | FieldTooLarge
    | InvalidExpectedCount
    | Truncated
    | TruncatedLength
    | UnexpectedCount
    | InvalidLength
    | TrailingBytes
    | UnexpectedDomain
    | InvalidText
    | NonCanonical
    | WrongLength

  datatype Result<+T> = Ok(value: T) | Err(error: EncodingError)

  // ---------------------------------------------------------------- integers

  function Pow256(n: nat): (p: nat)
    ensures p > 0
  {
    if n == 0 then 1 else 256 * Pow256(n - 1)
  }

  /** `value.to_bytes(width, "big")` */
  function ToBytes(value: nat, width: nat): (r: Bytes)
    requires value < Pow256(width)
    ensures |r| == width
  {
    if width == 0 then [] else ToBytes(value / 256, width - 1) + [(value % 256) as Byte]
  }

  /** `int.from_bytes(data, "big")` */
  function FromBytes(data: Bytes): (v: nat)
    ensures v < Pow256(|data|)
  {
    if data == [] then 0 else 256 * FromBytes(data[..|data| - 1]) + data[|data| - 1] as int
  }

  lemma {:induction false} FromBytesToBytes(value: nat, width: nat)
    requires value < Pow256(width)
    ensures FromBytes(ToBytes(value, width)) == value
  {
    if width > 0 {
      FromBytesToBytes(value / 256, width - 1);
      var r := ToBytes(value, width);
      assert r[..|r| - 1] == ToBytes(value / 256, width - 1);
    }
  }

  lemma {:induction false} ToBytesFromBytes(data: Bytes)
    ensures ToBytes(FromBytes(data), |data|) == data
  {
    if data != [] {
      var front := data[..|data| - 1];
      ToBytesFromBytes(front);
      var v := FromBytes(data);
      assert v / 256 == FromBytes(front) && v % 256 == data[|data| - 1] as int;
      assert front + [data[|data| - 1]] == data;
    }
  }

  lemma LastByte(front: Bytes, b: Byte)
    ensures FromBytes(front + [b]) == 256 * FromBytes(front) + b as int
  {
    assert (front + [b])[..|front|] == front;
  }

  lemma Reweigh(v: nat, weight: nat, rest: nat, b: nat, all: nat)
    requires all == 256 * (v * weight + rest) + b
    ensures all == v * (256 * weight) + (256 * rest + b)
  {
  }

  /** Earlier bytes weigh more: the value of a text of bytes is that of its parts. */
  lemma {:induction false} PlaceValue(high: Bytes, low: Bytes)
    ensures FromBytes(high + low) == FromBytes(high) * Pow256(|low|) + FromBytes(low)
    ensures |low| == 1 ==> FromBytes(low) == low[0] as int
  {
    if low == [] {
      assert high + low == high;
    } else {
      var front, b := low[..|low| - 1], low[|low| - 1];
      PlaceValue(high, front);
      hide FromBytes;
      LastByte(high + front, b);
      LastByte(front, b);
      assert high + low == high + front + [b] && low == front + [b];
      Reweigh(FromBytes(high), Pow256(|front|), FromBytes(front), b as int, FromBytes(high + low));
      if front == [] {
        NoBytes();
      }
    }
  }

  lemma NoBytes()
    ensures FromBytes([]) == 0
  {
  }

  lemma Widths()
    ensures Pow256(2) == 0x1_0000
    ensures Pow256(4) == 0x1_0000_0000
    ensures Pow256(8) == 0x1_0000_0000_0000_0000
  {
    assert Pow256(1) == 256;
    assert Pow256(3) == 256 * Pow256(2);
    assert Pow256(5) == 256 * Pow256(4);
    assert Pow256(6) == 256 * Pow256(5);
    assert Pow256(7) == 256 * Pow256(6);
  }

  /** Big-endian integers of one width are equal only for equal values. */
  lemma ToBytesInjective(a: nat, b: nat, width: nat)
    requires a < Pow256(width) && b < Pow256(width)
    requires ToBytes(a, width) == ToBytes(b, width)
    ensures a == b
  {
    FromBytesToBytes(a, width);
    FromBytesToBytes(b, width);
  }

  // ------------------------------------------------------------ field format

  /** The domain check of the encoder: non-empty printable ASCII. */
  predicate ValidDomain(domain: Bytes) {
    domain != [] && forall i | 0 <= i < |domain| :: 0x21 <= domain[i] <= 0x7E
  }

  predicate Bounded(items: seq<Bytes>) {
    forall i | 0 <= i < |items| :: |items[i]| <= MAX_FIELD_BYTES
  }

  /** The two-byte field count. */
  function CountHeader(count: nat): (r: Bytes)
    requires count <= MAX_FIELDS
    ensures |r| == 2 && FromBytes(r) == count
  {
    Widths();
    FromBytesToBytes(count, 2);
    ToBytes(count, 2)
  }

  /** The four-byte length in front of every field. */
  function LengthHeader(length: nat): (r: Bytes)
    requires length <= MAX_FIELD_BYTES
    ensures |r| == 4 && FromBytes(r) == length
  {
    Widths();
    FromBytesToBytes(length, 4);
    ToBytes(length, 4)
  }

  /** One field on the wire: four-byte length, then the bytes. */
  function Item(item: Bytes): (r: Bytes)
    requires |item| <= MAX_FIELD_BYTES
    ensures |r| == 4 + |item|
  {
    LengthHeader(|item|) + item
  }

  function Items(items: seq<Bytes>): Bytes
    requires Bounded(items)
  {
    if items == [] then [] else Items(items[..|items| - 1]) + Item(items[|items| - 1])
  }

  /** The frozen layout: two-byte field count, then the domain and every field. */
  ghost function Layout(domain: Bytes, fields: seq<Bytes>): Bytes
    requires |fields| < MAX_FIELDS && Bounded([domain] + fields)
  {
    CountHeader(1 + |fields|) + Items([domain] + fields)
  }

  /** Where item `i` starts: every earlier one takes four bytes and its own length. */
  function Start(items: seq<Bytes>, i: nat): nat
    requires i <= |items|
  {
    if i == 0 then 0 else Start(items, i - 1) + 4 + |items[i - 1]|
  }

  lemma {:induction false} StartOfPrefix(items: seq<Bytes>, i: nat)
    requires i < |items|
    ensures Start(items[..|items| - 1], i) == Start(items, i)
  {
    if i > 0 {
      StartOfPrefix(items, i - 1);
    }
  }

  lemma {:induction false} ItemsLength(items: seq<Bytes>)
    requires Bounded(items)
    ensures |Items(items)| == Start(items, |items|)
  {
    if items != [] {
      ItemsLength(items[..|items| - 1]);
      StartOfPrefix(items, |items| - 1);
    }
  }

  lemma {:induction false} ItemsAt(items: seq<Bytes>, i: nat)
    requires Bounded(items) && i < |items|
    ensures Start(items, i) + 4 + |items[i]| <= |Items(items)|
    ensures var at := Start(items, i);
            && FromBytes(Items(items)[at..at + 4]) == |items[i]|
            && Items(items)[at + 4..at + 4 + |items[i]|] == items[i]
  {
    hide FromBytes, Item;
    var n := |items| - 1;
    ItemsLength(items[..n]);
    StartOfPrefix(items, i);
    if i == n {
      ItemHeader(items[n], []);
      LastItemAt(Items(items[..n]), Item(items[n]), |items[n]|);
    } else {
      ItemsAt(items[..n], i);
      var at, front := Start(items, i), Items(items[..n]);
      WithinFront(front, Item(items[n]), at, at + 4);
      WithinFront(front, Item(items[n]), at + 4, at + 4 + |items[i]|);
    }
  }

  lemma WithinFront(front: Bytes, rest: Bytes, i: nat, j: nat)
    requires i <= j <= |front|
    ensures (front + rest)[i..j] == front[i..j]
  {
  }

  lemma LastItemAt(front: Bytes, item: Bytes, length: nat)
    requires |item| == 4 + length
    ensures var at := |front|;
            && (front + item)[at..at + 4] == (item + [])[..4]
            && (front + item)[at + 4..at + 4 + length] == (item + [])[4..4 + length]
  {
  }

  lemma LayoutParts(domain: Bytes, fields: seq<Bytes>)
    requires |fields| < MAX_FIELDS && Bounded([domain] + fields)
    ensures var r := Layout(domain, fields);
            |r| >= 2 && FromBytes(r[..2]) == 1 + |fields| && r[2..] == Items([domain] + fields)
  {
    var header := CountHeader(1 + |fields|);
    assert Layout(domain, fields)[..2] == header;
  }

  /** Every byte of the frozen layout: the count, then for the domain and each field,
      at the place its predecessors leave, its length and its own bytes. */
  lemma LayoutExactly(domain: Bytes, fields: seq<Bytes>, i: nat)
    requires |fields| < MAX_FIELDS && Bounded([domain] + fields) && i <= |fields|
    ensures var items, r, at := [domain] + fields, Layout(domain, fields), 2 + Start([domain] + fields, i);
            && |r| == 2 + Start(items, |items|) && FromBytes(r[..2]) == |items|
            && at + 4 + |items[i]| <= |r|
            && FromBytes(r[at..at + 4]) == |items[i]| && r[at + 4..at + 4 + |items[i]|] == items[i]
  {
    hide Items, Item, FromBytes, Layout, Start, Bounded;
    var items, at := [domain] + fields, Start([domain] + fields, i);
    ItemsLength(items);
    ItemsAt(items, i);
    LayoutParts(domain, fields);
    Behind(Layout(domain, fields), at, at + 4);
    Behind(Layout(domain, fields), at + 4, at + 4 + |items[i]|);
  }

  lemma Behind(r: Bytes, i: nat, j: nat)
    requires i <= j && 2 + j <= |r|
    ensures r[2 + i..2 + j] == r[2..][i..j]
  {
    forall k | 0 <= k < j - i
      ensures r[2 + i..2 + j][k] == r[2..][i..j][k]
    {
      assert r[2..][i + k] == r[2 + i + k];
    }
  }

  lemma ItemsSnoc(items: seq<Bytes>, item: Bytes)
    requires Bounded(items) && |item| <= MAX_FIELD_BYTES
    ensures Bounded(items + [item])
    ensures Items(items + [item]) == Items(items) + Item(item)
  {
    var all := items + [item];
    assert all[..|all| - 1] == items;
  }

  lemma {:induction false} ItemsCons(item: Bytes, items: seq<Bytes>)
    requires Bounded(items) && |item| <= MAX_FIELD_BYTES
    ensures Bounded([item] + items)
    ensures Items([item] + items) == Item(item) + Items(items)
  {
    var all := [item] + items;
    if items == [] {
      assert all == [item];
      assert Items(all[..0]) == [];
    } else {
      var front, last := items[..|items| - 1], items[|items| - 1];
      ItemsCons(item, front);
      assert items == front + [last];
      ItemsSnoc([item] + front, last);
      assert all == [item] + front + [last];
    }
  }

  lemma ItemHeader(item: Bytes, rest: Bytes)
    requires |item| <= MAX_FIELD_BYTES
    ensures FromBytes((Item(item) + rest)[..4]) == |item|
    ensures (Item(item) + rest)[4..4 + |item|] == item
    ensures (Item(item) + rest)[4 + |item|..] == rest
  {
    assert (Item(item) + rest)[..4] == LengthHeader(|item|);
  }

  /** The item format is prefix-free: equally many items followed by anything
      can be read back in exactly one way. */
  lemma {:induction false} ItemsPrefixFree(a: seq<Bytes>, x: Bytes, b: seq<Bytes>, y: Bytes)
    requires Bounded(a) && Bounded(b) && |a| == |b|
    requires Items(a) + x == Items(b) + y
    ensures a == b && x == y
    decreases |a|
  {
    if a == [] {
      assert x == Items(a) + x && y == Items(b) + y;
    } else {
      FirstItem(a, x);
      FirstItem(b, y);
      ItemHeader(a[0], Items(a[1..]) + x);
      ItemHeader(b[0], Items(b[1..]) + y);
      ItemsPrefixFree(a[1..], x, b[1..], y);
      assert a == [a[0]] + a[1..] && b == [b[0]] + b[1..];
    }
  }

  lemma FirstItem(items: seq<Bytes>, rest: Bytes)
    requires Bounded(items) && items != []
    ensures Bounded(items[1..]) && Items(items) + rest == Item(items[0]) + (Items(items[1..]) + rest)
  {
    var first, tail := items[0], items[1..];
    assert items == [first] + tail;
    assert Bounded(tail);
    ItemsCons(first, tail);
    Reassociate(Item(first), Items(tail), rest);
  }

  lemma Reassociate(a: Bytes, b: Bytes, c: Bytes)
    ensures (a + b) + c == a + (b + c)
  {
  }

  /** Every layout names its domain and all its fields: two layouts are the
      same bytes only when domain, field count and every field agree. */
  lemma LayoutInjective(d1: Bytes, f1: seq<Bytes>, d2: Bytes, f2: seq<Bytes>)
    requires |f1| < MAX_FIELDS && Bounded([d1] + f1)
    requires |f2| < MAX_FIELDS && Bounded([d2] + f2)
    requires Layout(d1, f1) == Layout(d2, f2)
    ensures d1 == d2 && f1 == f2
  {
    assert Layout(d1, f1)[..2] == CountHeader(1 + |f1|);
    assert Layout(d2, f2)[..2] == CountHeader(1 + |f2|);
    assert Layout(d1, f1)[2..] == Items([d1] + f1) + [];
    assert Layout(d2, f2)[2..] == Items([d2] + f2) + [];
    ItemsPrefixFree([d1] + f1, [], [d2] + f2, []);
    assert f1 == ([d1] + f1)[1..] && f2 == ([d2] + f2)[1..];
  }

  /** `encode_fields`: fails exactly on an invalid domain, more than 64 fields
      or an oversized field, and otherwise returns the frozen layout. */
  method EncodeFields(domain: Bytes, fields: seq<Bytes>) returns (r: Result<Bytes>)
    ensures r.Ok? <==> ValidDomain(domain) && |fields| < MAX_FIELDS && Bounded([domain] + fields)
    ensures r.Ok? ==> r.value == Layout(domain, fields)
    ensures r.Err? ==>
      r.error == if !ValidDomain(domain) then InvalidDomain
                 else if |fields| >= MAX_FIELDS then TooManyFields
                 else FieldTooLarge
  {
    if !ValidDomain(domain) {
      return Err(InvalidDomain);
    }
    var all := [domain] + fields;
    if |all| > MAX_FIELDS {
      return Err(TooManyFields);
    }
    var encoded := CountHeader(|all|);
    ghost var header := encoded;
    var i := 0;
    while i < |all|
      invariant i <= |all|
      invariant Bounded(all[..i])
      invariant encoded == header + Items(all[..i])
    {
      if |all[i]| > MAX_FIELD_BYTES {
        assert !Bounded(all);
        return Err(FieldTooLarge);
      }
      AppendItem(header, all, i);
      encoded := encoded + Item(all[i]);
      i := i + 1;
    }
    assert all[..i] == all;
    r := Ok(encoded);
  }

  lemma AppendItem(header: Bytes, all: seq<Bytes>, i: nat)
    requires i < |all| && Bounded(all[..i]) && |all[i]| <= MAX_FIELD_BYTES
    ensures Bounded(all[..i + 1])
    ensures header + Items(all[..i]) + Item(all[i]) == header + Items(all[..i + 1])
  {
    assert all[..i + 1] == all[..i] + [all[i]];
    ItemsSnoc(all[..i], all[i]);
  }

  // ---------------------------------------------------------------- decoding

  datatype Reading = Reading(values: seq<Bytes>, rest: Bytes) | Unreadable(error: EncodingError)

  /** What one turn of the decoding loop takes off the front of `data`. */
  function ReadItem(data: Bytes): (r: Reading)
    ensures r.Reading? ==> |r.values| == 1
  {
    if |data| < 4 then Unreadable(TruncatedLength)
    else
      var length := FromBytes(data[..4]);
      if length > MAX_FIELD_BYTES || |data| - 4 < length then Unreadable(InvalidLength)
      else Reading([data[4..4 + length]], data[4 + length..])
  }

  lemma ReadItemSound(data: Bytes)
    requires ReadItem(data).Reading?
    ensures var r := ReadItem(data);
            |r.values[0]| <= MAX_FIELD_BYTES && data == Item(r.values[0]) + r.rest
  {
    var length := FromBytes(data[..4]);
    ToBytesFromBytes(data[..4]);
    assert Item(data[4..4 + length]) == data[..4] + data[4..4 + length];
    assert data == data[..4] + data[4..4 + length] + data[4 + length..];
  }

  function ReadItems(data: Bytes, count: nat): Reading {
    if count == 0 then Reading([], data)
    else
      var first := ReadItem(data);
      if first.Unreadable? then first else Prefixed(first.values, ReadItems(first.rest, count - 1))
  }

  function Prefixed(front: seq<Bytes>, r: Reading): Reading {
    if r.Unreadable? then r else Reading(front + r.values, r.rest)
  }

  lemma JoinItem(data: Bytes, item: Bytes, rest: Bytes, values: seq<Bytes>, end: Bytes)
    requires |item| <= MAX_FIELD_BYTES && Bounded(values)
    requires data == Item(item) + rest && rest == Items(values) + end
    ensures Bounded([item] + values) && data == Items([item] + values) + end
  {
    ItemsCons(item, values);
    Reassociate(Item(item), Items(values), end);
  }

  lemma {:induction false} ReadItemsSound(data: Bytes, count: nat)
    requires ReadItems(data, count).Reading?
    ensures var r := ReadItems(data, count);
            |r.values| == count && Bounded(r.values) && data == Items(r.values) + r.rest
    decreases count
  {
    if count > 0 {
      var first := ReadItem(data);
      var item := first.values[0];
      ReadItemSound(data);
      assert first.values == [item];
      ReadItemsSound(first.rest, count - 1);
      var tail := ReadItems(first.rest, count - 1);
      JoinItem(data, item, first.rest, tail.values, tail.rest);
    }
  }

  lemma {:induction false} ReadItemsComplete(values: seq<Bytes>, rest: Bytes)
    requires Bounded(values)
    ensures ReadItems(Items(values) + rest, |values|) == Reading(values, rest)
    decreases |values|
  {
    if values == [] {
      assert Items(values) + rest == rest;
    } else {
      var tail := Items(values[1..]) + rest;
      ItemsCons(values[0], values[1..]);
      assert values == [values[0]] + values[1..];
      assert Items(values) + rest == Item(values[0]) + tail;
      ItemHeader(values[0], tail);
      assert ReadItem(Item(values[0]) + tail) == Reading([values[0]], tail);
      ReadItemsComplete(values[1..], rest);
    }
  }

  /** The byte strings `decode_fields` is specified to accept. */
  ghost predicate Decodes(encoded: Bytes, domain: Bytes, expected: int, fields: seq<Bytes>) {
    && 0 <= expected < MAX_FIELDS
    && |fields| == expected
    && Bounded([domain] + fields)
    && encoded == Layout(domain, fields)
  }

  /** Reading a whole string as header plus items succeeds on layouts only. */
  lemma DecodesIsReading(encoded: Bytes, domain: Bytes, expected: int, fields: seq<Bytes>)
    requires 0 <= expected < MAX_FIELDS && |encoded| >= 2
    ensures Decodes(encoded, domain, expected, fields) <==>
            && FromBytes(encoded[..2]) == expected + 1
            && |fields| == expected
            && ReadItems(encoded[2..], expected + 1) == Reading([domain] + fields, [])
  {
    if Decodes(encoded, domain, expected, fields) {
      LayoutReads(encoded, domain, fields);
    }
    if FromBytes(encoded[..2]) == expected + 1 && |fields| == expected
       && ReadItems(encoded[2..], expected + 1) == Reading([domain] + fields, []) {
      ReadingLaysOut(encoded, domain, fields);
    }
  }

  lemma LayoutReads(encoded: Bytes, domain: Bytes, fields: seq<Bytes>)
    requires |fields| < MAX_FIELDS && Bounded([domain] + fields) && encoded == Layout(domain, fields)
    ensures |encoded| >= 2 && FromBytes(encoded[..2]) == |fields| + 1
    ensures ReadItems(encoded[2..], |fields| + 1) == Reading([domain] + fields, [])
  {
    var all := [domain] + fields;
    assert encoded[..2] == CountHeader(1 + |fields|);
    assert encoded[2..] == Items(all) + [];
    ReadItemsComplete(all, []);
  }

  lemma ReadingLaysOut(encoded: Bytes, domain: Bytes, fields: seq<Bytes>)
    requires |fields| < MAX_FIELDS && |encoded| >= 2
    requires FromBytes(encoded[..2]) == |fields| + 1
    requires ReadItems(encoded[2..], |fields| + 1) == Reading([domain] + fields, [])
    ensures Bounded([domain] + fields) && encoded == Layout(domain, fields)
  {
    var all := [domain] + fields;
    ReadItemsSound(encoded[2..], |all|);
    ToBytesFromBytes(encoded[..2]);
    assert encoded[..2] == CountHeader(|all|);
    assert encoded == encoded[..2] + encoded[2..];
    assert encoded[2..] == Items(all) + [];
  }

  /** The outcome of `decode_fields`, error cases included. */
  function Decode(encoded: Bytes, domain: Bytes, expected: int): Result<seq<Bytes>> {
    if expected < 0 || expected >= MAX_FIELDS then Err(InvalidExpectedCount)
    else if |encoded| < 2 then Err(Truncated)
    else if FromBytes(encoded[..2]) != expected + 1 then Err(UnexpectedCount)
    else
      var r := ReadItems(encoded[2..], expected + 1);
      if r.Unreadable? then Err(r.error)
      else if r.rest != [] then Err(TrailingBytes)
      else if r.values == [] || r.values[0] != domain then Err(UnexpectedDomain)
      else Ok(r.values[1..])
  }

  /** Decoding succeeds exactly on a layout of the expected domain and field
      count, and then returns the fields it was laid out from. */
  lemma DecodeExact(encoded: Bytes, domain: Bytes, expected: int, fields: seq<Bytes>)
    ensures Decode(encoded, domain, expected) == Ok(fields) <==> Decodes(encoded, domain, expected, fields)
  {
    if 0 <= expected < MAX_FIELDS && |encoded| >= 2 {
      DecodesIsReading(encoded, domain, expected, fields);
      var r := ReadItems(encoded[2..], expected + 1);
      if r.Reading? {
        ReadItemsSound(encoded[2..], expected + 1);
        if r.values[0] == domain {
          assert r.values == [domain] + r.values[1..];
        }
        assert ([domain] + fields)[1..] == fields;
      }
    }
  }

  /** `decode_fields`. */
  method DecodeFields(encoded: Bytes, domain: Bytes, expected: int) returns (r: Result<seq<Bytes>>)
    ensures forall fields :: r == Ok(fields) <==> Decodes(encoded, domain, expected, fields)
    ensures r == Decode(encoded, domain, expected)
  {
    forall fields {
      DecodeExact(encoded, domain, expected, fields);
    }
    r := Read(encoded, domain, expected);
  }

  method Read(encoded: Bytes, domain: Bytes, expected: int) returns (r: Result<seq<Bytes>>)
    ensures r == Decode(encoded, domain, expected)
  {
    if expected < 0 || expected >= MAX_FIELDS {
      return Err(InvalidExpectedCount);
    }
    if |encoded| < 2 {
      return Err(Truncated);
    }
    var count := FromBytes(encoded[..2]);
    if count != expected + 1 {
      return Err(UnexpectedCount);
    }
    var read, offset := ReadAll(encoded, count);
    if read.Err? {
      return read;
    }
    var values := read.value;
    if offset != |encoded| {
      return Err(TrailingBytes);
    }
    if values == [] || values[0] != domain {
      return Err(UnexpectedDomain);
    }
    r := Ok(values[1..]);
  }

  /** The body of the decoding loop: one length and the field it announces. */
  method ReadField(encoded: Bytes, offset: nat) returns (value: Result<Bytes>, next: nat)
    requires offset <= |encoded|
    ensures value.Err? ==> ReadAt(encoded, offset) == Unreadable(value.error)
    ensures value.Ok? ==>
              offset < next <= |encoded| && ReadAt(encoded, offset) == Reading([value.value], encoded[next..])
  {
    next := offset;
    if |encoded| - offset < 4 {
      return Err(TruncatedLength), next;
    }
    var length := FromBytes(encoded[offset..offset + 4]);
    if length > MAX_FIELD_BYTES || |encoded| - (offset + 4) < length {
      return Err(InvalidLength), next;
    }
    next := offset + 4 + length;
    value := Ok(encoded[offset + 4..next]);
  }

  /** The decoding loop: an offset moves over the items that follow the header. */
  method ReadAll(encoded: Bytes, count: nat) returns (read: Result<seq<Bytes>>, offset: nat)
    requires |encoded| >= 2
    ensures offset <= |encoded|
    ensures ReadItems(encoded[2..], count) ==
            if read.Ok? then Reading(read.value, encoded[offset..]) else Unreadable(read.error)
  {
    hide ReadItems, ReadAt, FromBytes;
    offset := 2;
    var values := [];
    var i := 0;
    ghost var goal := ReadItems(encoded[2..], count);
    PrefixedEmpty(goal);
    while i < count
      invariant i <= count && 2 <= offset <= |encoded|
      invariant goal == Prefixed(values, ReadItems(encoded[offset..], count - i))
    {
      Turn(encoded, offset, values, count - i);
      var value, next := ReadField(encoded, offset);
      if value.Err? {
        return Err(value.error), offset;
      }
      values := values + [value.value];
      offset := next;
      i := i + 1;
    }
    PrefixedNothing(values, encoded[offset..]);
    read := Ok(values);
  }

  lemma PrefixedEmpty(r: Reading)
    ensures Prefixed([], r) == r
  {
    if r.Reading? {
      assert [] + r.values == r.values;
    }
  }

  lemma PrefixedNothing(values: seq<Bytes>, rest: Bytes)
    ensures Prefixed(values, ReadItems(rest, 0)) == Reading(values, rest)
  {
    assert values + [] == values;
  }

  /** What one turn of the loop reads at `offset`. */
  function ReadAt(encoded: Bytes, offset: nat): Reading
    requires offset <= |encoded|
  {
    if |encoded| - offset < 4 then Unreadable(TruncatedLength)
    else
      var length := FromBytes(encoded[offset..offset + 4]);
      var next := offset + 4 + length;
      if length > MAX_FIELD_BYTES || next > |encoded| then Unreadable(InvalidLength)
      else Reading([encoded[offset + 4..next]], encoded[next..])
  }

  lemma ReadAtIsReadItem(encoded: Bytes, offset: nat)
    requires offset <= |encoded|
    ensures ReadAt(encoded, offset) == ReadItem(encoded[offset..])
  {
    var data := encoded[offset..];
    if |data| >= 4 {
      assert encoded[offset..offset + 4] == data[..4];
      var next := 4 + FromBytes(data[..4]);
      if next <= |data| {
        assert encoded[offset + 4..offset + next] == data[4..next];
        assert encoded[offset + next..] == data[next..];
      }
    }
  }

  lemma Turn(encoded: Bytes, offset: nat, values: seq<Bytes>, count: nat)
    requires offset <= |encoded| && count > 0
    ensures Prefixed(values, ReadItems(encoded[offset..], count)) ==
            var first := ReadAt(encoded, offset);
            if first.Unreadable? then first
            else Prefixed(values + first.values, ReadItems(first.rest, count - 1))
  {
    ReadAtIsReadItem(encoded, offset);
    var first := ReadAt(encoded, offset);
    if first.Reading? {
      PrefixedTwice(values, first.values, ReadItems(first.rest, count - 1));
    }
  }

  lemma PrefixedTwice(front: seq<Bytes>, more: seq<Bytes>, r: Reading)
    ensures Prefixed(front, Prefixed(more, r)) == Prefixed(front + more, r)
  {
    if r.Reading? {
      assert front + (more + r.values) == front + more + r.values;
    }
  }

  /** The decoder inverts the encoder, and for a valid domain it accepts nothing
      the encoder cannot produce. */
  method RoundTrip(domain: Bytes, fields: seq<Bytes>, encoded: Bytes, expected: int)
    returns (sent: Result<Bytes>, back: Result<seq<Bytes>>, read: Result<seq<Bytes>>, again: Result<Bytes>)
    requires ValidDomain(domain)
    ensures sent.Ok? ==> back == Ok(fields)
    ensures read.Ok? ==> again == Ok(encoded)
  {
    sent := EncodeFields(domain, fields);
    back := Err(InvalidDomain);
    if sent.Ok? {
      back := DecodeFields(sent.value, domain, |fields|);
      assert Decodes(sent.value, domain, |fields|, fields);
    }
    read := DecodeFields(encoded, domain, expected);
    again := Err(InvalidDomain);
    if read.Ok? {
      again := EncodeFields(domain, read.value);
    }
  }
}
