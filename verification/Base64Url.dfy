/** Unpadded URL-safe Base64 (section 5 of RFC 4648), accepted only in the
    canonical form of section 3.5: unused trailing bits must be zero. */
module Base64Url {
  import opened Encoding

  newtype Digit = d: int | 0 <= d < 64

  function Symbol(d: Digit): char {
    var n := d as int;
    if n < 26 then ('A' as int + n) as char
    else if n < 52 then ('a' as int + n - 26) as char
    else if n < 62 then ('0' as int + n - 52) as char
    else if n == 62 then '-' else '_'
  }

  predicate IsSymbol(c: char) {
    'A' <= c <= 'Z' || 'a' <= c <= 'z' || '0' <= c <= '9' || c == '-' || c == '_'
  }

  function DigitOf(c: char): (d: Digit)
    requires IsSymbol(c)
    ensures Symbol(d) == c
  {
    if 'A' <= c <= 'Z' then (c as int - 'A' as int) as Digit
    else if 'a' <= c <= 'z' then (c as int - 'a' as int + 26) as Digit
    else if '0' <= c <= '9' then (c as int - '0' as int + 52) as Digit
    else if c == '-' then 62 else 63
  }

  lemma DigitOfSymbol(d: Digit)
    ensures IsSymbol(Symbol(d)) && DigitOf(Symbol(d)) == d
  {
  }

  predicate AllSymbols(text: string) {
    forall i | 0 <= i < |text| :: IsSymbol(text[i])
  }

  function Symbols(digits: seq<Digit>): (text: string)
    ensures |text| == |digits|
    ensures forall i | 0 <= i < |text| :: text[i] == Symbol(digits[i])
  {
    seq(|digits|, i requires 0 <= i < |digits| => Symbol(digits[i]))
  }

  function Digits(text: string): (digits: seq<Digit>)
    requires AllSymbols(text)
    ensures |digits| == |text|
    ensures forall i | 0 <= i < |text| :: digits[i] == DigitOf(text[i])
  {
    seq(|text|, i requires 0 <= i < |text| => DigitOf(text[i]))
  }

  // ------------------------------------------------------------ 6-bit groups

  /** The three bytes of a full group, or the first bytes of a short one. */
  function First(a: Digit, b: Digit): Byte { (a as int * 4 + b as int / 16) as Byte }
  function Second(b: Digit, c: Digit): Byte { (b as int % 16 * 16 + c as int / 4) as Byte }
  function Third(c: Digit, d: Digit): Byte { (c as int % 4 * 64 + d as int) as Byte }

  /** The four digits of a group; a short group is padded with zero bytes. */
  function DigitA(x: Byte): Digit { (x as int / 4) as Digit }
  function DigitB(x: Byte, y: Byte): Digit { (x as int % 4 * 16 + y as int / 16) as Digit }
  function DigitC(y: Byte, z: Byte): Digit { (y as int % 16 * 4 + z as int / 64) as Digit }
  function DigitD(z: Byte): Digit { (z as int % 64) as Digit }

  lemma BytesBack(x: Byte, y: Byte, z: Byte)
    ensures First(DigitA(x), DigitB(x, y)) == x
    ensures Second(DigitB(x, y), DigitC(y, z)) == y
    ensures Third(DigitC(y, z), DigitD(z)) == z
  {
  }

  lemma DigitsBack(a: Digit, b: Digit, c: Digit, d: Digit)
    ensures DigitA(First(a, b)) == a
    ensures DigitB(First(a, b), Second(b, c)) == b
    ensures DigitC(Second(b, c), Third(c, d)) == c
    ensures DigitD(Third(c, d)) == d
    ensures DigitB(First(a, b), 0) == b <==> b as int % 16 == 0
    ensures DigitC(Second(b, c), 0) == c <==> c as int % 4 == 0
  {
  }

  function Split(data: Bytes): (digits: seq<Digit>) {
    if |data| == 0 then []
    else if |data| == 1 then [DigitA(data[0]), DigitB(data[0], 0)]
    else if |data| == 2 then [DigitA(data[0]), DigitB(data[0], data[1]), DigitC(data[1], 0)]
    else
      [DigitA(data[0]), DigitB(data[0], data[1]), DigitC(data[1], data[2]), DigitD(data[2])]
      + Split(data[3..])
  }

  function Join(digits: seq<Digit>): (data: Bytes)
    requires |digits| % 4 != 1
  {
    if |digits| == 0 then []
    else if |digits| == 2 then [First(digits[0], digits[1])]
    else if |digits| == 3 then [First(digits[0], digits[1]), Second(digits[1], digits[2])]
    else
      [First(digits[0], digits[1]), Second(digits[1], digits[2]), Third(digits[2], digits[3])]
      + Join(digits[4..])
  }

  /** The bits of the last digit that belong to no byte. */
  predicate TrailingBitsZero(digits: seq<Digit>) {
    && (|digits| % 4 == 2 ==> digits[|digits| - 1] as int % 16 == 0)
    && (|digits| % 4 == 3 ==> digits[|digits| - 1] as int % 4 == 0)
  }

  lemma {:induction false} SplitLength(data: Bytes)
    ensures |Split(data)| == (4 * |data| + 2) / 3
    ensures |Split(data)| % 4 != 1
  {
    if |data| >= 3 {
      SplitLength(data[3..]);
    }
  }

  lemma {:induction false} JoinSplit(data: Bytes)
    ensures |Split(data)| % 4 != 1 && Join(Split(data)) == data
  {
    SplitLength(data);
    if |data| >= 3 {
      JoinSplit(data[3..]);
      JoinSplitGroup(data);
      assert data == data[..3] + data[3..];
    } else {
      JoinSplitShort(data);
    }
  }

  lemma JoinSplitGroup(data: Bytes)
    requires |data| >= 3 && |Split(data)| % 4 != 1 && |Split(data[3..])| % 4 != 1
    ensures Join(Split(data)) == data[..3] + Join(Split(data[3..]))
  {
    BytesBack(data[0], data[1], data[2]);
    var digits, rest := Split(data), Split(data[3..]);
    assert digits[0] == DigitA(data[0]) && digits[1] == DigitB(data[0], data[1]);
    assert digits[2] == DigitC(data[1], data[2]) && digits[3] == DigitD(data[2]);
    assert digits[4..] == rest;
    assert data[..3] == [data[0], data[1], data[2]];
  }

  lemma JoinSplitShort(data: Bytes)
    requires |data| < 3 && |Split(data)| % 4 != 1
    ensures Join(Split(data)) == data
  {
    if |data| == 2 {
      JoinSplitTwo(data[0], data[1]);
      assert data == [data[0], data[1]];
    } else if |data| == 1 {
      JoinSplitOne(data[0]);
      assert data == [data[0]];
    }
  }

  lemma JoinSplitOne(x: Byte)
    ensures Join([DigitA(x), DigitB(x, 0)]) == [x]
  {
    BytesBack(x, 0, 0);
  }

  lemma JoinSplitTwo(x: Byte, y: Byte)
    ensures Join([DigitA(x), DigitB(x, y), DigitC(y, 0)]) == [x, y]
  {
    BytesBack(x, y, 0);
  }

  lemma {:induction false} SplitJoin(digits: seq<Digit>)
    requires |digits| % 4 != 1
    ensures Split(Join(digits)) == digits <==> TrailingBitsZero(digits)
    decreases |digits|
  {
    if |digits| >= 4 {
      SplitJoin(digits[4..]);
      SplitJoinGroup(digits);
      TrailingOfTail(digits);
      SameTail(digits, Split(Join(digits[4..])));
    } else {
      SplitJoinShort(digits);
    }
  }

  lemma TrailingOfTail(digits: seq<Digit>)
    requires |digits| >= 4
    ensures TrailingBitsZero(digits) <==> TrailingBitsZero(digits[4..])
  {
    assert |digits| > 4 ==> digits[4..][|digits| - 5] == digits[|digits| - 1];
  }

  lemma SameTail(digits: seq<Digit>, tail: seq<Digit>)
    requires |digits| >= 4
    ensures [digits[0], digits[1], digits[2], digits[3]] + tail == digits <==> tail == digits[4..]
  {
    var group := [digits[0], digits[1], digits[2], digits[3]];
    assert (group + tail)[4..] == tail;
    assert digits == group + digits[4..];
  }

  lemma SplitJoinShort(digits: seq<Digit>)
    requires |digits| % 4 != 1 && |digits| < 4
    ensures Split(Join(digits)) == digits <==> TrailingBitsZero(digits)
  {
    if |digits| == 3 {
      SplitJoinLengthThree(digits);
    } else if |digits| == 2 {
      SplitJoinLengthTwo(digits);
    }
  }

  lemma SplitJoinLengthTwo(digits: seq<Digit>)
    requires |digits| == 2
    ensures Split(Join(digits)) == digits <==> TrailingBitsZero(digits)
  {
    SplitJoinTwo(digits[0], digits[1]);
    assert digits == [digits[0], digits[1]];
  }

  lemma SplitJoinLengthThree(digits: seq<Digit>)
    requires |digits| == 3
    ensures Split(Join(digits)) == digits <==> TrailingBitsZero(digits)
  {
    SplitJoinThree(digits[0], digits[1], digits[2]);
    assert digits == [digits[0], digits[1], digits[2]];
  }

  lemma SplitJoinTwo(a: Digit, b: Digit)
    ensures Split(Join([a, b])) == [a, b] <==> TrailingBitsZero([a, b])
  {
    DigitsBack(a, b, 0, 0);
    var back := Split([First(a, b)]);
    assert back[0] == a && back[1] == DigitB(First(a, b), 0);
  }

  lemma SplitJoinThree(a: Digit, b: Digit, c: Digit)
    ensures Split(Join([a, b, c])) == [a, b, c] <==> TrailingBitsZero([a, b, c])
  {
    DigitsBack(a, b, c, 0);
    var back := Split([First(a, b), Second(b, c)]);
    assert back[0] == a && back[1] == b && back[2] == DigitC(Second(b, c), 0);
  }

  lemma SplitJoinGroup(digits: seq<Digit>)
    requires |digits| % 4 != 1 && |digits| >= 4
    ensures Split(Join(digits)) == [digits[0], digits[1], digits[2], digits[3]] + Split(Join(digits[4..]))
  {
    DigitsBack(digits[0], digits[1], digits[2], digits[3]);
    var data := Join(digits);
    assert data[3..] == Join(digits[4..]);
  }

  // ------------------------------------------------------------- the two calls

  function Encode(data: Bytes): string {
    Symbols(Split(data))
  }

  /** `b64url_decode` with its optional length check; -1 stands for none. */
  function DecodeText(text: string, expectedLength: int): Result<Bytes> {
    if text == "" || !AllSymbols(text) || |text| % 4 == 1 then Err(InvalidText)
    else
      var data := Join(Digits(text));
      if Encode(data) != text then Err(NonCanonical)
      else if expectedLength >= 0 && |data| != expectedLength then Err(WrongLength)
      else Ok(data)
  }

  /** Encoding n bytes takes ceil(4n/3) characters and decoding returns them. */
  lemma Base64RoundTrip(data: Bytes)
    ensures |Encode(data)| == (4 * |data| + 2) / 3
    ensures data != [] ==> DecodeText(Encode(data), -1) == Ok(data) == DecodeText(Encode(data), |data|)
    ensures data == [] ==> DecodeText(Encode(data), -1).Err?
  {
    SplitLength(data);
    JoinSplit(data);
    var text := Encode(data);
    forall i | 0 <= i < |text|
      ensures IsSymbol(text[i]) && DigitOf(text[i]) == Split(data)[i]
    {
      DigitOfSymbol(Split(data)[i]);
    }
    assert Digits(text) == Split(data);
  }

  /** A text decodes exactly when it is the encoding of the result; no second
      spelling of the same bytes is accepted. */
  lemma Base64Image(text: string, data: Bytes)
    ensures DecodeText(text, -1) == Ok(data) <==> data != [] && text == Encode(data)
  {
    Base64RoundTrip(data);
    if DecodeText(text, -1) == Ok(data) {
      assert Encode(data) == text;
    }
  }

  /** The accepted language, read off the characters alone: non-empty, in the
      alphabet, of a possible length, with no stray bits in the last one. */
  lemma Base64Accepts(text: string)
    ensures DecodeText(text, -1).Ok? <==>
            && text != ""
            && AllSymbols(text)
            && |text| % 4 != 1
            && TrailingBitsZero(Digits(text))
  {
    if text != "" && AllSymbols(text) && |text| % 4 != 1 {
      var digits := Digits(text);
      SplitJoin(digits);
      var again := Split(Join(digits));
      if again == digits {
        assert Symbols(again) == text;
      }
      if Symbols(again) == text {
        forall i | 0 <= i < |digits|
          ensures again[i] == digits[i]
        {
          DigitOfSymbol(again[i]);
          assert text[i] == Symbols(again)[i] == Symbol(again[i]);
        }
        assert again == digits;
      }
    }
  }

  /** `b64url_decode` in full: which text gives which bytes, and what is refused as
      text, as a second spelling, or for its length alone. */
  lemma DecodeExactly(text: string, expectedLength: int, data: Bytes)
    ensures DecodeText(text, expectedLength) == Ok(data) <==>
            data != [] && text == Encode(data) && (expectedLength < 0 || expectedLength == |data|)
    ensures DecodeText(text, expectedLength) == Err(WrongLength) <==>
            DecodeText(text, -1).Ok? && expectedLength >= 0 && |DecodeText(text, -1).value| != expectedLength
    ensures DecodeText(text, expectedLength) == Err(InvalidText) <==>
            text == "" || !AllSymbols(text) || |text| % 4 == 1
  {
    Base64Image(text, data);
  }

  function Letters(first: char, n: nat): (text: string)
    requires first as int + n <= 0x80
    ensures |text| == n
  {
    seq(n, i requires 0 <= i < n => (first as int + i) as char)
  }

  const ALPHABET: string := Letters('A', 26) + Letters('a', 26) + Letters('0', 10) + "-_"

  lemma AlphabetInOrder(d: Digit)
    ensures |ALPHABET| == 64 && Symbol(d) == ALPHABET[d as int]
  {
  }

  function ByteAt(data: Bytes, i: nat): int {
    if i < |data| then data[i] as int else 0
  }

  /** Three bytes as one number of 24 bits, with zero bits for missing bytes. */
  function ByteGroup(data: Bytes, g: nat): int {
    ByteAt(data, 3 * g) * 0x10000 + ByteAt(data, 3 * g + 1) * 0x100 + ByteAt(data, 3 * g + 2)
  }

  function DigitAt(digits: seq<Digit>, i: nat): int {
    if i < |digits| then digits[i] as int else 0
  }

  /** Four digits as one number of 24 bits, the first digit highest. */
  function DigitGroup(digits: seq<Digit>, g: nat): int {
    DigitAt(digits, 4 * g) * 0x40000 + DigitAt(digits, 4 * g + 1) * 0x1000 + DigitAt(digits, 4 * g + 2) * 0x40
    + DigitAt(digits, 4 * g + 3)
  }

  lemma GroupValue(x: Byte, y: Byte, z: Byte)
    ensures DigitA(x) as int * 0x40000 + DigitB(x, y) as int * 0x1000 + DigitC(y, z) as int * 0x40 + DigitD(z) as int
            == x as int * 0x10000 + y as int * 0x100 + z as int
  {
  }

  lemma {:induction false} SplitGroups(data: Bytes, g: nat)
    ensures DigitGroup(Split(data), g) == ByteGroup(data, g)
  {
    hide DigitA, DigitB, DigitC, DigitD;
    if g == 0 {
      GroupValue(ByteAt(data, 0) as Byte, ByteAt(data, 1) as Byte, ByteAt(data, 2) as Byte);
      ShortDigits();
    } else if |data| >= 3 {
      SplitGroups(data[3..], g - 1);
      TailGroups(data, g);
    } else {
      SplitLength(data);
    }
  }

  /** The digits a short group has no character for are zero. */
  lemma ShortDigits()
    ensures DigitC(0, 0) == 0 && DigitD(0) == 0
  {
  }

  lemma ByteTail(data: Bytes, i: nat)
    requires |data| >= 3 && i >= 3
    ensures ByteAt(data, i) == ByteAt(data[3..], i - 3)
  {
  }

  lemma DigitTail(data: Bytes, i: nat)
    requires |data| >= 3 && i >= 4
    ensures DigitAt(Split(data), i) == DigitAt(Split(data[3..]), i - 4)
  {
    hide DigitA, DigitB, DigitC, DigitD;
  }

  lemma TailGroups(data: Bytes, g: nat)
    requires |data| >= 3 && g >= 1
    ensures ByteGroup(data, g) == ByteGroup(data[3..], g - 1)
    ensures DigitGroup(Split(data), g) == DigitGroup(Split(data[3..]), g - 1)
  {
    hide ByteAt, DigitAt, Split;
    ByteTail(data, 3 * g);
    ByteTail(data, 3 * g + 1);
    ByteTail(data, 3 * g + 2);
    DigitTail(data, 4 * g);
    DigitTail(data, 4 * g + 1);
    DigitTail(data, 4 * g + 2);
    DigitTail(data, 4 * g + 3);
  }

  /** The encoding as section 4 of RFC 4648 describes it, over the alphabet of its
      section 5: four characters carry the 24 bits of three bytes, high bits first. */
  lemma EncodedGroups(data: Bytes, g: nat)
    ensures AllSymbols(Encode(data)) && DigitGroup(Digits(Encode(data)), g) == ByteGroup(data, g)
  {
    SplitGroups(data, g);
    var text := Encode(data);
    forall i | 0 <= i < |text|
      ensures IsSymbol(text[i]) && DigitOf(text[i]) == Split(data)[i]
    {
      DigitOfSymbol(Split(data)[i]);
    }
    assert Digits(text) == Split(data);
  }
}
