/** The paginated `board_list` reply: its compact JSON text, the loop that packs
    records under the frame limit, and why a page can always hold one record. */
module BoardPaging {
  import opened Encoding
  import Base64Url
  import opened Board

  const MIN_FRAME_LIMIT: nat := 12_288
  const MAX_REQUEST_ID: nat := 64
  const MAX_INTEGER: nat := 0x7FFF_FFFF_FFFF_FFFF

  function Decimal(n: nat): (text: string)
    ensures |text| > 0
  {
    var digit := ('0' as int + n % 10) as char;
    if n < 10 then [digit] else Decimal(n / 10) + [digit]
  }

  function Pow10(k: nat): nat {
    if k == 0 then 1 else 10 * Pow10(k - 1)
  }

  lemma {:induction false} DecimalLength(n: nat, k: nat)
    requires k > 0 && n < Pow10(k)
    ensures |Decimal(n)| <= k
  {
    if n >= 10 {
      assert k > 1 by {
        assert Pow10(1) == 10 * Pow10(0);
      }
      DecimalLength(n / 10, k - 1);
    }
  }

  lemma IntegerLength(n: nat)
    requires n <= MAX_INTEGER
    ensures |Decimal(n)| <= 19
  {
    assert Pow10(5) == 100_000 by {
      assert Pow10(2) == 100 && Pow10(3) == 10 * Pow10(2) && Pow10(4) == 10 * Pow10(3);
    }
    assert Pow10(10) == 10_000_000_000 by {
      assert Pow10(7) == 100 * Pow10(5) && Pow10(9) == 100 * Pow10(7);
    }
    assert Pow10(15) == 1_000_000_000_000_000 by {
      assert Pow10(12) == 100 * Pow10(10) && Pow10(14) == 100 * Pow10(12);
    }
    assert Pow10(19) == 10_000_000_000_000_000_000 by {
      assert Pow10(17) == 100 * Pow10(15);
    }
    DecimalLength(n, 19);
  }

  /** What the database can hold: 16-byte blobs, bounded ciphertext, 63-bit times. */
  predicate WireRow(row: Row) {
    && row.record.id < Pow256(16)
    && row.record.token < Pow256(16)
    && |row.record.ciphertext| <= MAX_CIPHERTEXT
    && row.createdAt <= MAX_INTEGER
    && row.expiresAt <= MAX_INTEGER
  }

  predicate WireRows(rows: seq<Row>) {
    forall i | 0 <= i < |rows| :: WireRow(rows[i])
  }

  function BlobText(value: nat): (text: string)
    requires value < Pow256(16)
    ensures |text| == 22
  {
    var data := ToBytes(value, 16);
    Base64Url.Base64RoundTrip(data);
    Base64Url.Encode(data)
  }

  function RowJson(row: Row): string
    requires WireRow(row)
  {
    "{\"ciphertext\":\"" + Base64Url.Encode(row.record.ciphertext)
    + "\",\"created_at\":" + Decimal(row.createdAt)
    + ",\"display_token\":\"" + BlobText(row.record.token)
    + "\",\"expires_at\":" + Decimal(row.expiresAt)
    + ",\"message_id\":\"" + BlobText(row.record.id) + "\"}"
  }

  function RowsJson(rows: seq<Row>): string
    requires WireRows(rows)
  {
    if rows == [] then ""
    else if |rows| == 1 then RowJson(rows[0])
    else RowJson(rows[0]) + "," + RowsJson(rows[1..])
  }

  /** The reply as sent: keys sorted, no spaces, one line feed. */
  function PageJson(requestId: string, sequence: nat, offset: nat, next: nat, done: bool, rows: seq<Row>): string
    requires WireRows(rows)
  {
    "{\"done\":" + (if done then "true" else "false")
    + ",\"next_offset\":" + Decimal(next)
    + ",\"offset\":" + Decimal(offset)
    + ",\"records\":[" + RowsJson(rows)
    + "],\"request_id\":\"" + requestId
    + "\",\"restart\":false,\"sequence\":" + Decimal(sequence)
    + ",\"type\":\"board_list\",\"v\":1}\n"
  }

  // ------------------------------------------------------------------ lengths

  function RowBytes(row: Row): nat
    requires WireRow(row)
  {
    124 + |Base64Url.Encode(row.record.ciphertext)| + |Decimal(row.createdAt)| + |Decimal(row.expiresAt)|
  }

  function RowsBytes(rows: seq<Row>): nat
    requires WireRows(rows)
  {
    if rows == [] then 0
    else if |rows| == 1 then RowBytes(rows[0])
    else RowBytes(rows[0]) + 1 + RowsBytes(rows[1..])
  }

  function PageBytes(requestId: string, sequence: nat, offset: nat, next: nat, done: bool, rows: seq<Row>): nat
    requires WireRows(rows)
  {
    (if done then 4 else 5) + |Decimal(next)| + |Decimal(offset)| + RowsBytes(rows) + |requestId|
    + |Decimal(sequence)| + 118
  }

  lemma RowLength(row: Row)
    requires WireRow(row)
    ensures |RowJson(row)| == RowBytes(row)
  {
  }

  lemma {:induction false} RowsLength(rows: seq<Row>)
    requires WireRows(rows)
    ensures |RowsJson(rows)| == RowsBytes(rows)
  {
    if |rows| == 1 {
      RowLength(rows[0]);
    } else if rows != [] {
      RowLength(rows[0]);
      RowsLength(rows[1..]);
    }
  }

  /** The size the loop compares with the limit is the length of the text. */
  lemma PageLength(requestId: string, sequence: nat, offset: nat, next: nat, done: bool, rows: seq<Row>)
    requires WireRows(rows)
    ensures |PageJson(requestId, sequence, offset, next, done, rows)|
            == PageBytes(requestId, sequence, offset, next, done, rows)
  {
    RowsLength(rows);
  }

  /** One request against one listing. */
  datatype Query = Query(requestId: string, sequence: nat, offset: nat, limit: nat, list: seq<Row>)

  predicate Sound(q: Query) {
    && q.offset <= |q.list|
    && WireRows(q.list)
  }

  predicate Fits(q: Query, next: nat)
    requires Sound(q) && q.offset <= next <= |q.list|
  {
    PageBytes(q.requestId, q.sequence, q.offset, next, next >= |q.list|, q.list[q.offset..next]) <= q.limit
  }

  /** `next` ends the page: every record up to it fitted, the one after did not. */
  ghost predicate EndsPage(q: Query, next: nat)
    requires Sound(q)
  {
    && q.offset <= next <= |q.list|
    && (forall k | q.offset < k <= next :: Fits(q, k))
    && (next < |q.list| ==> !Fits(q, next + 1))
  }

  /** The packing loop; the reply sent is the last candidate that fitted. */
  method PackPage(q: Query) returns (next: nat)
    requires Sound(q)
    ensures EndsPage(q, next)
  {
    next := q.offset;
    while next < |q.list|
      invariant q.offset <= next <= |q.list|
      invariant forall k | q.offset < k <= next :: Fits(q, k)
    {
      if !Fits(q, next + 1) {
        break;
      }
      next := next + 1;
    }
  }

  lemma EndsPageUnique(q: Query, a: nat, b: nat)
    requires Sound(q) && EndsPage(q, a) && EndsPage(q, b)
    ensures a == b
  {
  }

  lemma RowBytesBound(row: Row)
    requires WireRow(row)
    ensures RowBytes(row) <= 11_085
  {
    Base64Url.Base64RoundTrip(row.record.ciphertext);
    IntegerLength(row.createdAt);
    IntegerLength(row.expiresAt);
  }

  lemma EnvelopeBound(q: Query, next: nat)
    requires Sound(q) && q.offset <= next <= |q.list| <= CAPACITY
    requires |q.requestId| <= MAX_REQUEST_ID && q.sequence <= MAX_INTEGER
    ensures PageBytes(q.requestId, q.sequence, q.offset, next, next >= |q.list|, q.list[q.offset..next])
            <= RowsBytes(q.list[q.offset..next]) + 210
  {
    IntegerLength(q.sequence);
    assert Pow10(2) == 100 by {
      assert Pow10(1) == 10;
    }
    DecimalLength(next, 2);
    DecimalLength(q.offset, 2);
  }

  /** One maximum-size record always fits, so every page but one past the end
      advances: the relay's "page too large" error is unreachable. */
  lemma PageAdvances(q: Query, next: nat)
    requires Sound(q) && |q.list| <= CAPACITY && q.limit >= MIN_FRAME_LIMIT
    requires |q.requestId| <= MAX_REQUEST_ID && q.sequence <= MAX_INTEGER
    requires EndsPage(q, next)
    ensures q.offset < |q.list| ==> next > q.offset
    ensures Fits(q, next)
  {
    if q.offset < |q.list| {
      var one := q.list[q.offset..q.offset + 1];
      RowBytesBound(q.list[q.offset]);
      assert RowsBytes(one) == RowBytes(q.list[q.offset]);
      EnvelopeBound(q, q.offset + 1);
      assert Fits(q, q.offset + 1);
    } else {
      EnvelopeBound(q, next);
      assert q.list[q.offset..next] == [];
    }
  }
}
