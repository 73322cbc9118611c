/** How executeQuery turns the warehouse's raw rows into the result it returns
    (lib/snowflake.ts:127-147, reference-files/lib/snowflake.ts:93-113): the column names, the
    rows cut to the tenant's row cap with `slice`, each row rebuilt as a record keyed by the
    column names with dates and binary values made JSON-safe, and the truncation flag. */
module Results {
  import opened Common

  newtype Byte = x: int | 0 <= x < 256

  /** A value the warehouse driver can hand back for one cell; `Undefined` is a column name the
      row has no entry for. */
  datatype Cell =
    | Undefined
    | Null
    | Str(s: string)
    | Num(n: int)
    | Bool(b: bool)
    | Date(epochMs: int)
    | Bytes(data: seq<Byte>)

  type Row = map<string, Cell>
  type Record = map<string, Cell>

  /** A cell JSON can carry as it is: neither a date nor a binary value. */
  predicate JsonSafe(c: Cell) {
    !c.Date? && !c.Bytes?
  }

  /** Lower-case hexadecimal digit of a nibble. */
  function HexDigit(n: nat): char
    requires n < 16
  {
    if n < 10 then ('0' as int + n) as char else ('a' as int + n - 10) as char
  }

  /** Value of a lower-case hexadecimal digit (0 for any other character). */
  function NibbleOf(c: char): nat {
    if '0' <= c <= '9' then c as int - '0' as int
    else if 'a' <= c <= 'f' then c as int - 'a' as int + 10
    else 0
  }

  /** `buffer.toString("hex")`: two lower-case digits per byte. */
  function Hex(data: seq<Byte>): (h: string)
    ensures |h| == 2 * |data|
  {
    if data == [] then []
    else [HexDigit(data[0] as int / 16), HexDigit(data[0] as int % 16)] + Hex(data[1..])
  }

  /** Reading hexadecimal text back into bytes, two digits at a time. */
  function FromHex(h: string): seq<Byte>
    decreases |h|
  {
    if |h| < 2 then []
    else [((NibbleOf(h[0]) * 16 + NibbleOf(h[1])) % 256) as Byte] + FromHex(h[2..])
  }

  /** The hex text of a binary cell determines the bytes: no two byte strings serialise to the
      same text. */
  lemma {:induction false} FromHexOfHex(data: seq<Byte>)
    ensures FromHex(Hex(data)) == data
  {
    if data != [] {
      var h := Hex(data);
      var b := data[0] as int;
      assert NibbleOf(HexDigit(b / 16)) == b / 16;
      assert NibbleOf(HexDigit(b % 16)) == b % 16;
      assert h[2..] == Hex(data[1..]);
      FromHexOfHex(data[1..]);
    }
  }

  /** The per-cell conversion: a date becomes its ISO text, a binary value its hex text,
      anything else is kept. `iso` stands for `Date.prototype.toISOString`. */
  function SerializeCell(c: Cell, iso: int -> string): Cell {
    match c
    case Date(ms) => Str(iso(ms))
    case Bytes(d) => Str(Hex(d))
    case _ => c
  }

  /** Every converted cell is JSON-safe, only dates and binary values are changed, and the
      original bytes can be read back from a converted binary value. */
  lemma SerializeCellSpec(c: Cell, iso: int -> string)
    ensures JsonSafe(SerializeCell(c, iso))
    ensures JsonSafe(c) ==> SerializeCell(c, iso) == c
    ensures c.Date? ==> SerializeCell(c, iso) == Str(iso(c.epochMs))
    ensures c.Bytes? ==> SerializeCell(c, iso).Str? && FromHex(SerializeCell(c, iso).s) == c.data
  {
    if c.Bytes? {
      FromHexOfHex(c.data);
    }
  }

  /** `row[col]`. */
  function Lookup(row: Row, col: string): Cell {
    if col in row then row[col] else Undefined
  }

  /** The record built for one row: one entry per column name, holding the converted cell. */
  function RecordOf(row: Row, cols: seq<string>, iso: int -> string): Record {
    map c | c in cols :: SerializeCell(Lookup(row, c), iso)
  }

  /** The per-row loop: each column name in turn gets the converted cell (a repeated name is
      written again with the same value). */
  method BuildRecord(row: Row, cols: seq<string>, iso: int -> string) returns (record: Record)
    ensures record == RecordOf(row, cols, iso)
    ensures record.Keys == set c | c in cols
    ensures forall c :: c in record ==> JsonSafe(record[c])
  {
    record := map[];
    var i := 0;
    while i < |cols|
      invariant 0 <= i <= |cols|
      invariant record == RecordOf(row, cols[..i], iso)
    {
      var col := cols[i];
      var val := Lookup(row, col);
      if val.Date? {
        val := Str(iso(val.epochMs));
      } else if val.Bytes? {
        val := Str(Hex(val.data));
      }
      record := record[col := val];
      assert cols[..i + 1] == cols[..i] + [col];
      i := i + 1;
    }
    assert cols[..|cols|] == cols;
    forall c | c in record ensures JsonSafe(record[c]) {
      SerializeCellSpec(Lookup(row, c), iso);
    }
  }

  /** The `data.map(...)` over the kept rows, one record per row. */
  method BuildRecords(rows: seq<Row>, cols: seq<string>, iso: int -> string) returns (data: seq<Record>)
    ensures |data| == |rows|
    ensures forall i :: 0 <= i < |rows| ==> data[i] == RecordOf(rows[i], cols, iso)
  {
    data := [];
    var i := 0;
    while i < |rows|
      invariant 0 <= i <= |rows|
      invariant |data| == i
      invariant forall k :: 0 <= k < i ==> data[k] == RecordOf(rows[k], cols, iso)
    {
      var record := BuildRecord(rows[i], cols, iso);
      data := data + [record];
      i := i + 1;
    }
  }

  /** The end index of `rows.slice(0, cap)` on `n` rows; None is a NaN cap, which slices to
      nothing, and a negative cap counts back from the end. */
  function SliceEnd(n: nat, cap: Option<int>): (e: nat)
    ensures e <= n
  {
    if cap.None? then 0
    else if cap.value >= 0 then (if cap.value < n then cap.value else n)
    else if n + cap.value > 0 then n + cap.value
    else 0
  }

  /** What executeQuery resolves with. */
  datatype QueryResult = QueryResult(columns: seq<string>, data: seq<Record>, rowCount: int, truncated: bool)

  /** The result of a statement: `columns` is the statement's column names (None when the
      driver gives no statement metadata), `rows` the rows (None when it gives none). */
  function Shape(columns: Option<seq<string>>, rows: Option<seq<Row>>, cap: Option<int>,
                 iso: int -> string): QueryResult
  {
    var cols := if columns.Some? then columns.value else [];
    var all := if rows.Some? then rows.value else [];
    var kept := all[..SliceEnd(|all|, cap)];
    var data := seq(|kept|, i requires 0 <= i < |kept| => RecordOf(kept[i], cols, iso));
    QueryResult(cols, data, |data|, cap.Some? && |all| >= cap.value)
  }

  /** The shaping as the source runs it: slice, the record loop, then the count and flag. */
  method ShapeResult(columns: Option<seq<string>>, rows: Option<seq<Row>>, cap: Option<int>,
                     iso: int -> string) returns (r: QueryResult)
    ensures r == Shape(columns, rows, cap, iso)
  {
    var cols := if columns.Some? then columns.value else [];
    var all := if rows.Some? then rows.value else [];
    var kept := all[..SliceEnd(|all|, cap)];
    var truncated := cap.Some? && |all| >= cap.value;
    var data := BuildRecords(kept, cols, iso);
    r := QueryResult(cols, data, |data|, truncated);
  }

  /** With a non-negative cap the data is the first min(n, cap) rows, each as its record,
      `rowCount` is the number of records (so at most the cap), `truncated` holds exactly when
      the statement produced at least `cap` rows, and every record's keys are the column
      names. */
  lemma ShapeWithCap(columns: Option<seq<string>>, rows: seq<Row>, cap: int, iso: int -> string)
    requires cap >= 0
    ensures var r := Shape(columns, Some(rows), Some(cap), iso);
      var cols := if columns.Some? then columns.value else [];
      && |r.data| == (if |rows| < cap then |rows| else cap)
      && r.rowCount == |r.data| <= cap
      && (r.truncated <==> |rows| >= cap)
      && (forall i :: 0 <= i < |r.data| ==> r.data[i] == RecordOf(rows[i], cols, iso))
      && (forall i :: 0 <= i < |r.data| ==> r.data[i].Keys == set c | c in cols)
  {
  }

  /** A statement producing exactly `cap` rows returns all of them and still reports
      truncation. */
  lemma ExactlyCapRowsReportsTruncated(columns: Option<seq<string>>, rows: seq<Row>, iso: int -> string)
    ensures var r := Shape(columns, Some(rows), Some(|rows|), iso);
      r.rowCount == |rows| && r.truncated
  {
  }

  /** A NaN cap (an unparsable MAX_ROWS_PER_QUERY) returns no rows and never reports
      truncation; a negative cap drops that many rows from the end and always reports it. */
  lemma OddCaps(columns: Option<seq<string>>, rows: seq<Row>, cap: int, iso: int -> string)
    ensures Shape(columns, Some(rows), None, iso).data == []
    ensures !Shape(columns, Some(rows), None, iso).truncated
    ensures cap < 0 ==>
      var r := Shape(columns, Some(rows), Some(cap), iso);
      r.rowCount == (if |rows| + cap > 0 then |rows| + cap else 0) && r.truncated
  {
  }
}
