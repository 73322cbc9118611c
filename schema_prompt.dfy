/** formatSchemaForPrompt (reference-files/lib/snowflake.ts:225-244; the same function is at
    lib/snowflake.ts:266-285): the introspected tables as the plain-text schema block of the
    older prompt. `fmt` stands for `Number.prototype.toLocaleString`. */
module SchemaPrompt {
  import opened Common
  import opened Text
  import opened Records

  /** The five lines every schema block starts with. */
  function Header(database: string, schema: string): seq<string> {
    ["Database: " + database, "Schema: " + schema, "", "Available tables:", ""]
  }

  function ColumnLine(c: ColumnInfo): string {
    "  - " + c.name + " (" + c.dataType + ", " + (if c.nullable then "NULL" else "NOT NULL") + ")"
    + (if c.comment != "" then " -- " + c.comment else "")
  }

  function TableHeading(t: TableInfo, fmt: int -> string): string {
    "### " + t.name + " (" + t.tableType + ", ~" + fmt(t.rowCount) + " rows)"
  }

  /** The lines of one table: its heading, its description when it has a comment, one line per
      column, and a blank line. */
  function TableLines(t: TableInfo, fmt: int -> string): seq<string> {
    [TableHeading(t, fmt)]
    + (if t.comment != "" then ["  Description: " + t.comment] else [])
    + seq(|t.columns|, j requires 0 <= j < |t.columns| => ColumnLine(t.columns[j]))
    + [""]
  }

  /** The lines of a run of tables, in order. */
  function AllTableLines(tables: seq<TableInfo>, fmt: int -> string): seq<string> {
    if tables == [] then []
    else AllTableLines(tables[..|tables| - 1], fmt) + TableLines(tables[|tables| - 1], fmt)
  }

  function SchemaLines(tables: seq<TableInfo>, database: string, schema: string, fmt: int -> string): seq<string> {
    Header(database, schema) + AllTableLines(tables, fmt)
  }

  /** The lines one table pushes. */
  method PushTableLines(table: TableInfo, fmt: int -> string) returns (block: seq<string>)
    ensures block == TableLines(table, fmt)
  {
    block := [TableHeading(table, fmt)];
    if table.comment != "" {
      block := block + ["  Description: " + table.comment];
    }
    ghost var head := block;
    var j := 0;
    while j < |table.columns|
      invariant 0 <= j <= |table.columns|
      invariant block == head + seq(j, k requires 0 <= k < j => ColumnLine(table.columns[k]))
    {
      block := block + [ColumnLine(table.columns[j])];
      j := j + 1;
    }
    block := block + [""];
  }

  /** The builder as the source runs it: push the header, then for each table its heading,
      optional description, column lines and a blank line; join with newlines. */
  method FormatSchemaForPrompt(tables: seq<TableInfo>, database: string, schema: string,
                               fmt: int -> string) returns (text: string)
    ensures text == Join(SchemaLines(tables, database, schema, fmt), "\n")
  {
    var lines := Header(database, schema);
    var i := 0;
    while i < |tables|
      invariant 0 <= i <= |tables|
      invariant lines == Header(database, schema) + AllTableLines(tables[..i], fmt)
    {
      var block := PushTableLines(tables[i], fmt);
      assert tables[..i + 1][..i] == tables[..i];
      lines := lines + block;
      i := i + 1;
    }
    assert tables[..|tables|] == tables;
    text := Join(lines, "\n");
  }

  /** Each table contributes its heading, a description line exactly when its comment is not
      empty, one line per column, and a closing blank line. */
  lemma TableLinesShape(t: TableInfo, fmt: int -> string)
    ensures var ls := TableLines(t, fmt);
      var d := if t.comment != "" then 1 else 0;
      && |ls| == |t.columns| + d + 2
      && ls[0] == TableHeading(t, fmt)
      && (t.comment != "" ==> ls[1] == "  Description: " + t.comment)
      && (forall j :: 0 <= j < |t.columns| ==> ls[1 + d + j] == ColumnLine(t.columns[j]))
      && ls[|ls| - 1] == ""
  {
  }

  /** A column line carries a " -- comment" tail exactly when the comment is not empty, and says
      NULL or NOT NULL according to the column. */
  lemma ColumnLineShape(c: ColumnInfo)
    ensures var base := "  - " + c.name + " (" + c.dataType + ", " + (if c.nullable then "NULL" else "NOT NULL") + ")";
      && StartsWith(ColumnLine(c), base)
      && (c.comment == "" <==> ColumnLine(c) == base)
  {
    var base := "  - " + c.name + " (" + c.dataType + ", " + (if c.nullable then "NULL" else "NOT NULL") + ")";
    assert ColumnLine(c)[..|base|] == base;
    if c.comment != "" {
      assert |ColumnLine(c)| > |base|;
    }
  }

  /** The block has the five header lines followed by every table's lines, in table order:
      appending a table appends exactly its lines. */
  lemma {:induction false} AllTableLinesAppend(tables: seq<TableInfo>, more: seq<TableInfo>, fmt: int -> string)
    ensures AllTableLines(tables + more, fmt) == AllTableLines(tables, fmt) + AllTableLines(more, fmt)
    decreases |more|
  {
    if more == [] {
      assert tables + more == tables;
    } else {
      var init := more[..|more| - 1];
      DropLastOfConcat(tables, more);
      AllTableLinesAppend(tables, init, fmt);
      AppendAssoc(AllTableLines(tables, fmt), AllTableLines(init, fmt), TableLines(more[|more| - 1], fmt));
    }
  }
}
