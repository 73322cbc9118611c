/** buildEnrichedContext: the schema block of the current system prompt, assembled from the raw
    schema, the curated table and column overlays and the business glossary
    (lib/claude-enhanced.ts:71-242), and its older cache-only variant
    (reference-files/lib/claude-enhanced.ts:22-184). Curated fields that hold JSON text are
    seen through `JSON.parse` as an `Overlay`; `fmt` stands for `toLocaleString`. */
module EnrichedContext {
  import opened Common
  import opened Text
  import opened Records
  import SchemaCatalog

  /** A curated field holding JSON text: null or empty (falsy), text whose parse throws or
      lacks the operation applied to it (`join`, `length`), or the parsed value. */
  datatype Overlay<T> = Unset | Malformed | Parsed(value: T)

  /** One entry of `commonJoins`, its fields already converted to text. */
  datatype JoinHint = JoinHint(kind: string, table: string, on: string)

  /** One entry of `sampleQueries`. */
  datatype Example = Example(question: string, sql: string)

  /** A curated column row. Optional text columns are "" when null. */
  datatype ColumnMeta = ColumnMeta(
    columnName: string, description: string, unit: string, computedLogic: string,
    isPrimaryKey: bool, isForeignKey: bool, foreignKeyRef: Option<string>,
    synonyms: Overlay<seq<string>>, valueMapping: Overlay<seq<(string, string)>>,
    sampleValues: Overlay<seq<string>>)

  /** A curated table row with its column rows. */
  datatype TableMeta = TableMeta(
    tableName: string, displayName: string, description: string, grainDescription: string,
    dataSource: string, updateFrequency: string, importantNotes: string,
    commonJoins: Overlay<seq<JoinHint>>, commonFilters: Overlay<seq<string>>,
    sampleQueries: Overlay<seq<Example>>, columns: seq<ColumnMeta>)

  /** A business glossary entry. */
  datatype Term = Term(term: string, definition: string, sqlMapping: string, relatedTables: Overlay<seq<string>>)

  const GLOSSARY_HEADING := "## Business Glossary"
  const GLOSSARY_INTRO := "These are domain-specific terms the user may use. Map them to the correct SQL."
  const TABLES_HEADING := "## Available Tables"
  const COLUMN_HEADER := "| Column | Type | Description | Synonyms | Sample Values |"
  const COLUMN_RULE := "|--------|------|-------------|----------|---------------|"
  const PK_MARK := "\U{1F511} PK. "
  const FK_MARK := "\U{1F517} FK\U{2192}"
  const TENANT_NOT_FOUND := "Tenant not found"

  /** The rows a missing overlay reads as: with every field empty or unset, each `meta?.x`
      test fails exactly as it does on `undefined`. */
  const NO_TABLE_META := TableMeta("", "", "", "", "", "", "", Unset, Unset, Unset, [])
  const NO_COLUMN_META := ColumnMeta("", "", "", "", false, false, None, Unset, Unset, Unset)

  /** `Map.get` on a map filled in sequence order: the index of the last row with that table
      name, or -1. */
  function LastTableIndex(metas: seq<TableMeta>, name: string): (k: int)
    ensures -1 <= k < |metas|
    ensures 0 <= k ==> metas[k].tableName == name
    ensures forall j :: k < j < |metas| ==> metas[j].tableName != name
  {
    if metas == [] then -1
    else if metas[|metas| - 1].tableName == name then |metas| - 1
    else LastTableIndex(metas[..|metas| - 1], name)
  }

  function MetaFor(metas: seq<TableMeta>, name: string): TableMeta {
    var k := LastTableIndex(metas, name);
    if k == -1 then NO_TABLE_META else metas[k]
  }

  /** The same lookup for a table's column rows. */
  function LastColumnIndex(cols: seq<ColumnMeta>, name: string): (k: int)
    ensures -1 <= k < |cols|
    ensures 0 <= k ==> cols[k].columnName == name
    ensures forall j :: k < j < |cols| ==> cols[j].columnName != name
  {
    if cols == [] then -1
    else if cols[|cols| - 1].columnName == name then |cols| - 1
    else LastColumnIndex(cols[..|cols| - 1], name)
  }

  function ColumnMetaFor(cols: seq<ColumnMeta>, name: string): ColumnMeta {
    var k := LastColumnIndex(cols, name);
    if k == -1 then NO_COLUMN_META else cols[k]
  }

  // ---------------------------------------------------------------- glossary

  /** The lines of one glossary entry. */
  function TermLines(t: Term): seq<string> {
    ["**" + t.term + "**"]
    + (if t.definition != "" then ["  Definition: " + t.definition] else [])
    + (if t.sqlMapping != "" then ["  SQL: " + t.sqlMapping] else [])
    + (if t.relatedTables.Parsed? then ["  Tables: " + Join(t.relatedTables.value, ", ")] else [])
    + [""]
  }

  function AllTermLines(terms: seq<Term>): seq<string> {
    if terms == [] then [] else AllTermLines(terms[..|terms| - 1]) + TermLines(terms[|terms| - 1])
  }

  /** The glossary section: nothing at all without terms. */
  function GlossaryLines(terms: seq<Term>): seq<string> {
    if terms == [] then [] else [GLOSSARY_HEADING, GLOSSARY_INTRO, ""] + AllTermLines(terms)
  }

  // ---------------------------------------------------------------- one column

  function FkText(cm: ColumnMeta): string {
    if cm.foreignKeyRef.Some? then cm.foreignKeyRef.value else "null"
  }

  /** The steps that build the description cell, in the source's order. */
  function DescBase(col: ColumnInfo, cm: ColumnMeta): string {
    if cm.description != "" then cm.description else col.comment
  }

  function AddUnit(desc: string, cm: ColumnMeta): string {
    if cm.unit != "" then desc + " (" + cm.unit + ")" else desc
  }

  function AddLogic(desc: string, cm: ColumnMeta): string {
    if cm.computedLogic != "" then desc + " [Computed: " + cm.computedLogic + "]" else desc
  }

  function AddPk(desc: string, cm: ColumnMeta): string {
    if cm.isPrimaryKey then PK_MARK + desc else desc
  }

  function AddFk(desc: string, cm: ColumnMeta): string {
    if cm.isForeignKey then FK_MARK + FkText(cm) + ". " + desc else desc
  }

  /** The description cell: the curated description or the raw comment, then the unit, the
      computed logic, the PK prefix and, in front of everything, the FK prefix. */
  function ColumnDescription(col: ColumnInfo, cm: ColumnMeta): string {
    AddFk(AddPk(AddLogic(AddUnit(DescBase(col, cm), cm), cm), cm), cm)
  }

  function SynonymsCell(cm: ColumnMeta): string {
    if cm.synonyms.Parsed? then Join(cm.synonyms.value, ", ") else ""
  }

  function EntryTexts(entries: seq<(string, string)>): seq<string> {
    seq(|entries|, i requires 0 <= i < |entries| => entries[i].0 + "=" + entries[i].1)
  }

  /** The sample cell: a set `valueMapping` decides it, even when it does not parse; only an
      unset one lets `sampleValues` through. */
  function SamplesCell(cm: ColumnMeta): string {
    if !cm.valueMapping.Unset? then
      (if cm.valueMapping.Parsed? then Join(EntryTexts(cm.valueMapping.value), ", ") else "")
    else if cm.sampleValues.Parsed? then Join(cm.sampleValues.value, ", ")
    else ""
  }

  function ColumnRow(col: ColumnInfo, cm: ColumnMeta): string {
    "| " + col.name + " | " + RowCells(col, cm)
  }

  /** The cells after the column name. */
  function RowCells(col: ColumnInfo, cm: ColumnMeta): string {
    col.dataType + " " + (if col.nullable then "NULL" else "NOT NULL")
    + " | " + ColumnDescription(col, cm) + " | " + SynonymsCell(cm) + " | " + SamplesCell(cm) + " |"
  }

  // ---------------------------------------------------------------- one table

  function Heading(t: TableInfo, m: TableMeta, fmt: int -> string): string {
    var display := if m.displayName != "" then m.displayName else t.name;
    var rows := if fmt(t.rowCount) != "" then fmt(t.rowCount) else "?";
    "### " + display + " (" + t.name + ") \U{2014} " + t.tableType + ", ~" + rows + " rows"
  }

  /** A labelled line, present only when the value is not empty. */
  function Line(caption: string, value: string): seq<string> {
    if value != "" then [caption + value] else []
  }

  function DescriptionLines(t: TableInfo, m: TableMeta): seq<string> {
    if m.description != "" then ["**Description:** " + m.description]
    else Line("**Description:** ", t.comment)
  }

  function JoinLine(j: JoinHint): string {
    "  - " + (if j.kind != "" then j.kind else "JOIN") + " " + j.table + " ON " + j.on
  }

  function JoinLines(joins: Overlay<seq<JoinHint>>): seq<string> {
    if joins.Parsed? && |joins.value| > 0 then
      ["**Common Joins:**"] + seq(|joins.value|, i requires 0 <= i < |joins.value| => JoinLine(joins.value[i]))
    else []
  }

  function FilterLines(filters: Overlay<seq<string>>): seq<string> {
    if filters.Parsed? && |filters.value| > 0 then ["**Common Filters:** " + Join(filters.value, " | ")] else []
  }

  /** The optional lines between the heading and the column table. */
  function Notes(t: TableInfo, m: TableMeta): seq<string> {
    DescriptionLines(t, m) + Line("**Grain:** ", m.grainDescription) + Line("**Source:** ", m.dataSource)
    + Line("**Updated:** ", m.updateFrequency) + Line("**\U{26A0} Notes:** ", m.importantNotes)
    + JoinLines(m.commonJoins) + FilterLines(m.commonFilters)
  }

  function Rows(t: TableInfo, m: TableMeta): seq<string> {
    seq(|t.columns|, j requires 0 <= j < |t.columns| => ColumnRow(t.columns[j], ColumnMetaFor(m.columns, t.columns[j].name)))
  }

  function ExamplePairs(xs: seq<Example>): seq<string> {
    if xs == [] then [] else ExamplePairs(xs[..|xs| - 1]) + ["  Q: \"" + xs[|xs| - 1].question + "\"", "  SQL: " + xs[|xs| - 1].sql]
  }

  function ExampleLines(examples: Overlay<seq<Example>>): seq<string> {
    if examples.Parsed? && |examples.value| > 0 then ["", "**Example queries:**"] + ExamplePairs(examples.value)
    else []
  }

  /** The lines one raw table contributes. */
  function TableBlock(t: TableInfo, m: TableMeta, fmt: int -> string): seq<string> {
    [Heading(t, m, fmt)] + BlockBody(t, m)
  }

  /** Everything of a table's block after its heading. */
  function BlockBody(t: TableInfo, m: TableMeta): seq<string> {
    Notes(t, m) + ["", COLUMN_HEADER, COLUMN_RULE] + Rows(t, m) + ExampleLines(m.sampleQueries) + [""]
  }

  function AllTableBlocks(tables: seq<TableInfo>, metas: seq<TableMeta>, fmt: int -> string): seq<string> {
    if tables == [] then []
    else AllTableBlocks(tables[..|tables| - 1], metas, fmt)
         + TableBlock(tables[|tables| - 1], MetaFor(metas, tables[|tables| - 1].name), fmt)
  }

  /** All the lines of the context, before they are joined with newlines. */
  function ContextLines(database: string, schema: string, terms: seq<Term>, tables: seq<TableInfo>,
                        metas: seq<TableMeta>, fmt: int -> string): seq<string> {
    ["Database: " + database, "Schema: " + schema, ""] + GlossaryLines(terms)
    + [TABLES_HEADING, ""] + AllTableBlocks(tables, metas, fmt)
  }

  // ---------------------------------------------------------------- the builder

  /** The lines one glossary entry pushes. */
  method PushTerm(term: Term) returns (block: seq<string>)
    ensures block == TermLines(term)
  {
    block := ["**" + term.term + "**"];
    if term.definition != "" { block := block + ["  Definition: " + term.definition]; }
    if term.sqlMapping != "" { block := block + ["  SQL: " + term.sqlMapping]; }
    if term.relatedTables.Parsed? { block := block + ["  Tables: " + Join(term.relatedTables.value, ", ")]; }
    block := block + [""];
  }

  /** The glossary loop. */
  method PushGlossary(terms: seq<Term>) returns (lines: seq<string>)
    ensures lines == GlossaryLines(terms)
  {
    lines := [];
    if |terms| > 0 {
      lines := [GLOSSARY_HEADING, GLOSSARY_INTRO, ""];
      var i := 0;
      while i < |terms|
        invariant 0 <= i <= |terms|
        invariant lines == [GLOSSARY_HEADING, GLOSSARY_INTRO, ""] + AllTermLines(terms[..i])
      {
        var block := PushTerm(terms[i]);
        LongerTake(terms, i);
        AppendAssoc([GLOSSARY_HEADING, GLOSSARY_INTRO, ""], AllTermLines(terms[..i]), block);
        lines := lines + block;
        i := i + 1;
      }
      assert terms[..|terms|] == terms;
    }
  }

  /** The column loop of one table. */
  method PushRows(t: TableInfo, m: TableMeta) returns (rows: seq<string>)
    ensures rows == Rows(t, m)
  {
    ghost var all := Rows(t, m);
    rows := [];
    var j := 0;
    while j < |t.columns|
      invariant 0 <= j <= |t.columns| == |all|
      invariant rows == all[..j]
    {
      var col := t.columns[j];
      var row := ColumnRow(col, ColumnMetaFor(m.columns, col.name));
      assert row == all[j];
      TakeOneMore(all, j);
      rows := rows + [row];
      j := j + 1;
    }
    assert all[..j] == all;
  }

  /** The example-query loop of one table. */
  method PushExamples(examples: Overlay<seq<Example>>) returns (lines: seq<string>)
    ensures lines == ExampleLines(examples)
  {
    lines := [];
    if examples.Parsed? && |examples.value| > 0 {
      var xs := examples.value;
      lines := ["", "**Example queries:**"];
      var i := 0;
      while i < |xs|
        invariant 0 <= i <= |xs|
        invariant lines == ["", "**Example queries:**"] + ExamplePairs(xs[..i])
      {
        var pair := ["  Q: \"" + xs[i].question + "\"", "  SQL: " + xs[i].sql];
        LongerTake(xs, i);
        AppendAssoc(["", "**Example queries:**"], ExamplePairs(xs[..i]), pair);
        lines := lines + pair;
        i := i + 1;
      }
      assert xs[..|xs|] == xs;
    }
  }

  /** The table loop: for each raw table its block, in schema order. */
  method PushTables(tables: seq<TableInfo>, metas: seq<TableMeta>, fmt: int -> string) returns (lines: seq<string>)
    ensures lines == AllTableBlocks(tables, metas, fmt)
  {
    lines := [];
    var i := 0;
    while i < |tables|
      invariant 0 <= i <= |tables|
      invariant lines == AllTableBlocks(tables[..i], metas, fmt)
    {
      var table := tables[i];
      var meta := MetaFor(metas, table.name);
      var rows := PushRows(table, meta);
      var examples := PushExamples(meta.sampleQueries);
      var block := [Heading(table, meta, fmt)] + (Notes(table, meta) + ["", COLUMN_HEADER, COLUMN_RULE]
                   + rows + examples + [""]);
      LongerTake(tables, i);
      lines := lines + block;
      i := i + 1;
    }
    assert tables[..|tables|] == tables;
  }

  /** The assembly: header, glossary, table heading, tables; joined with newlines. */
  method AssembleContext(database: string, schema: string, terms: seq<Term>, tables: seq<TableInfo>,
                         metas: seq<TableMeta>, fmt: int -> string) returns (text: string)
    ensures text == Join(ContextLines(database, schema, terms, tables, metas, fmt), "\n")
  {
    var lines := ["Database: " + database, "Schema: " + schema, ""];
    var glossary := PushGlossary(terms);
    lines := lines + glossary + [TABLES_HEADING, ""];
    var blocks := PushTables(tables, metas, fmt);
    lines := lines + blocks;
    text := Join(lines, "\n");
  }

  // ---------------------------------------------------------------- sources of the pieces

  /** `tenant?.sfDatabase || process.env.SNOWFLAKE_DATABASE || "DEV_DB"`. */
  function ContextDatabase(record: Option<Tenant>, env: Env): string {
    if record.Some? && record.value.sfDatabase != "" then record.value.sfDatabase
    else EnvOr(env, "SNOWFLAKE_DATABASE", "DEV_DB")
  }

  /** `tenant?.sfSchema || process.env.SNOWFLAKE_SCHEMA?.split(',')[0] || "PUBLIC"`. */
  function ContextSchema(record: Option<Tenant>, env: Env): string {
    if record.Some? && record.value.sfSchema != "" then record.value.sfSchema
    else if "SNOWFLAKE_SCHEMA" in env && Split(env["SNOWFLAKE_SCHEMA"], ',')[0] != "" then
      Split(env["SNOWFLAKE_SCHEMA"], ',')[0]
    else "PUBLIC"
  }

  /** The raw schema: a present cache is parsed whatever its age; otherwise the result of
      getSchemaContext (`fetched`) is used. */
  function RawSchema(record: Option<Tenant>, fetched: Result<seq<TableInfo>>): Result<seq<TableInfo>> {
    if record.Some? && !record.value.schemaCache.NoCache? then
      (if record.value.schemaCache.Cached? then Ok(record.value.schemaCache.tables)
       else Err(SchemaCatalog.PARSE_ERROR))
    else fetched
  }

  /** A curated-metadata query: skipped without a tenant row, its failure read as no rows. */
  function Curated<T>(record: Option<Tenant>, rows: Result<seq<T>>): seq<T> {
    if record.Some? && rows.Ok? then rows.value else []
  }

  /** buildEnrichedContext. `record` is the tenant lookup (a failed lookup is no row), `fetched`
      what getSchemaContext yields, `metas` and `terms` the two metadata queries. */
  function BuildEnrichedContext(record: Option<Tenant>, env: Env, fetched: Result<seq<TableInfo>>,
                                metas: Result<seq<TableMeta>>, terms: Result<seq<Term>>,
                                fmt: int -> string): Result<string>
  {
    var raw := RawSchema(record, fetched);
    if raw.Err? then Err(raw.error)
    else Ok(Join(ContextLines(ContextDatabase(record, env), ContextSchema(record, env),
                              Curated(record, terms), raw.value, Curated(record, metas), fmt), "\n"))
  }

  /** The older buildEnrichedContext: the tenant lookup is not guarded and the tenant row is
      required, the schema is the cache or nothing, the queries are not guarded, and database and
      schema are the row's own. */
  function BuildEnrichedContextReference(lookup: Result<Option<Tenant>>, metas: Result<seq<TableMeta>>,
                                         terms: Result<seq<Term>>, fmt: int -> string): Result<string>
  {
    if lookup.Err? then Err(lookup.error)
    else if lookup.value.None? then Err(TENANT_NOT_FOUND)
    else
      var t := lookup.value.value;
      if t.schemaCache.Unparsable? then Err(SchemaCatalog.PARSE_ERROR)
      else if metas.Err? then Err(metas.error)
      else if terms.Err? then Err(terms.error)
      else
        var raw := if t.schemaCache.Cached? then t.schemaCache.tables else [];
        Ok(Join(ContextLines(t.sfDatabase, t.sfSchema, terms.value, raw, metas.value, fmt), "\n"))
  }

  // ---------------------------------------------------------------- properties

  /** The glossary section is present exactly when there are terms, and then it opens with
      its heading and introduction. */
  lemma GlossaryOnlyWithTerms(database: string, schema: string, terms: seq<Term>, tables: seq<TableInfo>,
                              metas: seq<TableMeta>, fmt: int -> string)
    ensures GlossaryLines(terms) == [] <==> terms == []
    ensures var ls := ContextLines(database, schema, terms, tables, metas, fmt);
      |ls| >= 5 && ls[3] == (if terms == [] then TABLES_HEADING else GLOSSARY_HEADING)
  {
  }

  /** The description cell reads, from the front: the FK prefix, the PK prefix, the curated
      description (or the raw comment), the unit, the computed logic. */
  lemma ColumnDescriptionSpec(col: ColumnInfo, cm: ColumnMeta)
    ensures var fk := if cm.isForeignKey then FK_MARK + FkText(cm) + ". " else "";
      var pk := if cm.isPrimaryKey then PK_MARK else "";
      var base := if cm.description != "" then cm.description else col.comment;
      var unit := if cm.unit != "" then " (" + cm.unit + ")" else "";
      var logic := if cm.computedLogic != "" then " [Computed: " + cm.computedLogic + "]" else "";
      ColumnDescription(col, cm) == fk + (pk + (base + (unit + logic)))
  {
    var fk := if cm.isForeignKey then FK_MARK + FkText(cm) + ". " else "";
    var pk := if cm.isPrimaryKey then PK_MARK else "";
    var base := if cm.description != "" then cm.description else col.comment;
    var unit := if cm.unit != "" then " (" + cm.unit + ")" else "";
    var logic := if cm.computedLogic != "" then " [Computed: " + cm.computedLogic + "]" else "";
    var d1 := AddUnit(base, cm);
    assert d1 == base + unit;
    var d2 := AddLogic(d1, cm);
    assert d2 == base + (unit + logic);
    var d3 := AddPk(d2, cm);
    assert d3 == pk + d2;
    assert AddFk(d3, cm) == fk + d3;
  }

  /** A foreign-key column's cell starts with the FK mark, ahead of any PK mark; a column
      without curated metadata shows its raw comment alone. */
  lemma ForeignKeyLeads(col: ColumnInfo, cm: ColumnMeta)
    ensures cm.isForeignKey ==> StartsWith(ColumnDescription(col, cm), FK_MARK)
    ensures cm.isForeignKey && cm.isPrimaryKey ==>
      StartsWith(ColumnDescription(col, cm), FK_MARK + FkText(cm) + ". " + PK_MARK)
    ensures ColumnDescription(col, NO_COLUMN_META) == col.comment
  {
    ColumnDescriptionSpec(col, cm);
    var d := ColumnDescription(col, cm);
    if cm.isForeignKey {
      var p := FK_MARK + FkText(cm) + ". ";
      assert d[..|FK_MARK|] == FK_MARK;
      if cm.isPrimaryKey {
        assert d[..|p + PK_MARK|] == p + PK_MARK;
      }
    }
  }

  /** A set `valueMapping` decides the sample cell whatever `sampleValues` holds; an
      unparsable one leaves the cell empty. */
  lemma ValueMappingFirst(cm: ColumnMeta, other: Overlay<seq<string>>)
    requires !cm.valueMapping.Unset?
    ensures SamplesCell(cm) == SamplesCell(cm.(sampleValues := other))
    ensures cm.valueMapping.Malformed? ==> SamplesCell(cm) == ""
    ensures cm.valueMapping.Parsed? ==> SamplesCell(cm) == Join(EntryTexts(cm.valueMapping.value), ", ")
  {
  }

  /** A curated table field holding JSON that does not parse drops only its own piece: the
      block is the one the field being unset gives. (`valueMapping` is the exception: see
      ValueMappingFirst.) */
  lemma MalformedTableOverlayOmitted(t: TableInfo, m: TableMeta, fmt: int -> string)
    ensures TableBlock(t, m.(commonJoins := Malformed), fmt) == TableBlock(t, m.(commonJoins := Unset), fmt)
    ensures TableBlock(t, m.(commonFilters := Malformed), fmt) == TableBlock(t, m.(commonFilters := Unset), fmt)
    ensures TableBlock(t, m.(sampleQueries := Malformed), fmt) == TableBlock(t, m.(sampleQueries := Unset), fmt)
  {
    assert JoinLines(Malformed) == JoinLines(Unset);
    assert FilterLines(Malformed) == FilterLines(Unset);
    assert ExampleLines(Malformed) == ExampleLines(Unset);
  }

  /** The same for a column's synonyms and sample values. */
  lemma MalformedColumnOverlayOmitted(col: ColumnInfo, cm: ColumnMeta)
    ensures ColumnRow(col, cm.(synonyms := Malformed)) == ColumnRow(col, cm.(synonyms := Unset))
    ensures ColumnRow(col, cm.(sampleValues := Malformed)) == ColumnRow(col, cm.(sampleValues := Unset))
  {
    SameRow(col, cm.(synonyms := Malformed), cm.(synonyms := Unset));
    SameRow(col, cm.(sampleValues := Malformed), cm.(sampleValues := Unset));
  }

  /** Two overlays that agree on everything the description reads, and give the same list
      cells, give the same row. */
  lemma SameRow(col: ColumnInfo, c1: ColumnMeta, c2: ColumnMeta)
    requires c1.description == c2.description && c1.unit == c2.unit && c1.computedLogic == c2.computedLogic
    requires c1.isPrimaryKey == c2.isPrimaryKey && c1.isForeignKey == c2.isForeignKey
    requires c1.foreignKeyRef == c2.foreignKeyRef
    requires SynonymsCell(c1) == SynonymsCell(c2) && SamplesCell(c1) == SamplesCell(c2)
    ensures ColumnRow(col, c1) == ColumnRow(col, c2)
  {
    assert DescBase(col, c1) == DescBase(col, c2);
    assert ColumnDescription(col, c1) == ColumnDescription(col, c2);
  }

  /** The same for a glossary term's related tables. */
  lemma MalformedTermOverlayOmitted(term: Term)
    ensures TermLines(term.(relatedTables := Malformed)) == TermLines(term.(relatedTables := Unset))
  {
  }

  /** The table heading carries the curated display name when there is one and the raw name
      otherwise, and the raw name in parentheses either way; the display name appears nowhere
      else in the block. */
  lemma HeadingNames(t: TableInfo, m: TableMeta, other: string, fmt: int -> string)
    ensures m.displayName == "" ==> Heading(t, m, fmt) == Heading(t, NO_TABLE_META, fmt)
    ensures var rows := if fmt(t.rowCount) != "" then fmt(t.rowCount) else "?";
      Heading(t, NO_TABLE_META, fmt) == "### " + t.name + " (" + t.name + ") \U{2014} " + t.tableType + ", ~" + rows + " rows"
    ensures TableBlock(t, m.(displayName := other), fmt)[1..] == TableBlock(t, m, fmt)[1..]
  {
    var m1 := m.(displayName := other);
    assert Notes(t, m1) == Notes(t, m);
    assert Rows(t, m1) == Rows(t, m);
    DropHead(Heading(t, m1, fmt), BlockBody(t, m1));
    DropHead(Heading(t, m, fmt), BlockBody(t, m));
  }

  /** The curated description beats the raw comment; with neither there is no description
      line. */
  lemma DescriptionPrecedence(t: TableInfo, m: TableMeta, fmt: int -> string)
    ensures var b := TableBlock(t, m, fmt);
      && (m.description != "" ==> b[1] == "**Description:** " + m.description)
      && (m.description == "" && t.comment != "" ==> b[1] == "**Description:** " + t.comment)
      && (m.description == "" && t.comment == "" ==> DescriptionLines(t, m) == [])
  {
  }

  /** Exactly one table row per raw column, in column order, each naming its column first. */
  lemma OneRowPerColumn(t: TableInfo, m: TableMeta)
    ensures var rows := Rows(t, m);
      && |rows| == |t.columns|
      && (forall j :: 0 <= j < |t.columns| ==> StartsWith(rows[j], "| " + t.columns[j].name + " | "))
  {
    var rows := Rows(t, m);
    forall j | 0 <= j < |t.columns| ensures StartsWith(rows[j], "| " + t.columns[j].name + " | ") {
      RowNamesColumn(t.columns[j], ColumnMetaFor(m.columns, t.columns[j].name));
    }
  }

  lemma RowNamesColumn(col: ColumnInfo, cm: ColumnMeta)
    ensures StartsWith(ColumnRow(col, cm), "| " + col.name + " | ")
  {
    var p := "| " + col.name + " | ";
    assert (p + RowCells(col, cm))[..|p|] == p;
  }

  /** The rows sit together in the block, right after the heading, the optional lines and the
      three lines that open the table. */
  lemma RowsInBlock(t: TableInfo, m: TableMeta, fmt: int -> string)
    ensures var b := TableBlock(t, m, fmt); var k := 1 + |Notes(t, m)| + 3;
      k + |t.columns| <= |b| && b[k..k + |t.columns|] == Rows(t, m)
      && b[k - 3..k] == ["", COLUMN_HEADER, COLUMN_RULE]
  {
    var notes := Notes(t, m);
    var open := ["", COLUMN_HEADER, COLUMN_RULE];
    var rows := Rows(t, m);
    var tail := ExampleLines(m.sampleQueries) + [""];
    var body := BlockBody(t, m);
    var k := |notes| + 3;
    AppendAssoc(notes + open + rows, ExampleLines(m.sampleQueries), [""]);
    MiddleSlice(notes + open, rows, tail);
    AppendAssoc(notes + open, rows, tail);
    MiddleSlice(notes, open, rows + tail);
    SliceAfterHead(Heading(t, m, fmt), body, k, k + |rows|);
    SliceAfterHead(Heading(t, m, fmt), body, k - 3, k);
  }

  /** A present cache is used as it is, however old: unlike getSchemaContext the context builder
      never checks its age. */
  lemma CacheUsedRegardlessOfAge(t: Tenant, fetched: Result<seq<TableInfo>>)
    requires t.schemaCache.Cached?
    ensures RawSchema(Some(t), fetched) == Ok(t.schemaCache.tables)
  {
  }

  /** Without a tenant row or cache the context uses getSchemaContext's tables, and its errors
      propagate. */
  lemma NoCacheUsesFetched(record: Option<Tenant>, fetched: Result<seq<TableInfo>>)
    requires record.None? || record.value.schemaCache.NoCache?
    ensures RawSchema(record, fetched) == fetched
  {
  }

  /** The database and schema fall back from the tenant row to the environment (the first
      comma-separated entry of SNOWFLAKE_SCHEMA) to "DEV_DB" and "PUBLIC". */
  lemma SchemaFallback(env: Env, first: string, rest: string)
    requires first != "" && ',' !in first
    ensures ContextSchema(None, env["SNOWFLAKE_SCHEMA" := first + "," + rest]) == first
    ensures ContextSchema(None, env["SNOWFLAKE_SCHEMA" := first]) == first
    ensures "SNOWFLAKE_SCHEMA" !in env ==> ContextSchema(None, env) == "PUBLIC"
    ensures ContextSchema(None, env["SNOWFLAKE_SCHEMA" := ""]) == "PUBLIC"
    ensures ContextDatabase(None, env) == (if EnvSet(env, "SNOWFLAKE_DATABASE") then env["SNOWFLAKE_DATABASE"] else "DEV_DB")
  {
    SplitCons(first, ',', rest);
    assert first + "," + rest == first + [','] + rest;
    SplitNoSeparator(first, ',');
    SplitNoSeparator("", ',');
  }

  /** The older builder throws a failed lookup as it is, needs the tenant row and reads no
      environment. With a parsed cache, successful queries and the row's own database and
      schema set, it produces what the current builder produces. */
  lemma ReferenceAgreesOnCachedTenant(t: Tenant, env: Env, fetched: Result<seq<TableInfo>>,
                                      metas: seq<TableMeta>, terms: seq<Term>, msg: string, fmt: int -> string)
    requires t.schemaCache.Cached? && t.sfDatabase != "" && t.sfSchema != ""
    ensures BuildEnrichedContextReference(Err(msg), Ok(metas), Ok(terms), fmt) == Err(msg)
    ensures BuildEnrichedContextReference(Ok(None), Ok(metas), Ok(terms), fmt) == Err(TENANT_NOT_FOUND)
    ensures BuildEnrichedContextReference(Ok(Some(t)), Ok(metas), Ok(terms), fmt)
         == BuildEnrichedContext(Some(t), env, fetched, Ok(metas), Ok(terms), fmt)
  {
  }

  /** Without a cache the older builder lists no tables and never introspects. */
  lemma ReferenceWithoutCacheHasNoTables(t: Tenant, metas: seq<TableMeta>, terms: seq<Term>, fmt: int -> string)
    requires t.schemaCache.NoCache?
    ensures BuildEnrichedContextReference(Ok(Some(t)), Ok(metas), Ok(terms), fmt)
         == Ok(Join(ContextLines(t.sfDatabase, t.sfSchema, terms, [], metas, fmt), "\n"))
  {
  }
}
