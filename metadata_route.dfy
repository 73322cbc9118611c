/** The curated-metadata endpoint of reference-files/app/api/metadata/route.ts: the request
    schemas, the POST dispatcher that upserts and deletes rows of the table, column and
    business-term tables, and the GET listing in name order. */
module MetadataRoute {
  import opened Common
  import opened Json
  import opened ApiAuth
  import Text

  // ---------------------------------------------------------------- request schemas

  const VALIDATION_ERROR := "Validation error"
  const UNKNOWN_ACTION := "Unknown action"

  /** The type an optional schema field must have when it is present. */
  datatype FieldKind = Text | Flag

  predicate Conforms(v: Json, kind: FieldKind) {
    match kind
    case Text => v.JStr?
    case Flag => v.JBool?
  }

  /** TableMetadataSchema beside its required `tableName`. */
  const TABLE_FIELDS: map<string, FieldKind> := map[
    "displayName" := Text, "description" := Text, "businessOwner" := Text, "dataSource" := Text,
    "updateFrequency" := Text, "grainDescription" := Text, "commonFilters" := Text, "commonJoins" := Text,
    "importantNotes" := Text, "sampleQueries" := Text]

  /** ColumnMetadataSchema beside its required `columnName`. */
  const COLUMN_FIELDS: map<string, FieldKind> := map[
    "displayName" := Text, "description" := Text, "synonyms" := Text, "sampleValues" := Text,
    "valueMapping" := Text, "unit" := Text, "format" := Text, "isRequired" := Flag, "isPrimaryKey" := Flag,
    "isForeignKey" := Flag, "foreignKeyRef" := Text, "computedLogic" := Text]

  /** BusinessTermSchema beside its required `term`. */
  const TERM_FIELDS: map<string, FieldKind> := map[
    "definition" := Text, "sqlMapping" := Text, "relatedTables" := Text]

  /** A `z.object` with one `z.string().min(1)` field and optional ones: the value must be an
      object, the required field a non-empty string, each optional field absent or of its
      type (null is refused); unknown keys are stripped. An Err is the ZodError. */
  function ParseSchema(v: Json, required: string, optional: map<string, FieldKind>): Result<map<string, Json>> {
    if !v.JObj? then Err(VALIDATION_ERROR)
    else if !(required in v.fields && v.fields[required].JStr? && v.fields[required].s != "") then Err(VALIDATION_ERROR)
    else if exists k :: k in optional && k in v.fields && !Conforms(v.fields[k], optional[k]) then Err(VALIDATION_ERROR)
    else Ok(map k | k in v.fields && (k == required || k in optional) :: v.fields[k])
  }

  /** A map the schema accepts as it is. */
  predicate Fits(m: map<string, Json>, required: string, optional: map<string, FieldKind>) {
    && required in m && m[required].JStr? && m[required].s != ""
    && (forall k :: k in m ==> k == required || k in optional)
    && (forall k :: k in m && k in optional ==> Conforms(m[k], optional[k]))
  }

  /** What a parse accepts fits the schema and is the input cut to the schema's keys; an input
      that does not fit is refused whenever its own keys are all the schema's. */
  lemma ParseSchemaSpec(v: Json, required: string, optional: map<string, FieldKind>)
    ensures var r := ParseSchema(v, required, optional);
      (r.Ok? ==> Fits(r.value, required, optional) && v.JObj?
                 && forall k :: k in r.value <==> k in v.fields && (k == required || k in optional))
      && (r.Ok? ==> forall k :: k in r.value ==> r.value[k] == v.fields[k])
      && (r.Err? ==> r.error == VALIDATION_ERROR)
  {
  }

  /** Every map that fits the schema is accepted unchanged. */
  lemma ParseFits(m: map<string, Json>, required: string, optional: map<string, FieldKind>)
    requires Fits(m, required, optional)
    ensures ParseSchema(JObj(m), required, optional) == Ok(m)
  {
    var r := map k | k in m && (k == required || k in optional) :: m[k];
    assert r == m;
  }

  /** A present null is not an absent field: the schemas refuse it. */
  lemma NullIsRefused(m: map<string, Json>, required: string, optional: map<string, FieldKind>, k: string)
    requires k in optional && k in m && m[k] == JNull
    ensures ParseSchema(JObj(m), required, optional).Err?
  {
  }

  // ---------------------------------------------------------------- keyed rows

  /** A row of one of the three tables: `owner` and `key` are its compound unique key
      (tenant and table name, parent table and column name, tenant and term); `fields` holds
      the optional columns that have been set. */
  datatype Row<O> = Row(id: nat, owner: O, key: string, fields: map<string, Json>)

  /** The compound key is unique. */
  predicate Keyed<O(==)>(rows: seq<Row<O>>) {
    forall i, j :: 0 <= i < j < |rows| ==> rows[i].owner != rows[j].owner || rows[i].key != rows[j].key
  }

  /** Ids are distinct and below the next one to hand out. */
  predicate IdsBelow<O(==)>(rows: seq<Row<O>>, nextId: nat) {
    && (forall i :: 0 <= i < |rows| ==> rows[i].id < nextId)
    && (forall i, j :: 0 <= i < j < |rows| ==> rows[i].id != rows[j].id)
  }

  /** The position of the row with a key, or -1. */
  function IndexOf<O(==)>(rows: seq<Row<O>>, owner: O, key: string): (k: int)
    ensures -1 <= k < |rows|
    ensures k >= 0 ==> rows[k].owner == owner && rows[k].key == key
    ensures k < 0 ==> forall i :: 0 <= i < |rows| ==> rows[i].owner != owner || rows[i].key != key
  {
    if rows == [] then -1
    else if rows[|rows| - 1].owner == owner && rows[|rows| - 1].key == key then |rows| - 1
    else IndexOf(rows[..|rows| - 1], owner, key)
  }

  datatype Upserted<O> = Upserted(rows: seq<Row<O>>, row: Row<O>, nextId: nat)

  /** `upsert`: the row with the key gets the supplied fields over its own; without one, a
      new row with the supplied fields alone is added under a fresh id. */
  function Upsert<O(==)>(rows: seq<Row<O>>, nextId: nat, owner: O, key: string, data: map<string, Json>): Upserted<O> {
    var k := IndexOf(rows, owner, key);
    if k >= 0 then
      var r := rows[k].(fields := rows[k].fields + data);
      Upserted(rows[k := r], r, nextId)
    else
      var r := Row(nextId, owner, key, data);
      Upserted(rows + [r], r, nextId + 1)
  }

  /** An upsert keeps keys and ids unique, leaves exactly one row with the key, holding the
      supplied fields over the old ones, and touches no other row. */
  lemma UpsertSpec<O>(rows: seq<Row<O>>, nextId: nat, owner: O, key: string, data: map<string, Json>)
    requires Keyed(rows) && IdsBelow(rows, nextId)
    ensures var u := Upsert(rows, nextId, owner, key, data);
      && Keyed(u.rows) && IdsBelow(u.rows, u.nextId) && nextId <= u.nextId
      && u.row in u.rows && u.row.owner == owner && u.row.key == key
      && (forall f :: f in data ==> f in u.row.fields && u.row.fields[f] == data[f])
      && (forall i :: 0 <= i < |rows| && rows[i].owner == owner && rows[i].key == key ==>
            u.row.id == rows[i].id
            && forall f :: f in rows[i].fields && f !in data ==> f in u.row.fields && u.row.fields[f] == rows[i].fields[f])
      && (forall r :: r in rows && (r.owner != owner || r.key != key) ==> r in u.rows)
      && (forall r :: r in u.rows ==> r == u.row || r in rows)
      && (IndexOf(rows, owner, key) < 0 ==> u.row.fields == data && |u.rows| == |rows| + 1)
      && (IndexOf(rows, owner, key) >= 0 ==> |u.rows| == |rows|)
  {
    var k := IndexOf(rows, owner, key);
    var u := Upsert(rows, nextId, owner, key, data);
    if k >= 0 {
      assert u.rows[k] == u.row;
      forall r | r in rows && (r.owner != owner || r.key != key)
        ensures r in u.rows
      {
        var i :| 0 <= i < |rows| && rows[i] == r;
        assert u.rows[i] == r;
      }
      forall i | 0 <= i < |rows| && rows[i].owner == owner && rows[i].key == key
        ensures i == k
      {
        if i != k {
          assert false;
        }
      }
    } else {
      forall r | r in rows
        ensures r in u.rows
      {
        var i :| 0 <= i < |rows| && rows[i] == r;
        assert u.rows[i] == r;
      }
    }
  }

  /** Repeating an upsert with the same data changes nothing more. */
  lemma UpsertIdempotent<O>(rows: seq<Row<O>>, nextId: nat, owner: O, key: string, data: map<string, Json>)
    requires Keyed(rows) && IdsBelow(rows, nextId)
    ensures var u := Upsert(rows, nextId, owner, key, data);
      Upsert(u.rows, u.nextId, owner, key, data) == u
  {
    var u := Upsert(rows, nextId, owner, key, data);
    UpsertSpec(rows, nextId, owner, key, data);
    var k := IndexOf(u.rows, owner, key);
    assert u.rows[k] == u.row by {
      var j :| 0 <= j < |u.rows| && u.rows[j] == u.row;
      if j != k {
        assert false;
      }
    }
    assert u.row.fields + data == u.row.fields;
    assert u.rows[k := u.row] == u.rows;
  }

  /** The rows `keep` accepts, in their order. */
  function Select<O>(rows: seq<Row<O>>, keep: Row<O> -> bool): (r: seq<Row<O>>)
    ensures |r| <= |rows|
  {
    if rows == [] then []
    else
      var rest := Select(rows[..|rows| - 1], keep);
      if keep(rows[|rows| - 1]) then rest + [rows[|rows| - 1]] else rest
  }

  /** A row is selected exactly when it is one of the rows and `keep` accepts it. */
  lemma {:induction false} SelectSpec<O>(rows: seq<Row<O>>, keep: Row<O> -> bool)
    ensures forall x :: x in Select(rows, keep) ==> x in rows && keep(x)
    ensures forall x :: x in rows && keep(x) ==> x in Select(rows, keep)
  {
    if rows != [] {
      var init := rows[..|rows| - 1];
      assert rows == init + [rows[|rows| - 1]];
      SelectSpec(init, keep);
    }
  }

  /** Keeping some of the rows keeps keys and ids unique. */
  lemma {:induction false} SelectKeeps<O>(rows: seq<Row<O>>, keep: Row<O> -> bool, nextId: nat)
    requires Keyed(rows) && IdsBelow(rows, nextId)
    ensures Keyed(Select(rows, keep)) && IdsBelow(Select(rows, keep), nextId)
  {
    if rows != [] {
      var init := rows[..|rows| - 1];
      var last := rows[|rows| - 1];
      assert rows == init + [last];
      assert Keyed(init) && IdsBelow(init, nextId);
      SelectKeeps(init, keep, nextId);
      SelectSpec(init, keep);
      var rest := Select(init, keep);
      forall i | 0 <= i < |rest|
        ensures (rest[i].owner != last.owner || rest[i].key != last.key) && rest[i].id != last.id
      {
        assert rest[i] in Select(init, keep);
        assert rest[i] in init;
        var j :| 0 <= j < |init| && init[j] == rest[i];
        assert rows[j] == rest[i];
      }
    }
  }

  // ---------------------------------------------------------------- deleteMany filters

  /** A JSON array of strings, as the `in` and `notIn` operators take it. */
  predicate StringList(v: Json) {
    v.JArr? && forall i :: 0 <= i < |v.items| ==> v.items[i].JStr?
  }

  /** The StringFilter operators of a required text column that the model interprets, with the
      value each takes. */
  predicate ValidOp(op: string, v: Json) {
    if op == "in" || op == "notIn" then StringList(v)
    else (op == "equals" || op == "not" || op == "contains" || op == "startsWith" || op == "endsWith") && v.JStr?
  }

  /** Whether a name satisfies one operator; an operator that is not valid holds of nothing. */
  predicate OpHolds(op: string, v: Json, name: string) {
    if op == "equals" then v.JStr? && name == v.s
    else if op == "not" then v.JStr? && name != v.s
    else if op == "contains" then v.JStr? && Text.Find(name, v.s) >= 0
    else if op == "startsWith" then v.JStr? && Text.StartsWith(name, v.s)
    else if op == "endsWith" then v.JStr? && Text.EndsWith(name, v.s)
    else if op == "in" then v.JArr? && JStr(name) in v.items
    else if op == "notIn" then v.JArr? && JStr(name) !in v.items
    else false
  }

  /** The name condition of a `where`: every operator of the filter holds; the empty filter
      holds of every name. */
  predicate NameMatches(ops: map<string, Json>, name: string) {
    forall op :: op in ops ==> OpHolds(op, ops[op], name)
  }

  /** The `where` of deleteMany: the owner, and the name condition. */
  predicate Matches<O(==)>(r: Row<O>, owner: O, ops: map<string, Json>) {
    r.owner == owner && NameMatches(ops, r.key)
  }

  /** `deleteMany({ where: { owner, key } })` with the name condition `ops`. */
  function DeleteWhere<O(==)>(rows: seq<Row<O>>, owner: O, ops: map<string, Json>): seq<Row<O>> {
    Select(rows, r => !Matches(r, owner, ops))
  }

  /** The rows left are exactly those that do not match; the empty filter takes every row of
      the owner. */
  lemma DeleteWhereSpec<O>(rows: seq<Row<O>>, owner: O, ops: map<string, Json>)
    ensures forall r :: r in DeleteWhere(rows, owner, ops) ==> r in rows && !Matches(r, owner, ops)
    ensures forall r :: r in rows && !Matches(r, owner, ops) ==> r in DeleteWhere(rows, owner, ops)
  {
    SelectSpec(rows, r => !Matches(r, owner, ops));
  }

  lemma DeleteWhereKeeps<O>(rows: seq<Row<O>>, owner: O, ops: map<string, Json>, nextId: nat)
    requires Keyed(rows) && IdsBelow(rows, nextId)
    ensures Keyed(DeleteWhere(rows, owner, ops)) && IdsBelow(DeleteWhere(rows, owner, ops), nextId)
  {
    SelectKeeps(rows, r => !Matches(r, owner, ops), nextId);
  }

  /** A filter of one operator holds exactly where that operator does. */
  lemma SingleOpMatches(op: string, v: Json, name: string)
    ensures NameMatches(map[op := v], name) <==> OpHolds(op, v, name)
  {
    assert op in map[op := v];
  }

  /** The name filter a body value makes: undefined is no condition, a string is `equals`, an
      object of valid operators is that StringFilter; null (the column is required) and anything
      else fail the store's validation. */
  datatype Filter = ByName(ops: map<string, Json>) | BadFilter

  function FilterOf(v: Option<Json>): (f: Filter)
    ensures v.None? ==> f == ByName(map[])
    ensures v.Some? && v.value.JStr? ==> f == ByName(map["equals" := v.value])
    ensures v.Some? && v.value.JObj? ==>
      (f.ByName? <==> forall op :: op in v.value.fields ==> ValidOp(op, v.value.fields[op]))
    ensures v.Some? && v.value.JObj? && f.ByName? ==> f.ops == v.value.fields
    ensures v.Some? && !v.value.JStr? && !v.value.JObj? ==> f == BadFilter
  {
    if v.None? then ByName(map[])
    else if v.value.JStr? then ByName(map["equals" := v.value])
    else if v.value.JObj? && forall op :: op in v.value.fields ==> ValidOp(op, v.value.fields[op]) then
      ByName(v.value.fields)
    else BadFilter
  }

  /** `delete({ where: { id } })`: the row with the id goes; without one the store throws. */
  function DeleteById<O(==)>(rows: seq<Row<O>>, id: nat): Result<seq<Row<O>>> {
    if forall i :: 0 <= i < |rows| ==> rows[i].id != id then Err(RECORD_NOT_FOUND)
    else Ok(Select(rows, (r: Row<O>) => r.id != id))
  }

  /** The delete succeeds exactly when some row has the id; it then leaves every other row and
      none with that id. */
  lemma DeleteByIdSpec<O>(rows: seq<Row<O>>, id: nat)
    ensures DeleteById(rows, id).Ok? <==> exists i :: 0 <= i < |rows| && rows[i].id == id
    ensures DeleteById(rows, id).Err? ==> DeleteById(rows, id).error == RECORD_NOT_FOUND
    ensures DeleteById(rows, id).Ok? ==>
      (forall r :: r in DeleteById(rows, id).value ==> r in rows && r.id != id)
      && (forall r :: r in rows && r.id != id ==> r in DeleteById(rows, id).value)
  {
    SelectSpec(rows, (r: Row<O>) => r.id != id);
  }

  const RECORD_NOT_FOUND := "Record to delete does not exist."
  /** What the store throws for a filter value of the wrong type or a missing unique key. */
  const INVALID_ARGUMENT := "Invalid argument"

  // ---------------------------------------------------------------- ordering

  /** Code-point lexicographic order on names. */
  predicate LexLe(a: string, b: string) {
    a == [] || (b != [] && (a[0] < b[0] || (a[0] == b[0] && LexLe(a[1..], b[1..]))))
  }

  lemma {:induction false} LexTotal(a: string, b: string)
    ensures LexLe(a, b) || LexLe(b, a)
  {
    if a != [] && b != [] && a[0] == b[0] {
      LexTotal(a[1..], b[1..]);
    }
  }

  predicate SortedByKey<O(==)>(rows: seq<Row<O>>) {
    forall i :: 0 < i < |rows| ==> LexLe(rows[i - 1].key, rows[i].key)
  }

  function InsertByKey<O(==)>(x: Row<O>, rows: seq<Row<O>>): (r: seq<Row<O>>)
    ensures multiset(r) == multiset(rows) + multiset{x}
  {
    if rows == [] || LexLe(x.key, rows[0].key) then [x] + rows
    else
      assert rows == [rows[0]] + rows[1..];
      [rows[0]] + InsertByKey(x, rows[1..])
  }

  /** `orderBy: { name: "asc" }`. */
  function SortByKey<O(==)>(rows: seq<Row<O>>): (r: seq<Row<O>>)
    ensures multiset(r) == multiset(rows)
  {
    if rows == [] then []
    else
      assert rows == [rows[0]] + rows[1..];
      InsertByKey(rows[0], SortByKey(rows[1..]))
  }

  lemma {:induction false} InsertSorted<O>(x: Row<O>, rows: seq<Row<O>>)
    requires SortedByKey(rows)
    ensures SortedByKey(InsertByKey(x, rows))
    ensures rows != [] ==> InsertByKey(x, rows)[0] == x || InsertByKey(x, rows)[0] == rows[0]
  {
    if rows == [] || LexLe(x.key, rows[0].key) {
    } else {
      LexTotal(x.key, rows[0].key);
      InsertSorted(x, rows[1..]);
      var tail := InsertByKey(x, rows[1..]);
      assert SortedByKey(tail);
      assert LexLe(rows[0].key, tail[0].key);
    }
  }

  /** The sorted listing holds the same rows, in non-decreasing name order. */
  lemma {:induction false} SortByKeySpec<O>(rows: seq<Row<O>>)
    ensures SortedByKey(SortByKey(rows)) && multiset(SortByKey(rows)) == multiset(rows)
  {
    if rows != [] {
      SortByKeySpec(rows[1..]);
      InsertSorted(rows[0], SortByKey(rows[1..]));
    }
  }

  /** The rows of one owner, in their order. */
  function Owned<O(==)>(rows: seq<Row<O>>, owner: O): seq<Row<O>> {
    Select(rows, (r: Row<O>) => r.owner == owner)
  }

  // ---------------------------------------------------------------- the store

  /** The three tables and the id counter. */
  datatype Store = Store(tables: seq<Row<string>>, columns: seq<Row<nat>>, terms: seq<Row<string>>, nextId: nat)

  predicate Valid(s: Store) {
    && Keyed(s.tables) && Keyed(s.columns) && Keyed(s.terms)
    && IdsBelow(s.tables, s.nextId) && IdsBelow(s.columns, s.nextId) && IdsBelow(s.terms, s.nextId)
  }

  /** The store as the handlers change it, one call at a time. */
  class MetadataDb {
    var tables: seq<Row<string>>
    var columns: seq<Row<nat>>
    var terms: seq<Row<string>>
    var nextId: nat

    function State(): Store
      reads this
    {
      Store(tables, columns, terms, nextId)
    }

    constructor()
      ensures State() == Store([], [], [], 0)
    {
      tables, columns, terms, nextId := [], [], [], 0;
    }

    method UpsertTable(tenantId: string, tableName: string, data: map<string, Json>) returns (row: Row<string>)
      modifies this
      ensures var u := Upsert(old(tables), old(nextId), tenantId, tableName, data);
        tables == u.rows && nextId == u.nextId && row == u.row
      ensures columns == old(columns) && terms == old(terms)
    {
      var u := Upsert(tables, nextId, tenantId, tableName, data);
      tables, nextId, row := u.rows, u.nextId, u.row;
    }

    /** `findUnique` on the table key. */
    method FindTable(tenantId: string, tableName: string) returns (found: Option<Row<string>>)
      ensures found.Some? <==> IndexOf(tables, tenantId, tableName) >= 0
      ensures found.Some? ==> found.value == tables[IndexOf(tables, tenantId, tableName)]
    {
      var k := IndexOf(tables, tenantId, tableName);
      found := if k >= 0 then Some(tables[k]) else None;
    }

    /** `create` of a table row with no optional field set. */
    method CreateTable(tenantId: string, tableName: string) returns (row: Row<string>)
      modifies this
      ensures row == Row(old(nextId), tenantId, tableName, map[])
      ensures tables == old(tables) + [row] && nextId == old(nextId) + 1
      ensures columns == old(columns) && terms == old(terms)
    {
      row := Row(nextId, tenantId, tableName, map[]);
      tables := tables + [row];
      nextId := nextId + 1;
    }

    method UpsertColumn(tableId: nat, columnName: string, data: map<string, Json>) returns (row: Row<nat>)
      modifies this
      ensures var u := Upsert(old(columns), old(nextId), tableId, columnName, data);
        columns == u.rows && nextId == u.nextId && row == u.row
      ensures tables == old(tables) && terms == old(terms)
    {
      var u := Upsert(columns, nextId, tableId, columnName, data);
      columns, nextId, row := u.rows, u.nextId, u.row;
    }

    method UpsertTerm(tenantId: string, term: string, data: map<string, Json>) returns (row: Row<string>)
      modifies this
      ensures var u := Upsert(old(terms), old(nextId), tenantId, term, data);
        terms == u.rows && nextId == u.nextId && row == u.row
      ensures tables == old(tables) && columns == old(columns)
    {
      var u := Upsert(terms, nextId, tenantId, term, data);
      terms, nextId, row := u.rows, u.nextId, u.row;
    }

    /** `deleteMany` on the tables: a filter the store refuses throws and deletes nothing. */
    method DeleteTables(tenantId: string, f: Filter) returns (err: Option<string>)
      modifies this
      ensures f.BadFilter? ==> err == Some(INVALID_ARGUMENT) && tables == old(tables)
      ensures f.ByName? ==> err.None? && tables == DeleteWhere(old(tables), tenantId, f.ops)
      ensures columns == old(columns) && terms == old(terms) && nextId == old(nextId)
    {
      if f.BadFilter? {
        return Some(INVALID_ARGUMENT);
      }
      tables := DeleteWhere(tables, tenantId, f.ops);
      return None;
    }

    /** `deleteMany` on the glossary. */
    method DeleteTerms(tenantId: string, f: Filter) returns (err: Option<string>)
      modifies this
      ensures f.BadFilter? ==> err == Some(INVALID_ARGUMENT) && terms == old(terms)
      ensures f.ByName? ==> err.None? && terms == DeleteWhere(old(terms), tenantId, f.ops)
      ensures tables == old(tables) && columns == old(columns) && nextId == old(nextId)
    {
      if f.BadFilter? {
        return Some(INVALID_ARGUMENT);
      }
      terms := DeleteWhere(terms, tenantId, f.ops);
      return None;
    }

    method DeleteColumn(id: nat) returns (err: Option<string>)
      modifies this
      ensures var d := DeleteById(old(columns), id);
        (d.Err? ==> err == Some(d.error) && columns == old(columns))
        && (d.Ok? ==> err.None? && columns == d.value)
      ensures tables == old(tables) && terms == old(terms) && nextId == old(nextId)
    {
      var d := DeleteById(columns, id);
      if d.Err? {
        err := Some(d.error);
      } else {
        columns, err := d.value, None;
      }
    }
  }

  // ---------------------------------------------------------------- POST

  /** The route's answers. `Crashed` is an error thrown outside the try block, which the
      framework answers itself. */
  datatype Response =
    | TableSaved(table: Row<string>)
    | ColumnSaved(column: Row<nat>)
    | TermSaved(term: Row<string>)
    | Deleted
    | Refused(status: int, error: string)
    | Crashed(error: string)

  datatype Handled = Handled(response: Response, store: Store)

  const NULL_BODY := "Cannot destructure property 'action' of 'body' as it is null."

  /** `{ tableName, ...colData } = body.data` on a missing or null `data`. */
  function DestructureError(data: Option<Json>): string {
    "Cannot destructure property 'tableName' of 'body.data' as it is " + (if data.None? then "undefined" else "null") + "."
  }

  function HandleUpsertTable(s: Store, tenantId: string, data: Option<Json>): Handled {
    var parsed := ParseSchema(OrNullData(data), "tableName", TABLE_FIELDS);
    if parsed.Err? then Handled(Refused(400, VALIDATION_ERROR), s)
    else
      var d := parsed.value;
      var u := Upsert(s.tables, s.nextId, tenantId, d["tableName"].s, d - {"tableName"});
      Handled(TableSaved(u.row), s.(tables := u.rows, nextId := u.nextId))
  }

  /** `body.data` handed to a parse: undefined fails like any non-object. */
  function OrNullData(data: Option<Json>): Json {
    if data.Some? then data.value else JNull
  }

  function HandleUpsertColumn(s: Store, tenantId: string, data: Option<Json>): Handled {
    if data.None? || data.value == JNull then Handled(Refused(500, DestructureError(data)), s)
    else
      var rest := if data.value.JObj? then data.value.fields - {"tableName"} else map[];
      var parsed := ParseSchema(JObj(rest), "columnName", COLUMN_FIELDS);
      if parsed.Err? then Handled(Refused(400, VALIDATION_ERROR), s)
      else
        var tableName := if data.value.JObj? && "tableName" in data.value.fields then Some(data.value.fields["tableName"]) else None;
        if tableName.None? || !tableName.value.JStr? then Handled(Refused(500, INVALID_ARGUMENT), s)
        else
          var d := parsed.value;
          var t := Upsert(s.tables, s.nextId, tenantId, tableName.value.s, map[]);
          var c := Upsert(s.columns, t.nextId, t.row.id, d["columnName"].s, d - {"columnName"});
          Handled(ColumnSaved(c.row), s.(tables := t.rows, columns := c.rows, nextId := c.nextId))
  }

  function HandleUpsertTerm(s: Store, tenantId: string, data: Option<Json>): Handled {
    var parsed := ParseSchema(OrNullData(data), "term", TERM_FIELDS);
    if parsed.Err? then Handled(Refused(400, VALIDATION_ERROR), s)
    else
      var d := parsed.value;
      var u := Upsert(s.terms, s.nextId, tenantId, d["term"].s, d - {"term"});
      Handled(TermSaved(u.row), s.(terms := u.rows, nextId := u.nextId))
  }

  function HandleDeleteColumn(s: Store, id: Option<Json>): Handled {
    if id.None? || !id.value.JNum? || id.value.n < 0 then Handled(Refused(500, INVALID_ARGUMENT), s)
    else
      var d := DeleteById(s.columns, id.value.n);
      if d.Err? then Handled(Refused(500, d.error), s)
      else Handled(Deleted, s.(columns := d.value))
  }

  /** The `action` property, as the switch tells its cases apart. */
  datatype Action =
    | UpsertTableAction | UpsertColumnAction | UpsertTermAction
    | DeleteTableAction | DeleteColumnAction | DeleteTermAction
    | UnknownAction

  function ActionOf(v: Option<Json>): Action {
    if v == Some(JStr("upsertTable")) then UpsertTableAction
    else if v == Some(JStr("upsertColumn")) then UpsertColumnAction
    else if v == Some(JStr("upsertTerm")) then UpsertTermAction
    else if v == Some(JStr("deleteTable")) then DeleteTableAction
    else if v == Some(JStr("deleteColumn")) then DeleteColumnAction
    else if v == Some(JStr("deleteTerm")) then DeleteTermAction
    else UnknownAction
  }

  /** Each of the six action names selects its own case. */
  lemma ActionNames()
    ensures ActionOf(Some(JStr("upsertTable"))) == UpsertTableAction
    ensures ActionOf(Some(JStr("upsertColumn"))) == UpsertColumnAction
    ensures ActionOf(Some(JStr("upsertTerm"))) == UpsertTermAction
    ensures ActionOf(Some(JStr("deleteTable"))) == DeleteTableAction
    ensures ActionOf(Some(JStr("deleteColumn"))) == DeleteColumnAction
    ensures ActionOf(Some(JStr("deleteTerm"))) == DeleteTermAction
  {
    assert "upsertTable"[0] != "deleteTable"[0];
    assert "upsertColumn"[0] != "deleteColumn"[0];
    assert "upsertTerm"[0] != "deleteTerm"[0];
  }

  /** POST: the ADMIN gate, the body (read outside the try block), then the action. */
  function Handle(s: Store, session: Option<SessionUser>, body: Result<Json>): Handled {
    var auth := RequireAuth(session, Admin);
    if auth.Rejected? then Handled(Refused(auth.status, auth.error), s)
    else if body.Err? then Handled(Crashed(body.error), s)
    else if body.value == JNull then Handled(Crashed(NULL_BODY), s)
    else
      var tenantId := auth.tenantId;
      var action := Get(body.value, "action").value;
      var data := Get(body.value, "data").value;
      var act := ActionOf(action);
      if act == UpsertTableAction then HandleUpsertTable(s, tenantId, data)
      else if act == UpsertColumnAction then HandleUpsertColumn(s, tenantId, data)
      else if act == UpsertTermAction then HandleUpsertTerm(s, tenantId, data)
      else if act == DeleteTableAction then
        var f := FilterOf(Get(body.value, "tableName").value);
        if f.BadFilter? then Handled(Refused(500, INVALID_ARGUMENT), s)
        else Handled(Deleted, s.(tables := DeleteWhere(s.tables, tenantId, f.ops)))
      else if act == DeleteColumnAction then HandleDeleteColumn(s, Get(body.value, "id").value)
      else if act == DeleteTermAction then
        var f := FilterOf(Get(body.value, "term").value);
        if f.BadFilter? then Handled(Refused(500, INVALID_ARGUMENT), s)
        else Handled(Deleted, s.(terms := DeleteWhere(s.terms, tenantId, f.ops)))
      else Handled(Refused(400, UNKNOWN_ACTION), s)
  }

  /** The handler step by step against the store. */
  method Post(db: MetadataDb, session: Option<SessionUser>, body: Result<Json>) returns (response: Response)
    modifies db
    ensures var h := Handle(old(db.State()), session, body);
      response == h.response && db.State() == h.store
  {
    var auth := RequireAuth(session, Admin);
    if auth.Rejected? {
      return Refused(auth.status, auth.error);
    }
    if body.Err? {
      return Crashed(body.error);
    }
    if body.value == JNull {
      return Crashed(NULL_BODY);
    }
    var tenantId := auth.tenantId;
    var action := Get(body.value, "action").value;
    var data := Get(body.value, "data").value;
    var act := ActionOf(action);
    if act == UpsertTableAction {
      var parsed := ParseSchema(OrNullData(data), "tableName", TABLE_FIELDS);
      if parsed.Err? {
        return Refused(400, VALIDATION_ERROR);
      }
      var d := parsed.value;
      var row := db.UpsertTable(tenantId, d["tableName"].s, d - {"tableName"});
      response := TableSaved(row);
    } else if act == UpsertColumnAction {
      response := PostColumn(db, tenantId, data);
    } else if act == UpsertTermAction {
      var parsed := ParseSchema(OrNullData(data), "term", TERM_FIELDS);
      if parsed.Err? {
        return Refused(400, VALIDATION_ERROR);
      }
      var d := parsed.value;
      var row := db.UpsertTerm(tenantId, d["term"].s, d - {"term"});
      response := TermSaved(row);
    } else if act == DeleteTableAction {
      var err := db.DeleteTables(tenantId, FilterOf(Get(body.value, "tableName").value));
      response := if err.Some? then Refused(500, err.value) else Deleted;
    } else if act == DeleteColumnAction {
      var id := Get(body.value, "id").value;
      if id.None? || !id.value.JNum? || id.value.n < 0 {
        return Refused(500, INVALID_ARGUMENT);
      }
      var err := db.DeleteColumn(id.value.n);
      response := if err.Some? then Refused(500, err.value) else Deleted;
    } else if act == DeleteTermAction {
      var err := db.DeleteTerms(tenantId, FilterOf(Get(body.value, "term").value));
      response := if err.Some? then Refused(500, err.value) else Deleted;
    } else {
      response := Refused(400, UNKNOWN_ACTION);
    }
  }

  /** upsertColumn: parse, find or create the parent table, then upsert the column. */
  method PostColumn(db: MetadataDb, tenantId: string, data: Option<Json>) returns (response: Response)
    modifies db
    ensures var h := HandleUpsertColumn(old(db.State()), tenantId, data);
      response == h.response && db.State() == h.store
  {
    if data.None? || data.value == JNull {
      return Refused(500, DestructureError(data));
    }
    var rest := if data.value.JObj? then data.value.fields - {"tableName"} else map[];
    var parsed := ParseSchema(JObj(rest), "columnName", COLUMN_FIELDS);
    if parsed.Err? {
      return Refused(400, VALIDATION_ERROR);
    }
    var tableName := if data.value.JObj? && "tableName" in data.value.fields then Some(data.value.fields["tableName"]) else None;
    if tableName.None? || !tableName.value.JStr? {
      return Refused(500, INVALID_ARGUMENT);
    }
    var d := parsed.value;
    ghost var t := Upsert(db.tables, db.nextId, tenantId, tableName.value.s, map[]);
    var tableMeta := db.FindTable(tenantId, tableName.value.s);
    if tableMeta.None? {
      var created := db.CreateTable(tenantId, tableName.value.s);
      tableMeta := Some(created);
    } else {
      assert tableMeta.value.fields + map[] == tableMeta.value.fields;
      assert db.tables[IndexOf(db.tables, tenantId, tableName.value.s) := tableMeta.value] == db.tables;
    }
    assert tableMeta.value == t.row && db.tables == t.rows && db.nextId == t.nextId;
    var row := db.UpsertColumn(tableMeta.value.id, d["columnName"].s, d - {"columnName"});
    response := ColumnSaved(row);
  }

  /** Every action keeps the store's keys and ids unique. */
  lemma HandleKeepsValid(s: Store, session: Option<SessionUser>, body: Result<Json>)
    requires Valid(s)
    ensures Valid(Handle(s, session, body).store)
  {
    var auth := RequireAuth(session, Admin);
    if auth.Authorized? && body.Ok? && body.value != JNull {
      var tenantId := auth.tenantId;
      var action := Get(body.value, "action").value;
      var data := Get(body.value, "data").value;
      var act := ActionOf(action);
      if act == UpsertTableAction {
        var parsed := ParseSchema(OrNullData(data), "tableName", TABLE_FIELDS);
        if parsed.Ok? {
          var d := parsed.value;
          UpsertSpec(s.tables, s.nextId, tenantId, d["tableName"].s, d - {"tableName"});
          var u := Upsert(s.tables, s.nextId, tenantId, d["tableName"].s, d - {"tableName"});
          IdsBelowMonotone(s.columns, s.nextId, u.nextId);
          IdsBelowMonotone(s.terms, s.nextId, u.nextId);
        }
      } else if act == UpsertColumnAction {
        UpsertColumnKeepsValid(s, tenantId, data);
      } else if act == UpsertTermAction {
        var parsed := ParseSchema(OrNullData(data), "term", TERM_FIELDS);
        if parsed.Ok? {
          var d := parsed.value;
          UpsertSpec(s.terms, s.nextId, tenantId, d["term"].s, d - {"term"});
          var u := Upsert(s.terms, s.nextId, tenantId, d["term"].s, d - {"term"});
          IdsBelowMonotone(s.columns, s.nextId, u.nextId);
          IdsBelowMonotone(s.tables, s.nextId, u.nextId);
        }
      } else if act == DeleteTableAction {
        var f := FilterOf(Get(body.value, "tableName").value);
        if f.ByName? {
          DeleteWhereKeeps(s.tables, tenantId, f.ops, s.nextId);
        }
      } else if act == DeleteColumnAction {
        var id := Get(body.value, "id").value;
        if id.Some? && id.value.JNum? && id.value.n >= 0 {
          DeleteWhereIdKeeps(s.columns, id.value.n, s.nextId);
        }
      } else if act == DeleteTermAction {
        var f := FilterOf(Get(body.value, "term").value);
        if f.ByName? {
          DeleteWhereKeeps(s.terms, tenantId, f.ops, s.nextId);
        }
      }
    }
  }

  lemma UpsertColumnKeepsValid(s: Store, tenantId: string, data: Option<Json>)
    requires Valid(s)
    ensures Valid(HandleUpsertColumn(s, tenantId, data).store)
  {
    if data.Some? && data.value != JNull {
      var rest := if data.value.JObj? then data.value.fields - {"tableName"} else map[];
      var parsed := ParseSchema(JObj(rest), "columnName", COLUMN_FIELDS);
      var tableName := if data.value.JObj? && "tableName" in data.value.fields then Some(data.value.fields["tableName"]) else None;
      if parsed.Ok? && tableName.Some? && tableName.value.JStr? {
        var d := parsed.value;
        UpsertSpec(s.tables, s.nextId, tenantId, tableName.value.s, map[]);
        var t := Upsert(s.tables, s.nextId, tenantId, tableName.value.s, map[]);
        IdsBelowMonotone(s.columns, s.nextId, t.nextId);
        UpsertSpec(s.columns, t.nextId, t.row.id, d["columnName"].s, d - {"columnName"});
        var c := Upsert(s.columns, t.nextId, t.row.id, d["columnName"].s, d - {"columnName"});
        IdsBelowMonotone(t.rows, t.nextId, c.nextId);
        IdsBelowMonotone(s.terms, s.nextId, c.nextId);
      }
    }
  }

  lemma IdsBelowMonotone<O>(rows: seq<Row<O>>, n: nat, m: nat)
    requires IdsBelow(rows, n) && n <= m
    ensures IdsBelow(rows, m)
  {
  }

  lemma DeleteWhereIdKeeps<O>(rows: seq<Row<O>>, id: nat, nextId: nat)
    requires Keyed(rows) && IdsBelow(rows, nextId)
    ensures DeleteById(rows, id).Ok? ==> Keyed(DeleteById(rows, id).value) && IdsBelow(DeleteById(rows, id).value, nextId)
  {
    SelectKeeps(rows, (r: Row<O>) => r.id != id, nextId);
  }

  /** The ADMIN gate comes first: a rejected session changes nothing and gets requireAuth's
      own response. */
  lemma AdminGateFirst(s: Store, session: Option<SessionUser>, body: Result<Json>)
    requires RequireAuth(session, Admin).Rejected?
    ensures Handle(s, session, body)
      == Handled(Refused(RequireAuth(session, Admin).status, RequireAuth(session, Admin).error), s)
  {
  }

  /** A signed-in administrator's request with an unrecognised action is 400 and changes
      nothing; one whose data the schema refuses is 400 "Validation error" and changes nothing. */
  lemma RefusalsChangeNothing(s: Store, user: SessionUser, fields: map<string, Json>)
    requires Rank(user.role) >= Rank(Admin) && user.tenantId != ""
    ensures "action" !in fields ==> Handle(s, Some(user), Ok(JObj(fields))) == Handled(Refused(400, UNKNOWN_ACTION), s)
    ensures "action" in fields && fields["action"] == JStr("upsertTable")
            && ParseSchema(OrNullData(if "data" in fields then Some(fields["data"]) else None), "tableName", TABLE_FIELDS).Err? ==>
      Handle(s, Some(user), Ok(JObj(fields))) == Handled(Refused(400, VALIDATION_ERROR), s)
  {
    ActionNames();
  }

  /** upsertColumn under a table name that has no row yet creates that table row, with no
      optional field set, under the caller's tenant, and files the column under it. */
  lemma UpsertColumnCreatesParent(s: Store, tenantId: string, tableName: string, data: map<string, Json>)
    requires Valid(s) && IndexOf(s.tables, tenantId, tableName) < 0
    requires "tableName" in data && data["tableName"] == JStr(tableName)
    requires ParseSchema(JObj(data - {"tableName"}), "columnName", COLUMN_FIELDS).Ok?
    ensures var h := HandleUpsertColumn(s, tenantId, Some(JObj(data)));
      h.response.ColumnSaved?
      && Row(s.nextId, tenantId, tableName, map[]) in h.store.tables
      && h.response.column.owner == s.nextId
      && |h.store.tables| == |s.tables| + 1
  {
    UpsertSpec(s.tables, s.nextId, tenantId, tableName, map[]);
  }

  /** deleteTable without a tableName in the body is no filter: every table row of the tenant
      is removed, and no other tenant's. */
  lemma DeleteTableWithoutNameWipesTenant(s: Store, user: SessionUser, fields: map<string, Json>)
    requires Rank(user.role) >= Rank(Admin) && user.tenantId != ""
    requires "action" in fields && fields["action"] == JStr("deleteTable") && "tableName" !in fields
    ensures var h := Handle(s, Some(user), Ok(JObj(fields)));
      h.response == Deleted
      && (forall r :: r in h.store.tables <==> r in s.tables && r.owner != user.tenantId)
  {
    ActionNames();
    assert RequireAuth(Some(user), Admin) == Authorized(user, user.tenantId);
    var d := DeleteWhere(s.tables, user.tenantId, map[]);
    DeleteWhereSpec(s.tables, user.tenantId, map[]);
    assert Handle(s, Some(user), Ok(JObj(fields))).store.tables == d;
    forall r
      ensures r in d <==> r in s.tables && r.owner != user.tenantId
    {
      assert Matches(r, user.tenantId, map[]) <==> r.owner == user.tenantId;
    }
  }

  /** deleteTerm with a name removes exactly that term of the tenant. */
  lemma DeleteTermByName(s: Store, user: SessionUser, fields: map<string, Json>, term: string)
    requires Rank(user.role) >= Rank(Admin) && user.tenantId != ""
    requires "action" in fields && fields["action"] == JStr("deleteTerm") && "term" in fields
    requires fields["term"] == JStr(term)
    ensures var h := Handle(s, Some(user), Ok(JObj(fields)));
      h.response == Deleted
      && (forall r :: r in h.store.terms <==> r in s.terms && !(r.owner == user.tenantId && r.key == term))
  {
    ActionNames();
    assert RequireAuth(Some(user), Admin) == Authorized(user, user.tenantId);
    var ops := map["equals" := JStr(term)];
    var d := DeleteWhere(s.terms, user.tenantId, ops);
    DeleteWhereSpec(s.terms, user.tenantId, ops);
    assert Handle(s, Some(user), Ok(JObj(fields))).store.terms == d;
    forall r
      ensures r in d <==> r in s.terms && !(r.owner == user.tenantId && r.key == term)
    {
      SingleOpMatches("equals", JStr(term), r.key);
    }
  }

  /** deleteTerm with a StringFilter object deletes, within the tenant, exactly the terms the
      filter matches: `{"not": keep}` keeps only `keep`. */
  lemma DeleteTermNotKeep(s: Store, user: SessionUser, fields: map<string, Json>, keep: string)
    requires Rank(user.role) >= Rank(Admin) && user.tenantId != ""
    requires "action" in fields && fields["action"] == JStr("deleteTerm") && "term" in fields
    requires fields["term"] == JObj(map["not" := JStr(keep)])
    ensures var h := Handle(s, Some(user), Ok(JObj(fields)));
      h.response == Deleted
      && (forall r :: r in h.store.terms <==> r in s.terms && (r.owner != user.tenantId || r.key == keep))
  {
    ActionNames();
    assert RequireAuth(Some(user), Admin) == Authorized(user, user.tenantId);
    var ops := map["not" := JStr(keep)];
    assert FilterOf(Some(JObj(ops))) == ByName(ops) by {
      assert forall op :: op in ops ==> ValidOp(op, ops[op]);
    }
    var d := DeleteWhere(s.terms, user.tenantId, ops);
    DeleteWhereSpec(s.terms, user.tenantId, ops);
    assert Handle(s, Some(user), Ok(JObj(fields))).store.terms == d;
    forall r
      ensures r in d <==> r in s.terms && (r.owner != user.tenantId || r.key == keep)
    {
      SingleOpMatches("not", JStr(keep), r.key);
    }
  }

  /** `{"startsWith": ""}` matches every name: deleteTerm with it empties the tenant's glossary
      and leaves every other tenant's. */
  lemma DeleteTermEmptyPrefixWipesTenant(s: Store, user: SessionUser, fields: map<string, Json>)
    requires Rank(user.role) >= Rank(Admin) && user.tenantId != ""
    requires "action" in fields && fields["action"] == JStr("deleteTerm") && "term" in fields
    requires fields["term"] == JObj(map["startsWith" := JStr("")])
    ensures var h := Handle(s, Some(user), Ok(JObj(fields)));
      h.response == Deleted
      && (forall r :: r in h.store.terms <==> r in s.terms && r.owner != user.tenantId)
  {
    ActionNames();
    assert RequireAuth(Some(user), Admin) == Authorized(user, user.tenantId);
    var ops := map["startsWith" := JStr("")];
    assert FilterOf(Some(JObj(ops))) == ByName(ops) by {
      assert forall op :: op in ops ==> ValidOp(op, ops[op]);
    }
    var d := DeleteWhere(s.terms, user.tenantId, ops);
    DeleteWhereSpec(s.terms, user.tenantId, ops);
    assert Handle(s, Some(user), Ok(JObj(fields))).store.terms == d;
    forall r
      ensures r in d <==> r in s.terms && r.owner != user.tenantId
    {
      SingleOpMatches("startsWith", JStr(""), r.key);
      assert Text.StartsWith(r.key, "");
    }
  }

  /** A null name, or an object with an operator the store does not know, fails the store's
      validation: 500 and nothing deleted. */
  lemma DeleteWithBadFilterRefused(s: Store, user: SessionUser, fields: map<string, Json>, name: string, op: string)
    requires Rank(user.role) >= Rank(Admin) && user.tenantId != ""
    requires "action" in fields && fields["action"] in {JStr("deleteTable"), JStr("deleteTerm")}
    requires name == (if fields["action"] == JStr("deleteTable") then "tableName" else "term")
    requires name in fields
    requires fields[name] == JNull || (fields[name].JObj? && op in fields[name].fields && !ValidOp(op, fields[name].fields[op]))
    ensures Handle(s, Some(user), Ok(JObj(fields))) == Handled(Refused(500, INVALID_ARGUMENT), s)
  {
    ActionNames();
    assert RequireAuth(Some(user), Admin) == Authorized(user, user.tenantId);
    assert FilterOf(Some(fields[name])) == BadFilter;
  }

  /** deleteColumn has no tenant filter: an administrator of any tenant removes a column by id
      whatever table, and so whatever tenant, it belongs to. */
  lemma DeleteColumnIgnoresTenant(s: Store, user: SessionUser, fields: map<string, Json>, i: nat)
    requires Rank(user.role) >= Rank(Admin) && user.tenantId != ""
    requires i < |s.columns|
    requires "action" in fields && fields["action"] == JStr("deleteColumn") && "id" in fields
    requires fields["id"] == JNum(s.columns[i].id)
    ensures var h := Handle(s, Some(user), Ok(JObj(fields)));
      h.response == Deleted && s.columns[i] !in h.store.columns
  {
    ActionNames();
    assert RequireAuth(Some(user), Admin) == Authorized(user, user.tenantId);
    DeleteByIdSpec(s.columns, s.columns[i].id);
    assert Handle(s, Some(user), Ok(JObj(fields))) == HandleDeleteColumn(s, Some(JNum(s.columns[i].id)));
  }

  // ---------------------------------------------------------------- GET

  /** A listed table with its columns. */
  datatype TableListing = TableListing(table: Row<string>, columns: seq<Row<nat>>)

  datatype Listing =
    | Metadata(tableMetadata: seq<TableListing>, businessTerms: seq<Row<string>>)
    | ListRefused(status: int, error: string)

  function WithColumns(tables: seq<Row<string>>, columns: seq<Row<nat>>): (r: seq<TableListing>)
    ensures |r| == |tables|
    ensures forall i :: 0 <= i < |r| ==> r[i].table == tables[i] && r[i].columns == SortByKey(Owned(columns, tables[i].id))
  {
    seq(|tables|, i requires 0 <= i < |tables| => TableListing(tables[i], SortByKey(Owned(columns, tables[i].id))))
  }

  /** GET: any signed-in user with a tenant; the tenant's tables by name, each with its
      columns by name, and the tenant's terms by term. */
  function List(s: Store, session: Option<SessionUser>): Listing {
    var auth := RequireAuth(session, Viewer);
    if auth.Rejected? then ListRefused(auth.status, auth.error)
    else
      Metadata(WithColumns(SortByKey(Owned(s.tables, auth.tenantId)), s.columns),
               SortByKey(Owned(s.terms, auth.tenantId)))
  }

  /** The listing is refused without a signed-in user with a tenant, and otherwise holds the
      tenant's tables and terms, each sorted by name. */
  lemma ListShape(s: Store, session: Option<SessionUser>)
    ensures var l := List(s, session);
      (l.ListRefused? <==> session.None? || session.value.tenantId == "")
      && (l.Metadata? ==>
            |l.tableMetadata| == |SortByKey(Owned(s.tables, session.value.tenantId))|
            && l.businessTerms == SortByKey(Owned(s.terms, session.value.tenantId)))
  {
  }

  /** `l` holds exactly the rows of `rows` that belong to `owner`. */
  ghost predicate ExactlyOwned<O>(l: seq<Row<O>>, rows: seq<Row<O>>, owner: O) {
    && (forall r :: r in l ==> r in rows && r.owner == owner)
    && (forall r :: r in rows && r.owner == owner ==> r in l)
  }

  /** A sorted listing of one owner's rows holds exactly that owner's rows, in name order. */
  lemma OwnedSortedSpec<O>(rows: seq<Row<O>>, owner: O)
    ensures SortedByKey(SortByKey(Owned(rows, owner)))
    ensures ExactlyOwned(SortByKey(Owned(rows, owner)), rows, owner)
  {
    var owned := Owned(rows, owner);
    SelectSpec(rows, (r: Row<O>) => r.owner == owner);
    SortByKeySpec(owned);
    var l := SortByKey(owned);
    forall r | r in l
      ensures r in owned
    {
      assert r in multiset(l);
    }
    forall r | r in owned
      ensures r in l
    {
      assert r in multiset(owned);
    }
  }

  /** The listing shows exactly the caller's tenant's tables, in name order, under each
      exactly its own columns in name order, and exactly the tenant's terms in name order. */
  lemma ListSpec(s: Store, user: SessionUser)
    requires user.tenantId != ""
    ensures var l := List(s, Some(user));
      && l.Metadata?
      && SortedByKey(Tables(l)) && ExactlyOwned(Tables(l), s.tables, user.tenantId)
      && (forall i :: 0 <= i < |l.tableMetadata| ==>
            SortedByKey(l.tableMetadata[i].columns)
            && ExactlyOwned(l.tableMetadata[i].columns, s.columns, l.tableMetadata[i].table.id))
      && SortedByKey(l.businessTerms) && ExactlyOwned(l.businessTerms, s.terms, user.tenantId)
  {
    assert RequireAuth(Some(user), Viewer) == Authorized(user, user.tenantId);
    var l := List(s, Some(user));
    var tables := SortByKey(Owned(s.tables, user.tenantId));
    assert l.tableMetadata == WithColumns(tables, s.columns);
    assert Tables(l) == tables;
    OwnedSortedSpec(s.tables, user.tenantId);
    OwnedSortedSpec(s.terms, user.tenantId);
    forall i | 0 <= i < |l.tableMetadata|
      ensures SortedByKey(l.tableMetadata[i].columns)
      ensures ExactlyOwned(l.tableMetadata[i].columns, s.columns, l.tableMetadata[i].table.id)
    {
      OwnedSortedSpec(s.columns, tables[i].id);
    }
  }

  /** The listed tables, without their columns. */
  function Tables(l: Listing): (t: seq<Row<string>>)
    requires l.Metadata?
    ensures |t| == |l.tableMetadata|
  {
    seq(|l.tableMetadata|, i requires 0 <= i < |l.tableMetadata| => l.tableMetadata[i].table)
  }
}
