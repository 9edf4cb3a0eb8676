/**
 * The type-tag mapping (`getDataType`) and the SQL text and bound parameters
 * that each EasyDB operation sends to sqlite, built from its arguments.
 * Table names, column names, filter values and ids are pasted into the text;
 * record values travel as bound parameters.
 */
module Sql {
  import opened Wrappers
  import opened Js

  /** A statement sent to the store: `db.run(sql, params)` or `db.all(sql)`. */
  datatype Statement = Run(sql: string, params: seq<Value>) | All(sql: string)

  /** The statements a batch operation runs, one per element. */
  type RunStatement = s: Statement | s.Run? witness Run("", [])

  // ---------------------------------------------------------------------------
  // createTable

  /**
   * `getDataType`: the column type for a type tag. The tags are compared with
   * `===`, so only the five listed strings select a type of their own; every
   * other value, including a non-string one, falls to VARCHAR.
   */
  function GetDataType(tag: Value): (r: string)
    ensures r in {"NULL", "VARCHAR", "INTEGER", "REAL", "BLOB"}
    ensures r == "NULL" <==> tag == Str("")
    ensures r == "INTEGER" <==> tag == Str("number")
    ensures r == "REAL" <==> tag == Str("float")
    ensures r == "BLOB" <==> tag == Str("blob")
    ensures r == "VARCHAR" <==> tag !in {Str(""), Str("number"), Str("float"), Str("blob")}
  {
    match tag
    case Str(t) =>
      if t == "" then "NULL"
      else if t == "string" then "VARCHAR"
      else if t == "number" then "INTEGER"
      else if t == "float" then "REAL"
      else if t == "blob" then "BLOB"
      else "VARCHAR"
    case _ => "VARCHAR"
  }

  /** The implicit primary key every table starts with, and its trailing separator. */
  const IdColumn: string := "id INTEGER PRIMARY KEY, "

  /** One column definition: `name TYPE`. */
  function ColumnEntry(name: string, tag: Value): string
  {
    name + " " + GetDataType(tag)
  }

  function ColumnEntries(columns: Obj<Value>): seq<string>
  {
    seq(|columns|, i requires 0 <= i < |columns| => ColumnEntry(columns[i].0, columns[i].1))
  }

  /**
   * The column list of `CREATE TABLE`: the id column, then one `name TYPE`
   * per supplied column in order, separated by `, ` and with nothing after
   * the last one.
   */
  function ColumnDefs(columns: Obj<Value>): string
  {
    IdColumn + Join(", ", ColumnEntries(columns))
  }

  /**
   * The loop of `createTable` that appends each `name TYPE` followed by `, `,
   * or by nothing for the entry whose index is the last one.
   */
  method BuildColumns(tableColumns: Obj<Value>) returns (columns: string)
    ensures columns == ColumnDefs(tableColumns)
  {
    var entries := ColumnEntries(tableColumns);
    var n := |tableColumns|;
    columns := IdColumn;
    for index := 0 to n
      invariant columns == ColumnsSoFar(entries, index)
    {
      var delimiter := if index + 1 != n then ", " else "";
      ColumnsStep(entries, index);
      columns := columns + ColumnEntry(tableColumns[index].0, tableColumns[index].1) + delimiter;
    }
    assert entries[..n] == entries;
  }

  /** What the createTable loop has built after `i` of the entries. */
  function ColumnsSoFar(entries: seq<string>, i: nat): string
    requires i <= |entries|
  {
    IdColumn + Join(", ", entries[..i]) + (if 0 < i < |entries| then ", " else "")
  }

  lemma ColumnsStep(entries: seq<string>, i: nat)
    requires i < |entries|
    ensures ColumnsSoFar(entries, i) + entries[i] + (if i + 1 != |entries| then ", " else "")
         == ColumnsSoFar(entries, i + 1)
  {
    assert entries[..i + 1] == entries[..i] + [entries[i]];
    if i > 0 {
      JoinSnoc(", ", entries[..i], entries[i]);
    }
  }

  function CreateTableSql(tableName: string, columns: string): string
  {
    "CREATE TABLE " + tableName + " (" + columns + ")"
  }

  /** A new column appended to the definition lands at the end, after a separator. */
  lemma ColumnDefsSnoc(columns: Obj<Value>, name: string, tag: Value)
    ensures ColumnDefs(columns + [(name, tag)])
         == ColumnDefs(columns) + (if columns == [] then "" else ", ") + ColumnEntry(name, tag)
  {
    var entries := ColumnEntries(columns);
    assert ColumnEntries(columns + [(name, tag)]) == entries + [ColumnEntry(name, tag)];
    if columns != [] {
      JoinSnoc(", ", entries, ColumnEntry(name, tag));
    }
  }

  // ---------------------------------------------------------------------------
  // select

  /** One filter condition: `key = value`, the value pasted in without quotes. */
  function FilterEntry(key: string, value: Value): string
  {
    key + " = " + Interpolate(value)
  }

  function FilterEntries(filters: Record): seq<string>
  {
    seq(|filters|, i requires 0 <= i < |filters| => FilterEntry(filters[i].0, filters[i].1))
  }

  /**
   * The WHERE part: present exactly when a filter object is passed (an empty
   * one too, as the array of conditions is truthy even when empty); the
   * conditions are joined the way an array turns into a string, with `,`.
   */
  function WherePart(filters: Option<Record>): string
  {
    match filters
    case None => ""
    case Some(f) => " WHERE " + Join(",", FilterEntries(f))
  }

  function SelectSql(tableName: string, tableColumns: seq<string>, filters: Option<Record>): string
  {
    "SELECT " + Join(", ", tableColumns) + " FROM " + tableName + WherePart(filters)
  }

  /** Without a filter object the statement has no WHERE part; with an empty one it ends in `WHERE `. */
  lemma SelectWhereOnlyWithFilters(tableName: string, tableColumns: seq<string>)
    ensures SelectSql(tableName, tableColumns, Some([]))
         == SelectSql(tableName, tableColumns, None) + " WHERE "
  {
  }

  /** One more condition extends the WHERE part, after a `,` when an earlier one exists. */
  lemma {:induction false} WherePartSnoc(filters: Record, entry: (string, Value))
    ensures WherePart(Some(filters + [entry]))
         == WherePart(Some(filters)) + (if filters == [] then "" else ",") + FilterEntry(entry.0, entry.1)
  {
    var entries := FilterEntries(filters);
    var last := FilterEntry(entry.0, entry.1);
    assert FilterEntries(filters + [entry]) == entries + [last];
    if filters == [] {
      assert entries == [];
      assert entries + [last] == [last];
    } else {
      JoinSnoc(",", entries, last);
    }
  }

  /**
   * A further filter entry appends `key = value` to the statement, after a `,`
   * when an earlier condition exists: conditions appear in entry order, each
   * value as a template literal prints it (a string verbatim and unquoted).
   */
  lemma {:induction false} SelectFilterSnoc(tableName: string, tableColumns: seq<string>, filters: Record, key: string, value: Value)
    ensures SelectSql(tableName, tableColumns, Some(filters + [(key, value)]))
         == SelectSql(tableName, tableColumns, Some(filters)) + (if filters == [] then "" else ",") + key + " = " + Interpolate(value)
  {
    var prefix := "SELECT " + Join(", ", tableColumns) + " FROM " + tableName;
    var sep := if filters == [] then "" else ",";
    var text := Interpolate(value);
    var before := WherePart(Some(filters));
    WherePartSnoc(filters, (key, value));
    AppendAssoc(prefix, before + sep, (key + " = ") + text);
    AppendAssoc(prefix, before, sep);
    AppendAssoc(prefix + before + sep, key + " = ", text);
    AppendAssoc(prefix + before + sep, key, " = ");
  }

  lemma AppendAssoc(a: string, b: string, c: string)
    ensures a + (b + c) == a + b + c
  {
  }

  // ---------------------------------------------------------------------------
  // insert

  /** The random part of a generated id is drawn from [0, 90000). */
  predicate IsRandomDraw(k: int) { 0 <= k < 90000 }

  /** `{ id: Math.floor(Math.random() * 90000) + 10000, ...record }`, with the draw `k` supplied. */
  function WithGeneratedId(record: Record, k: int): Record
  {
    Spread([("id", Num(10000 + k))], record)
  }

  /** `Array(n).fill('?').join(',')` */
  function Placeholders(n: nat): string
  {
    Join(",", Fill(n, "?"))
  }

  function InsertSql(tableName: string, record: Record): string
  {
    "INSERT INTO " + tableName + " (" + Join(",", Keys(record)) + ") VALUES (" + Placeholders(|Values(record)|) + ")"
  }

  /** The statement for one record of an insert batch, given its random draw. */
  function InsertStatement(tableName: string, record: Record, k: int): RunStatement
  {
    var full := WithGeneratedId(record, k);
    Run(InsertSql(tableName, full), Values(full))
  }

  function InsertStatements(tableName: string, records: seq<Record>, draws: seq<int>): (stmts: seq<RunStatement>)
    requires |draws| == |records|
    ensures |stmts| == |records|
  {
    seq(|records|, i requires 0 <= i < |records| => InsertStatement(tableName, records[i], draws[i]))
  }

  /** The placeholder list holds exactly `n` question marks and is `2n - 1` characters long. */
  lemma {:induction false} PlaceholderCount(n: nat)
    ensures Occurrences('?', Placeholders(n)) == n
    ensures |Placeholders(n)| == if n == 0 then 0 else 2 * n - 1
    decreases n
  {
    if n > 1 {
      PlaceholderCount(n - 1);
      assert Fill(n, "?")[1..] == Fill(n - 1, "?");
      OccurrencesAppend('?', "?" + ",", Placeholders(n - 1));
      assert Placeholders(n) == "?" + "," + Placeholders(n - 1);
    }
  }

  /**
   * The record an insert writes: `id` comes first; it is the caller's own `id`
   * when the record has one, and otherwise the generated 10000 + k, which lies
   * in [10000, 99999]; the record's other fields follow in their order, and
   * the keys stay distinct.
   */
  lemma GeneratedIdFirst(record: Record, k: int)
    requires DistinctKeys(record) && IsRandomDraw(k)
    ensures var full := WithGeneratedId(record, k);
      && full != []
      && full[0].0 == "id"
      && ("id" in Keys(record) ==> full[0].1 == Get(record, "id"))
      && ("id" !in Keys(record) ==> full[0].1 == Num(10000 + k) && 10000 <= 10000 + k <= 99999)
      && full[1..] == Without(record, "id")
      && DistinctKeys(full)
  {
    LeadingIdSpread(record, Num(10000 + k));
    var full := WithGeneratedId(record, k);
    var rest := Without(record, "id");
    var head := ("id", ValueOr(Lookup(record, "id"), Num(10000 + k)));
    assert full == [head] + rest;
    WithoutDistinct(record, "id");
    assert "id" !in Keys(rest);
    ConsDistinct(head, rest);
    assert full[1..] == rest;
  }

  /**
   * An insert statement lists as many columns as it binds values and has as
   * many `?` placeholders as values; the value bound in each position is the
   * record's field named by the column in that position.
   */
  lemma InsertStatementAligned(tableName: string, record: Record, k: int)
    requires DistinctKeys(record) && IsRandomDraw(k)
    ensures var full := WithGeneratedId(record, k);
      var s := InsertStatement(tableName, record, k);
      && |Keys(full)| == |s.params| == |record| + (if "id" in Keys(record) then 0 else 1)
      && Occurrences('?', Placeholders(|s.params|)) == |s.params|
      && forall i :: 0 <= i < |s.params| ==> Lookup(full, Keys(full)[i]) == Some(s.params[i])
  {
    var full := WithGeneratedId(record, k);
    GeneratedIdFirst(record, k);
    PlaceholderCount(|Values(full)|);
    WithoutSize(record, "id");
    forall i | 0 <= i < |full| ensures Lookup(full, Keys(full)[i]) == Some(Values(full)[i]) {
      KeysBindValues(full, i);
    }
  }

  /** With distinct keys, leaving out a key shortens the object by one exactly when the key is present. */
  lemma {:induction false} WithoutSize<V>(o: Obj<V>, k: string)
    requires DistinctKeys(o)
    ensures |Without(o, k)| == |o| - (if k in Keys(o) then 1 else 0)
    decreases |o|
  {
    if o != [] {
      DistinctTail(o);
      WithoutSize(o[1..], k);
      assert Keys(o) == [o[0].0] + Keys(o[1..]);
    }
  }

  // ---------------------------------------------------------------------------
  // update

  function SetEntries(columns: Record): seq<string>
  {
    seq(|columns|, i requires 0 <= i < |columns| => columns[i].0 + " = ?")
  }

  /** `const { id, ...cols } = update`, then `UPDATE t SET k = ?, ... WHERE id = ${id}`. */
  function UpdateStatement(tableName: string, update: Record): RunStatement
  {
    var id := Get(update, "id");
    var cols := Without(update, "id");
    Run("UPDATE " + tableName + " SET " + Join(", ", SetEntries(cols)) + " WHERE id = " + Interpolate(id),
        Values(cols))
  }

  function UpdateStatements(tableName: string, updates: seq<Record>): (stmts: seq<RunStatement>)
    ensures |stmts| == |updates|
  {
    seq(|updates|, i requires 0 <= i < |updates| => UpdateStatement(tableName, updates[i]))
  }

  /**
   * An update statement targets the element's own id and sets every other
   * field: one `key = ?` per field but `id`, and the value bound at each
   * position is the element's value of the key set there.
   */
  lemma UpdateStatementAligned(tableName: string, update: Record)
    requires DistinctKeys(update)
    ensures var cols := Without(update, "id");
      var s := UpdateStatement(tableName, update);
      && |SetEntries(cols)| == |s.params| == |update| - (if "id" in Keys(update) then 1 else 0)
      && "id" !in Keys(cols)
      && (forall i :: 0 <= i < |s.params| ==>
            SetEntries(cols)[i] == Keys(cols)[i] + " = ?" && Keys(cols)[i] != "id"
            && Lookup(update, Keys(cols)[i]) == Some(s.params[i]))
      && s.sql == "UPDATE " + tableName + " SET " + Join(", ", SetEntries(cols)) + " WHERE id = " + Interpolate(Get(update, "id"))
  {
    var cols := Without(update, "id");
    WithoutDistinct(update, "id");
    WithoutSize(update, "id");
    forall i | 0 <= i < |cols|
      ensures Keys(cols)[i] != "id" && Lookup(update, Keys(cols)[i]) == Some(Values(cols)[i])
    {
      KeysBindValues(cols, i);
    }
  }

  // ---------------------------------------------------------------------------
  // delete

  /** `DELETE FROM t WHERE id = ${id}`, with no bound parameters. */
  function DeleteStatement(tableName: string, id: Value): RunStatement
  {
    Run("DELETE FROM " + tableName + " WHERE id = " + Interpolate(id), [])
  }

  function DeleteStatements(tableName: string, ids: seq<Value>): (stmts: seq<RunStatement>)
    ensures |stmts| == |ids|
  {
    seq(|ids|, i requires 0 <= i < |ids| => DeleteStatement(tableName, ids[i]))
  }

  // ---------------------------------------------------------------------------
  // combineAllTables

  const TablesQuery: string := "SELECT name FROM sqlite_master WHERE type = 'table'"

  /** `SELECT * FROM ${table}` */
  function DumpQuery(table: string): string
  {
    "SELECT * FROM " + table
  }
}
