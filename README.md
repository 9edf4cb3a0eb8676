# easy-db data-access layer, modelled in Dafny

This project models `EasyDB`, the data-access class of easy-db, and its
type-tag helper `getDataType` (`lib/index.js`). EasyDB holds one sqlite
connection. Each operation turns loosely shaped JavaScript arguments into SQL
text and bound parameters, sends them to sqlite, and normalises the outcome
into a small result object:

- `createTable` gives `{created}` or `{created: false, err}`;
- `select` gives `{data}` or `{data: null, err}`;
- `insert` gives `{insertedIds}` or `{lastID: null, err}`;
- `update` gives `{changes}` or `{changes: 0, err}`;
- `delete` gives `{deleted}` or `{deleted: 0, err}`;
- `combineAllTables` gives an object from table name to rows, and throws on failure.

Files and modules:

- `wrappers.dfy` (`Wrappers`): `Option` and `Result`.
- `js.dfy` (`Js`): the JavaScript the code relies on.
  - Scalar values, and the text a template literal substitutes for one.
  - Objects as ordered lists of own properties.
  - Object spread `{ id, ...record }`, object rest `{ id, ...cols }` and property assignment.
  - `join`, `Array(n).fill`, and the "lone value or array" argument.
- `sql.dfy` (`Sql`): `getDataType` and every statement EasyDB builds.
  - `BuildColumns` is the `createTable` loop.
  - Its reference definition is `ColumnDefs`.
- `results.dfy` (`Results`): how replies become results.
  - `Promise.all` is `Settle`.
  - The `changes` reduce is `FoldChanges`; its reference sum is `SumChanges`.
  - The `forEach` that collects ids is `CollectIds`.
  - The `select` row-count collapse is `Collapse`.
  - One function per result shape.
- `easydb.dfy` (`EasyDb`): the `EasyDB` class.
  - The sqlite database is a `Store`.
  - A `Store` is the pair of answers `db.run` and `db.all` give to a statement.
  - Each answer depends on the history of statements received before.
  - `dbPromise` is null until `Connect`; after that it holds what opening the file settled to.
  - The field `log` holds every statement the database has received, in order.
  - Each method states its result and its new `log` through the functions of the other modules.

Where the code's behaviour is easy to misread (the model follows the code):

- The generated id is `Math.floor(Math.random() * 90000) + 10000`. It lies in [10000, 99999], both ends included.
- A caller's own `id` overrides the generated one, and `id` always stays the first column.
- `update` and `delete` take no filter argument.
  - `update` targets `WHERE id = ${id}` with the element's own `id`.
  - If the element has no `id`, the text is `id = undefined`.
- `select` has no "single result" flag.
  - More than one row gives the array.
  - One row gives the bare row.
  - No rows gives `undefined`.
- Filter conditions are pasted in unquoted.
  - The array of conditions becomes text the way JavaScript converts arrays, joined with `,`, not `AND`.
  - An empty filter object still produces `WHERE ` with nothing after it.
- `createTable` with no columns leaves the id column's trailing `, ` in place. The statement then reads `(id INTEGER PRIMARY KEY, )`.
- Before `connect`, `dbPromise` is null: each operation that sends a statement fails with the TypeError of calling `run`/`all` on null (`NoConnection`). But an empty batch calls nothing. So `insert([])`, `update([])` and `delete([])` succeed even then (`UnconnectedBatch`).
- A batch's statements are all issued, in input order, before any reply is awaited. So a failure does not stop the others. The reported error is that of the first failed statement.
- `combineAllTables` catches nothing: its errors are returned as `Err`, the model's form of a throw.

Bits of the multi-line SQL template literals that are only layout (newlines, indentation) are written as single spaces. The `createTable` text is exact.

## Model

| member | source | states |
|---|---|---|
| `Sql.GetDataType` | lib/index.js:8-22 | The result is one of NULL, VARCHAR, INTEGER, REAL, BLOB, never empty. NULL, INTEGER, REAL and BLOB come exactly from the tags `''`, `'number'`, `'float'`, `'blob'`. Every other value, non-strings included, maps to VARCHAR. |
| `Sql.BuildColumns` | lib/index.js:48-53 | The loop that appends `name TYPE` plus `', '` (or `''` after the last index) yields exactly `id INTEGER PRIMARY KEY, ` followed by the entries joined with `, `. |
| `Sql.ColumnDefs` | lib/index.js:48-53 | The reference text of the column list: the id column, then every `name TYPE` joined by `, `. `BuildColumns` is proved to build it, and `ColumnDefsSnoc` states how it grows column by column. |
| `Sql.CreateTableSql` | lib/index.js:55 | `CREATE TABLE name (columns)`, sent with no bound values. The `CreateTable` row states its use. |
| `Sql.ColumnDefsSnoc` | lib/index.js:50-53 | Adding a column appends its `name TYPE` at the end, after `, ` when there was an earlier column. So entries keep insertion order with no separator after the last. |
| `EasyDb.EasyDB.CreateTable` | lib/index.js:45-62 | Sends `CREATE TABLE name (columns)` with the column text above. Returns `{created: true}` on success, and `{created: false, err}` on a failed open or statement. Nothing is sent when the connection failed. |
| `Results.CreatedOf` | lib/index.js:55-61 | `created` is true exactly when the statement succeeded, and exactly when `err` is absent. A failure carries the statement's error. |
| `Sql.SelectWhereOnlyWithFilters` | lib/index.js:94-106 | With no filter object there is no WHERE part. An empty filter object yields the bare ` WHERE `. |
| `Sql.SelectFilterSnoc` | lib/index.js:96-105 | A further filter entry, of any value, appends `key = ${value}` to the statement. The `,` comes before it only when an earlier condition exists. So conditions appear in entry order, the first straight after ` WHERE `, and values are printed unquoted as template literals print them. |
| `Sql.WherePartSnoc` | lib/index.js:96-105 | The WHERE part grows the same way: one more entry adds its condition, after a `,` only when there was an earlier one. |
| `Sql.SelectSql` | lib/index.js:102-106 | The SELECT text: `SELECT` with the columns joined by `, `, `FROM` the table, then the WHERE part. `SelectWhereOnlyWithFilters` and `SelectFilterSnoc` state its shape. |
| `Sql.WherePart` | lib/index.js:94-105 | Empty with no filter object. Otherwise ` WHERE ` and the conditions joined by `,`, even when there are none. `SelectFilterSnoc` states it condition by condition. |
| `Results.Collapse` | lib/index.js:108 | Gives the whole row array exactly when more than one row came back, the single row when exactly one did, and `undefined` exactly when none did. Never null. |
| `Results.CollapseRewrap` | example/resolvers.js:9-11 | For a non-empty result, re-wrapping a lone row into an array, as the `users` resolver does, gives back exactly the rows sqlite returned. |
| `Results.SelectedOf` | lib/index.js:108-111 | A successful query gives `data` = the collapsed rows and no `err`. A failed one gives `{data: null, err}` with that error. |
| `EasyDb.EasyDB.Select` | lib/index.js:90-113 | Sends `SELECT columns FROM table [WHERE ...]` through `db.all`. The result is as above; a failed open gives `{data: null, err}`. |
| `Js.Spread` | lib/index.js:129 | `{ ...target, ...source }`: the source's properties assigned onto the target one by one. `SpreadOntoLeading` and `LeadingIdSpread` state its result for the insert's `{ id, ...record }`. |
| `Js.SpreadOntoLeading` | lib/index.js:129 | Spreading distinct-keyed properties onto an object that starts with `k` keeps `k` in front. `k` takes the source's value when the source has one and keeps its own otherwise. The source's other properties follow in their order. |
| `Sql.WithGeneratedId` | lib/index.js:129 | `{ id: 10000 + k, ...record }` for the supplied draw `k`. `GeneratedIdFirst` states its contents. |
| `Js.LeadingIdSpread` | lib/index.js:129 | Spreading a record onto `{ id: x }` puts `id` first, with the record's own `id` if it has one and `x` otherwise. The record's other fields follow in order. |
| `Sql.GeneratedIdFirst` | lib/index.js:129 | An inserted record starts with `id`. Without a caller-supplied `id` it is 10000 + k, within [10000, 99999]. Its other fields follow and its keys stay distinct. |
| `Sql.Placeholders` | lib/index.js:133 | `Array(n).fill('?').join(',')`. `PlaceholderCount` states its contents. |
| `Sql.PlaceholderCount` | lib/index.js:133 | `Array(n).fill('?').join(',')` holds exactly n question marks and is 2n-1 characters long (0 for n = 0). |
| `Sql.InsertSql` | lib/index.js:131-137 | `INSERT INTO t (keys joined by ,) VALUES (one ? per value)`. `PlaceholderCount` and `InsertStatementAligned` state the counts and pairing. |
| `Sql.InsertStatement` | lib/index.js:129-139 | One record's `db.run`: the INSERT text of the record with its generated id, bound to that record's values. `GeneratedIdFirst` and `InsertStatementAligned` state its contents. |
| `Sql.InsertStatementAligned` | lib/index.js:129-139 | Listed columns, bound values and `?` marks are equal in number: the record's field count, plus one when `id` was generated. The i-th bound value is the record's value for the i-th listed column. |
| `Results.Settle` | lib/index.js:127-141 | `Promise.all` succeeds exactly when every statement did, giving each reply's value in order. Otherwise it throws the error of a failed statement with no failure before it. |
| `Results.CollectIds` | lib/index.js:143 | The `forEach` push yields one id per statement result, the i-th being the i-th `lastID`. |
| `Results.InsertedOf` | lib/index.js:143-150 | When every statement succeeded: `insertedIds` with one id per statement, the i-th being its `lastID`. Otherwise `{lastID: null, err}` with the first failure's error and no `insertedIds`. |
| `EasyDb.InsertReportsEachRecord` | lib/index.js:125-147 | A successful insert reports exactly one id per record, in record order. Each id is the `lastID` sqlite gave that record's statement, run after the statements of the earlier records. |
| `EasyDb.EasyDB.Insert` | lib/index.js:121-152 | Wraps a lone record into an array. Sends one `INSERT` per record, in order, with its generated id. Returns the result above, or `{lastID: null, err}` when the open failed. |
| `Sql.UpdateStatementAligned` | lib/index.js:169-177 | An update sets every field but `id`, as one `key = ?` each, joined by `, `. The value bound at each position is the element's value for that key. The statement targets `WHERE id = ${the element's id}`. |
| `Results.FoldChanges` | lib/index.js:181-183 | The `reduce` over `changes`, a left fold starting from 0. `FoldIsSum` states its meaning. |
| `Results.FoldIsSum` | lib/index.js:181-183 | The left fold `reduce((acc, next) => acc + next.changes, 0)` equals the sum of all statements' `changes`. |
| `Results.SumChangesAppend` | lib/index.js:181-183 | The changes total of two consecutive parts of a batch is the sum of their totals. |
| `Results.ChangedOf` | lib/index.js:181-190 | When every statement succeeded: `changes` is the sum of their `changes` and there is no `err`. Otherwise `{changes: 0, err}` with the first failure's error. |
| `Results.ChangedAppend` | lib/index.js:181-187 | A batch whose two parts succeed succeeds, and reports the sum of the parts' `changes`. |
| `Results.EmptyBatch` | lib/index.js:181-183 | An empty update, delete or insert batch reports 0 changes, 0 deleted, or no ids, without error. |
| `Sql.UpdateStatement` | lib/index.js:169-177 | `UPDATE t SET k = ?, ... WHERE id = ${id}` bound to the element's non-`id` values. `UpdateStatementAligned` states its contents. |
| `EasyDb.EasyDB.Update` | lib/index.js:161-192 | Wraps a lone update into an array and sends one `UPDATE` per element, in order. Returns the result above, or `{changes: 0, err}` when the open failed. |
| `Results.DeletedOf` | lib/index.js:215-224 | When every statement succeeded: `deleted` is the sum of their `changes`. Otherwise `{deleted: 0, err}` with the first failure's error. |
| `Sql.DeleteStatement` | lib/index.js:208-211 | `DELETE FROM t WHERE id = ${id}` with no bound values. `IntegerRoundTrip` shows distinct integer ids give distinct statements. |
| `EasyDb.EasyDB.Delete` | lib/index.js:200-226 | Wraps a lone id into an array and sends one `DELETE ... WHERE id = ${id}` per id, in order, with no bound values. Returns the result above, or `{deleted: 0, err}` when the open failed. |
| `EasyDb.BatchReplies` | lib/index.js:127-141 | The replies to a batch issued in input order (the `map` fan-out of lines 127-141, 167-179 and 206-213). There is one reply per statement; `BatchReplyAt` states which one. |
| `EasyDb.BatchReplyAt` | lib/index.js:167-179 | The i-th statement of a batch gets the reply the database gives after the i statements before it. |
| `EasyDb.EasyDB.RunBatch` | lib/index.js:167-179 | Issues every statement of a batch in order. Returns their replies and extends `log` by exactly those statements, or by none on a null handle. |
| `EasyDb.UnconnectedBatch` | lib/index.js:163-190 | With a null handle no statement reaches a database. A non-empty batch reports the null-handle error with 0 changes/deleted or `lastID: null`; an empty batch succeeds. |
| `EasyDb.EasyDB.CombineAllTables` | lib/index.js:64-81 | Lists the tables, then reads each whole, one after another, stopping at the first failure. Returns the name-to-rows object, or the error thrown by the open, the listing or a read. |
| `EasyDb.DumpTables` | lib/index.js:76-78 | When all reads succeed there is one row set per table name. The statement log only grows. |
| `EasyDb.Reads` | lib/index.js:76-78 | The reads a dump sends: one `SELECT * FROM name` per table, in listing order. |
| `EasyDb.DumpLog` | lib/index.js:76-78 | A dump that succeeds sends the database exactly one read per table, in listing order, and nothing else. |
| `EasyDb.DumpAt` | lib/index.js:77 | In a dump that succeeds, the i-th row set is `db.all`'s answer to `SELECT * FROM names[i]`, given after the reads of the tables before it. |
| `Sql.DumpQuery` | lib/index.js:77 | `SELECT * FROM table`. The listing query of lines 67-70 is the constant `Sql.TablesQuery`. |
| `EasyDb.DumpStopsAtFailure` | lib/index.js:76-78 | Once a table read has failed, no later table is read. |
| `EasyDb.TableNames` | lib/index.js:72 | `result.map(table => table.name)`: one name per listed row, in order, as the later template literal prints it. |
| `EasyDb.Combine` | lib/index.js:74-80 | `combinedData[table] = rows` for each table in turn, starting from `{}`. `CombineKeys` and `CombineByName` state its contents. |
| `EasyDb.CombineKeys` | lib/index.js:74-80 | With distinct table names, the snapshot's keys are exactly those names, in listing order. |
| `EasyDb.CombineByName` | lib/index.js:74-80 | With distinct table names, each key holds the rows read from that table. |
| `Js.Lookup` | lib/index.js:169 | The own property `k` of an object, found exactly when `k` is among its keys. |
| `Js.Get` | lib/index.js:169 | `o[k]`: the property's value, or `undefined` when it is missing. This is the `id` destructured at line 169. |
| `Js.Keys` | lib/index.js:132 | `Object.keys`, in property order. `KeysBindValues` pairs it with `Object.values`. |
| `Js.Values` | lib/index.js:131 | `Object.values`, in property order (also line 170). `KeysBindValues` pairs it with `Object.keys`. |
| `Js.Join` | lib/index.js:132 | `parts.join(sep)` (also lines 93, 133 and 171). `JoinSnoc` states that one more part appends the separator and that part. |
| `Js.JoinSnoc` | lib/index.js:132 | Joining one more part onto a non-empty list appends the separator and that part. |
| `Js.Fill` | lib/index.js:133 | `Array(n).fill(s)`: n copies of `s`. `PlaceholderCount` counts the result once joined. |
| `Js.Assign` | lib/index.js:77 | `o[k] = v` makes `k` hold `v` and leaves every other property alone. The key list is unchanged when `k` was present; otherwise `k` is appended at the end. |
| `Js.Without` | lib/index.js:169 | The rest of `{ id, ...cols }` has no `id`, every other property unchanged, and only properties of the original. |
| `Js.WithoutAbsent` | lib/index.js:169 | When the object has no `id`, its rest is the object itself. |
| `Js.WithoutAppend` | lib/index.js:169 | Removing a key distributes over concatenation. So the remaining properties keep their relative order. |
| `Js.KeysBindValues` | lib/index.js:131-132 | Reading `Object.keys` and `Object.values` side by side pairs every key with its own value. |
| `Js.NatToDecimal` | lib/index.js:176 | An interpolated natural number is a non-empty string of decimal digits with no leading zero. |
| `Js.DecimalRoundTrip` | lib/index.js:176 | Reading back the digits of an interpolated natural number gives the number. |
| `Js.Interpolate` | lib/index.js:98 | `${v}`: `undefined`, `null`, `true`/`false`, a number's decimal numeral with `-` when negative, or a string verbatim, with no quoting. `IntegerRoundTrip` states the numeral reads back. |
| `Js.AsArray` | lib/index.js:125 | `Array.isArray(x) ? x : [x]` (also lines 165 and 204): a lone value becomes a one-element batch, and an array is used as given. |
| `Js.IntegerRoundTrip` | lib/index.js:210 | Reading back an interpolated integer id, sign included, gives the same integer, so distinct ids give distinct WHERE texts. |
| `EasyDb.Awaited` | lib/index.js:47 | `await this.dbPromise`, as in every operation (also lines 65, 92, 123, 163 and 202). A null promise gives a null handle, an opened database gives its store, and a failed open throws its error. |
| `EasyDb.EasyDB.Connect` | lib/index.js:34-37 | `dbPromise` holds the outcome of opening the database. The statement log is untouched. |
| `EasyDb.EasyDB.Execute` | lib/index.js:135-139 | `db.run`: the reply the database gives after the statements sent so far. The log grows by the statement, or stays as it was on a null handle. |
| `EasyDb.EasyDB.Fetch` | lib/index.js:102-106 | `db.all`: the rows or error after the statements sent so far. The log grows by the query, or stays as it was on a null handle. |
| `EasyDb.EasyDB.constructor` | lib/index.js:26-28 | A new instance has a null `dbPromise` and no statements sent. |

## Left out

- The sqlite engine (SQL parsing, execution, constraints). It is foreign code. A `Store` is any pair of answer functions over the statement history.
- `connect`'s file path (`process.cwd()`) and the opening itself. `Connect` takes the outcome of the open as an argument.
- Every `console.log` line. They are output only and do not affect results.
- `Promise.all` concurrency. Statements are issued in input order, as in the code. The model answers them in that order too.
- With several failures the code reports the first to settle in time; the model reports the first in input order.
- `Math.random`. `Insert` takes `draws`, one integer in [0, 90000) per record, standing for `Math.floor(Math.random() * 90000)`.
- `Interpolate` on numbers: non-integer numbers, integers beyond ±2^53 (JavaScript holds them approximately and prints at most 17 significant digits), and numbers of 10^21 or more (exponent form). `Num` holds any integer and prints it in full decimal, which matches JavaScript only up to ±2^53.
- Objects and arrays as field, filter or id values. The model's values are scalars.
- JavaScript's ordering of integer-like property keys ahead of the others, and the special `__proto__` key. Objects keep the order in which they are given.
- Filters given as something other than an object, such as a string, whose characters `Object.entries` would list. `filters` is an object or absent (`None` stands for any falsy value).
- `tableColumns` elements that are not strings in `select`.
- Badly shaped top-level arguments, whose TypeError the `catch` blocks turn into the error result. This covers `createTable` with `tableColumns` null or undefined (`Object.entries` throws at lib/index.js:50, giving `{created: false, err}`). It also covers `select` with a `tableColumns` that is not an array (`.join` throws at line 93, giving `{data: null, err}`). And it covers `update` with a null or undefined element (the destructuring at line 169 throws, giving `{changes: 0, err}`). The argument types `Obj<Value>`, `seq<string>` and `OneOrMany<Record>` cannot express these inputs, and `Error` has no variant for them.
- `CollapseRewrap` covers non-empty results only. For zero rows the `users` resolver (example/resolvers.js:10) re-wraps the `undefined` data into the one-element list `[undefined]`, not `[]`. That list is not a list of records in the model.
- Calling `connect` again on a live instance. `Connect` simply replaces the handle.
- `lib/cli.js` (interactive drop-table prompt), `src/index.js` (HTTP/GraphQL server), `src/typedefs.js` and `example/typedefs.js` (schema strings), and `example/setup.js`. They are terminal, network or call-site glue with no logic of this layer. `example/resolvers.js` is used only for the array re-wrap of results (`CollapseRewrap`).
