/**
 * The EasyDB class: one connection handle to a sqlite database, and the
 * operations that build statements from their arguments, send them, and
 * normalise what comes back into result objects.
 */
module EasyDb {
  import opened Wrappers
  import opened Js
  import opened Sql
  import opened Results

  /**
   * The database behind an open connection. The engine is foreign code, so it
   * is seen only through its answers: what `db.run` and `db.all` resolve to
   * or throw for a statement, given every statement the database has received
   * before it.
   */
  datatype Store = Store(
    run: (seq<Statement>, string, seq<Value>) -> Reply,
    all: (seq<Statement>, string) -> Result<seq<Record>, Error>)

  /** `this.dbPromise`: null until `connect`, then the promise that opening the file settles to. */
  datatype DbPromise = NullPromise | Opening(settlesTo: Result<Store, Error>)

  /** `await this.dbPromise`: null, the open database, or the opening error, thrown. */
  function Awaited(p: DbPromise): Result<Option<Store>, Error>
  {
    match p
    case NullPromise => Ok(None)
    case Opening(Ok(store)) => Ok(Some(store))
    case Opening(Err(e)) => Err(e)
  }

  /** What `db.run(sql, params)` resolves to; on a null `db` the call throws. */
  function RunReply(db: Option<Store>, log: seq<Statement>, s: RunStatement): Reply
  {
    match db
    case None => Err(NoConnection)
    case Some(store) => store.run(log, s.sql, s.params)
  }

  /** What `db.all(sql)` resolves to; on a null `db` the call throws. */
  function AllReply(db: Option<Store>, log: seq<Statement>, sql: string): Result<seq<Record>, Error>
  {
    match db
    case None => Err(NoConnection)
    case Some(store) => store.all(log, sql)
  }

  /** The statements that reach the database: all of them, or none on a null handle. */
  function Issued(db: Option<Store>, stmts: seq<Statement>): seq<Statement>
  {
    if db.Some? then stmts else []
  }

  /**
   * The replies to a batch whose statements are issued in input order
   * (the `map` callbacks call `db.run` before any reply arrives); each
   * statement meets the database as the statements before it left it.
   */
  function BatchReplies(db: Option<Store>, log: seq<Statement>, stmts: seq<RunStatement>): (replies: seq<Reply>)
    ensures |replies| == |stmts|
    decreases |stmts|
  {
    if stmts == [] then []
    else
      var n := |stmts| - 1;
      BatchReplies(db, log, stmts[..n]) + [RunReply(db, log + Issued(db, stmts[..n]), stmts[n])]
  }

  /** Issuing one more statement of a batch adds its reply and, on a live handle, the statement itself. */
  lemma BatchStep(db: Option<Store>, log: seq<Statement>, stmts: seq<RunStatement>, i: nat)
    requires i < |stmts|
    ensures BatchReplies(db, log, stmts[..i + 1])
         == BatchReplies(db, log, stmts[..i]) + [RunReply(db, log + Issued(db, stmts[..i]), stmts[i])]
    ensures log + Issued(db, stmts[..i + 1]) == log + Issued(db, stmts[..i]) + Issued(db, [stmts[i]])
  {
    assert stmts[..i + 1][..i] == stmts[..i];
    assert stmts[..i + 1] == stmts[..i] + [stmts[i]];
  }

  /** The reply to the i-th statement of a batch is the one it gets after the i statements before it. */
  lemma {:induction false} BatchReplyAt(db: Option<Store>, log: seq<Statement>, stmts: seq<RunStatement>, i: nat)
    requires i < |stmts|
    ensures BatchReplies(db, log, stmts)[i] == RunReply(db, log + Issued(db, stmts[..i]), stmts[i])
    decreases |stmts|
  {
    var n := |stmts| - 1;
    if i < n {
      BatchReplyAt(db, log, stmts[..n], i);
      assert stmts[..n][..i] == stmts[..i];
    }
  }

  /**
   * Without a connection no statement of a batch reaches a database: a
   * non-empty batch reports the TypeError of calling `run` on null, while an
   * empty one calls nothing and succeeds.
   */
  lemma UnconnectedBatch(log: seq<Statement>, stmts: seq<RunStatement>)
    ensures var replies := BatchReplies(None, log, stmts);
      && ChangedOf(replies) == (if stmts == [] then Changed(0, None) else Changed(0, Some(NoConnection)))
      && DeletedOf(replies) == (if stmts == [] then Deleted(0, None) else Deleted(0, Some(NoConnection)))
      && InsertedOf(replies) == (if stmts == [] then InsertedIds([]) else LastIdNull(NoConnection))
  {
    var replies := BatchReplies(None, log, stmts);
    forall i | 0 <= i < |stmts| ensures replies[i] == Err(NoConnection) {
      BatchReplyAt(None, log, stmts, i);
    }
    if stmts != [] {
      assert !replies[0].Ok?;
    }
  }

  /**
   * An insert that succeeds reports one id per record, in record order: the
   * i-th is the `lastID` sqlite gave the i-th record's statement.
   */
  lemma InsertReportsEachRecord(db: Option<Store>, log: seq<Statement>, tableName: string, records: seq<Record>, draws: seq<int>)
    requires |draws| == |records|
    ensures var stmts := InsertStatements(tableName, records, draws);
      var r := InsertedOf(BatchReplies(db, log, stmts));
      r.InsertedIds? ==>
        |r.insertedIds| == |records| &&
        forall i :: 0 <= i < |records| ==>
          var reply := RunReply(db, log + Issued(db, stmts[..i]), stmts[i]);
          reply.Ok? && reply.value.lastID == r.insertedIds[i]
  {
    var stmts := InsertStatements(tableName, records, draws);
    forall i | 0 <= i < |records| ensures BatchReplies(db, log, stmts)[i] == RunReply(db, log + Issued(db, stmts[..i]), stmts[i]) {
      BatchReplyAt(db, log, stmts, i);
    }
  }

  /**
   * Dumping the tables one after another (each `await db.all` finishes before
   * the next starts), stopping at the first that throws; also the statements
   * the database has received afterwards.
   */
  function DumpTables(store: Store, log: seq<Statement>, names: seq<string>): (r: (Result<seq<seq<Record>>, Error>, seq<Statement>))
    ensures r.0.Ok? ==> |r.0.value| == |names|
    ensures log <= r.1
    decreases |names|
  {
    if names == [] then (Ok([]), log)
    else
      var n := |names| - 1;
      var (earlier, log') := DumpTables(store, log, names[..n]);
      if earlier.Err? then (earlier, log')
      else match store.all(log', DumpQuery(names[n]))
        case Err(e) => (Err(e), log' + [All(DumpQuery(names[n]))])
        case Ok(rows) => (Ok(earlier.value + [rows]), log' + [All(DumpQuery(names[n]))])
  }

  /** Once a dump has thrown, the later tables are never read. */
  lemma {:induction false} DumpStopsAtFailure(store: Store, log: seq<Statement>, names: seq<string>, k: nat)
    requires k <= |names| && DumpTables(store, log, names[..k]).0.Err?
    ensures DumpTables(store, log, names) == DumpTables(store, log, names[..k])
    decreases |names| - k
  {
    if k < |names| {
      var n := |names| - 1;
      assert names[..n][..k] == names[..k];
      DumpStopsAtFailure(store, log, names[..n], k);
    } else {
      assert names[..k] == names;
    }
  }

  /** The table reads of a dump, one `SELECT * FROM name` per table, in listing order. */
  function Reads(names: seq<string>): (stmts: seq<Statement>)
    ensures |stmts| == |names|
    ensures forall j :: 0 <= j < |names| ==> stmts[j] == All(DumpQuery(names[j]))
  {
    seq(|names|, j requires 0 <= j < |names| => All(DumpQuery(names[j])))
  }

  /** A dump that succeeds sends the database exactly one read per table, in order. */
  lemma {:induction false} DumpLog(store: Store, log: seq<Statement>, names: seq<string>)
    requires DumpTables(store, log, names).0.Ok?
    ensures DumpTables(store, log, names).1 == log + Reads(names)
    decreases |names|
  {
    if names != [] {
      var n := |names| - 1;
      DumpLog(store, log, names[..n]);
      assert Reads(names) == Reads(names[..n]) + [All(DumpQuery(names[n]))];
    }
  }

  /**
   * In a dump that succeeds, the i-th row set is what `db.all` answered to
   * `SELECT * FROM names[i]`, after the reads of the tables before it.
   */
  lemma {:induction false} DumpAt(store: Store, log: seq<Statement>, names: seq<string>, i: nat)
    requires DumpTables(store, log, names).0.Ok?
    requires i < |names|
    ensures store.all(log + Reads(names[..i]), DumpQuery(names[i]))
         == Ok(DumpTables(store, log, names).0.value[i])
    decreases |names|
  {
    var n := |names| - 1;
    var front := names[..n];
    var earlier := DumpTables(store, log, front).0;
    assert earlier.Ok?;
    if i < n {
      DumpAt(store, log, front, i);
      assert front[..i] == names[..i];
      assert front[i] == names[i];
    } else {
      DumpLog(store, log, front);
    }
  }

  /** `result.map(table => table.name)`, each name as it is turned into text. */
  function TableNames(rows: seq<Record>): seq<string>
  {
    seq(|rows|, i requires 0 <= i < |rows| => Interpolate(Get(rows[i], "name")))
  }

  /** `combinedData[table] = rows` for each table in turn, starting from `{}`. */
  function Combine(names: seq<string>, dumps: seq<seq<Record>>): Obj<seq<Record>>
    requires |names| == |dumps|
    decreases |names|
  {
    if names == [] then []
    else
      var n := |names| - 1;
      Assign(Combine(names[..n], dumps[..n]), names[n], dumps[n])
  }

  predicate DistinctNames(names: seq<string>)
  {
    forall i, j :: 0 <= i < j < |names| ==> names[i] != names[j]
  }

  /** Dropping the last of distinct names keeps them distinct, and the last is not among the rest. */
  lemma DistinctFront(names: seq<string>)
    requires names != [] && DistinctNames(names)
    ensures DistinctNames(names[..|names| - 1])
    ensures names[|names| - 1] !in names[..|names| - 1]
  {
    var n := |names| - 1;
    var front := names[..n];
    forall i, j | 0 <= i < j < |front| ensures front[i] != front[j] {
      assert front[i] == names[i] && front[j] == names[j];
    }
    forall i | 0 <= i < n ensures front[i] != names[n] {
      assert front[i] == names[i];
    }
  }

  lemma FrontLast<T>(s: seq<T>)
    requires s != []
    ensures s[..|s| - 1] + [s[|s| - 1]] == s
  {
  }

  /** Assigning a key the snapshot lacks appends it to the key list. */
  lemma AssignKeysFresh(o: Obj<seq<Record>>, k: string, v: seq<Record>)
    requires k !in Keys(o)
    ensures Keys(Assign(o, k, v)) == Keys(o) + [k]
  {
  }

  /** The snapshot's keys are the table names, in listing order, when no name repeats. */
  lemma {:induction false} CombineKeys(names: seq<string>, dumps: seq<seq<Record>>)
    requires |names| == |dumps| && DistinctNames(names)
    ensures Keys(Combine(names, dumps)) == names
    decreases |names|
  {
    if names != [] {
      var n := |names| - 1;
      var front := names[..n];
      DistinctFront(names);
      CombineKeys(front, dumps[..n]);
      var prev := Combine(front, dumps[..n]);
      assert Combine(names, dumps) == Assign(prev, names[n], dumps[n]);
      AssignKeysFresh(prev, names[n], dumps[n]);
      FrontLast(names);
    }
  }

  /** With distinct table names each key of the snapshot holds the rows read from that table. */
  lemma {:induction false} CombineByName(names: seq<string>, dumps: seq<seq<Record>>, i: nat)
    requires |names| == |dumps| && DistinctNames(names)
    requires i < |names|
    ensures Lookup(Combine(names, dumps), names[i]) == Some(dumps[i])
    decreases |names|
  {
    var n := |names| - 1;
    var front, frontDumps := names[..n], dumps[..n];
    var prev := Combine(front, frontDumps);
    assert Combine(names, dumps) == Assign(prev, names[n], dumps[n]);
    if i < n {
      DistinctFront(names);
      CombineByName(front, frontDumps, i);
      assert front[i] == names[i] && frontDumps[i] == dumps[i];
      assert names[i] != names[n];
    }
  }

  class EasyDB {
    var dbPromise: DbPromise
    /** Every statement the database has received, oldest first. */
    var log: seq<Statement>

    constructor()
      ensures dbPromise == NullPromise && log == []
    {
      dbPromise := NullPromise;
      log := [];
    }

    /** `connect`: stores the promise of the opened database file. */
    method Connect(opening: Result<Store, Error>)
      modifies this
      ensures dbPromise == Opening(opening) && log == old(log)
    {
      dbPromise := Opening(opening);
    }

    /** `db.run(sql, params)` */
    method Execute(db: Option<Store>, s: RunStatement) returns (reply: Reply)
      modifies this`log
      ensures reply == RunReply(db, old(log), s)
      ensures log == old(log) + Issued(db, [s])
    {
      reply := RunReply(db, log, s);
      log := log + Issued(db, [s]);
    }

    /** `db.all(sql)` */
    method Fetch(db: Option<Store>, sql: string) returns (reply: Result<seq<Record>, Error>)
      modifies this`log
      ensures reply == AllReply(db, old(log), sql)
      ensures log == old(log) + Issued(db, [All(sql)])
    {
      reply := AllReply(db, log, sql);
      log := log + Issued(db, [All(sql)]);
    }

    /** `Promise.all(items.map(async item => db.run(...)))`: every statement issued, in order. */
    method RunBatch(db: Option<Store>, stmts: seq<RunStatement>) returns (replies: seq<Reply>)
      modifies this`log
      ensures replies == BatchReplies(db, old(log), stmts)
      ensures log == old(log) + Issued(db, stmts)
    {
      replies := [];
      for i := 0 to |stmts|
        invariant replies == BatchReplies(db, old(log), stmts[..i])
        invariant log == old(log) + Issued(db, stmts[..i])
      {
        var reply := Execute(db, stmts[i]);
        BatchStep(db, old(log), stmts, i);
        replies := replies + [reply];
      }
      assert stmts[..|stmts|] == stmts;
    }

    /** `createTable(tableName, tableColumns)` */
    method CreateTable(tableName: string, tableColumns: Obj<Value>) returns (r: Created)
      modifies this`log
      ensures match Awaited(dbPromise)
        case Err(e) => r == Created(false, Some(e)) && log == old(log)
        case Ok(db) =>
          var s := Run(CreateTableSql(tableName, ColumnDefs(tableColumns)), []);
          r == CreatedOf(RunReply(db, old(log), s)) && log == old(log) + Issued(db, [s])
    {
      var awaited := Awaited(dbPromise);
      if awaited.Err? {
        return Created(false, Some(awaited.error));
      }
      var columns := BuildColumns(tableColumns);
      var reply := Execute(awaited.value, Run(CreateTableSql(tableName, columns), []));
      r := CreatedOf(reply);
    }

    /**
     * `combineAllTables()`: lists the tables, then reads each one whole. It does
     * not catch: any error is thrown to the caller, here an `Err`.
     */
    method CombineAllTables() returns (r: Result<Obj<seq<Record>>, Error>)
      modifies this`log
      ensures match Awaited(dbPromise)
        case Err(e) => r == Err(e) && log == old(log)
        case Ok(db) =>
          var listed := AllReply(db, old(log), TablesQuery);
          var afterListing := old(log) + Issued(db, [All(TablesQuery)]);
          if listed.Err? then r == Err(listed.error) && log == afterListing
          else
            var names := TableNames(listed.value);
            var (dumps, afterDumps) := DumpTables(db.value, afterListing, names);
            log == afterDumps && r == (if dumps.Ok? then Ok(Combine(names, dumps.value)) else Err(dumps.error))
    {
      var awaited := Awaited(dbPromise);
      if awaited.Err? {
        return Err(awaited.error);
      }
      var db := awaited.value;
      var result := Fetch(db, TablesQuery);
      if result.Err? {
        return Err(result.error);
      }
      var store := db.value;
      var tables := TableNames(result.value);
      ghost var afterListing := log;
      var combinedData: Obj<seq<Record>> := [];
      ghost var dumps: seq<seq<Record>> := [];
      for i := 0 to |tables|
        invariant DumpTables(store, afterListing, tables[..i]) == (Ok(dumps), log)
        invariant |dumps| == i
        invariant combinedData == Combine(tables[..i], dumps)
      {
        assert tables[..i + 1][..i] == tables[..i];
        var rows := Fetch(db, DumpQuery(tables[i]));
        if rows.Err? {
          assert DumpTables(store, afterListing, tables[..i + 1]) == (Err(rows.error), log);
          DumpStopsAtFailure(store, afterListing, tables, i + 1);
          return Err(rows.error);
        }
        assert (dumps + [rows.value])[..i] == dumps;
        combinedData := Assign(combinedData, tables[i], rows.value);
        dumps := dumps + [rows.value];
      }
      assert tables[..|tables|] == tables;
      r := Ok(combinedData);
    }

    /** `select(tableName, tableColumns, filters)` */
    method Select(tableName: string, tableColumns: seq<string>, filters: Option<Record>) returns (r: Selected)
      modifies this`log
      ensures match Awaited(dbPromise)
        case Err(e) => r == Selected(NullData, Some(e)) && log == old(log)
        case Ok(db) =>
          var sql := SelectSql(tableName, tableColumns, filters);
          r == SelectedOf(AllReply(db, old(log), sql)) && log == old(log) + Issued(db, [All(sql)])
    {
      var awaited := Awaited(dbPromise);
      if awaited.Err? {
        return Selected(NullData, Some(awaited.error));
      }
      var result := Fetch(awaited.value, SelectSql(tableName, tableColumns, filters));
      r := SelectedOf(result);
    }

    /**
     * `insert(tableName, records)`; `draws[i]` stands for the value of
     * `Math.floor(Math.random() * 90000)` drawn for the i-th record.
     */
    method Insert(tableName: string, records: OneOrMany<Record>, draws: seq<int>) returns (r: Inserted)
      requires |draws| == |AsArray(records)|
      requires forall i :: 0 <= i < |draws| ==> IsRandomDraw(draws[i])
      modifies this`log
      ensures match Awaited(dbPromise)
        case Err(e) => r == LastIdNull(e) && log == old(log)
        case Ok(db) =>
          var stmts := InsertStatements(tableName, AsArray(records), draws);
          r == InsertedOf(BatchReplies(db, old(log), stmts)) && log == old(log) + Issued(db, stmts)
    {
      var awaited := Awaited(dbPromise);
      if awaited.Err? {
        return LastIdNull(awaited.error);
      }
      var batch := AsArray(records);
      var replies := RunBatch(awaited.value, InsertStatements(tableName, batch, draws));
      var queryPromise := Settle(replies);
      if queryPromise.Err? {
        return LastIdNull(queryPromise.error);
      }
      var insertedIds := CollectIds(queryPromise.value);
      assert insertedIds == LastIds(queryPromise.value);
      r := InsertedIds(insertedIds);
    }

    /** `update(tableName, updates)`: one statement per element, targeted by the element's `id`. */
    method Update(tableName: string, updates: OneOrMany<Record>) returns (r: Changed)
      modifies this`log
      ensures match Awaited(dbPromise)
        case Err(e) => r == Changed(0, Some(e)) && log == old(log)
        case Ok(db) =>
          var stmts := UpdateStatements(tableName, AsArray(updates));
          r == ChangedOf(BatchReplies(db, old(log), stmts)) && log == old(log) + Issued(db, stmts)
    {
      var awaited := Awaited(dbPromise);
      if awaited.Err? {
        return Changed(0, Some(awaited.error));
      }
      var replies := RunBatch(awaited.value, UpdateStatements(tableName, AsArray(updates)));
      r := ChangedOf(replies);
    }

    /** `delete(tableName, ids)`: one statement per id. */
    method Delete(tableName: string, ids: OneOrMany<Value>) returns (r: Deleted)
      modifies this`log
      ensures match Awaited(dbPromise)
        case Err(e) => r == Deleted(0, Some(e)) && log == old(log)
        case Ok(db) =>
          var stmts := DeleteStatements(tableName, AsArray(ids));
          r == DeletedOf(BatchReplies(db, old(log), stmts)) && log == old(log) + Issued(db, stmts)
    {
      var awaited := Awaited(dbPromise);
      if awaited.Err? {
        return Deleted(0, Some(awaited.error));
      }
      var replies := RunBatch(awaited.value, DeleteStatements(tableName, AsArray(ids)));
      r := DeletedOf(replies);
    }
  }
}
