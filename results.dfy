/**
 * How EasyDB turns what sqlite answers into the objects it returns:
 * `Promise.all` over a batch, the `reduce` that totals `changes`, the
 * `forEach` that collects `lastID`s, the row-count collapse of `select`, and
 * the `{ ..., err }` shape of each failure.
 */
module Results {
  import opened Wrappers
  import opened Js

  /** Why a statement or the connection failed. */
  datatype Error =
    | NoConnection              // `db` is null: calling `run` or `all` on it throws a TypeError
    | SqliteError(message: string)

  /** What `db.run` resolves to: the statement object's `lastID` and `changes`. */
  datatype RunInfo = RunInfo(lastID: int, changes: nat)

  type Reply = Result<RunInfo, Error>

  // ---------------------------------------------------------------------------
  // Promise.all

  /**
   * `await Promise.all(promises)` over already-issued statements: every value,
   * in order, when all of them succeed; otherwise it throws, and the error
   * reported is that of the first failure.
   */
  function Settle<T>(replies: seq<Result<T, Error>>): (r: Result<seq<T>, Error>)
    ensures r.Ok? <==> forall i :: 0 <= i < |replies| ==> replies[i].Ok?
    ensures r.Ok? ==> |r.value| == |replies| && forall i :: 0 <= i < |replies| ==> replies[i] == Ok(r.value[i])
    ensures r.Err? ==> exists i :: 0 <= i < |replies| && replies[i] == Err(r.error)
                         && forall j :: 0 <= j < i ==> replies[j].Ok?
    decreases |replies|
  {
    if replies == [] then Ok([])
    else match replies[0]
      case Err(e) => Err(e)
      case Ok(v) =>
        var rest := Settle(replies[1..]);
        match rest
        case Err(e) =>
          assert exists i :: 1 <= i < |replies| && replies[i] == Err(e) && forall j :: 0 <= j < i ==> replies[j].Ok? by {
            var i :| 0 <= i < |replies[1..]| && replies[1..][i] == Err(e) && forall j :: 0 <= j < i ==> replies[1..][j].Ok?;
            assert replies[i + 1] == Err(e);
            forall j | 0 <= j < i + 1 ensures replies[j].Ok? {
              if j > 0 { assert replies[j] == replies[1..][j - 1]; }
            }
          }
          Err(e)
        case Ok(vs) =>
          assert forall i :: 1 <= i < |replies| ==> replies[i] == replies[1..][i - 1];
          Ok([v] + vs)
  }

  // ---------------------------------------------------------------------------
  // The changes total

  /** `infos.reduce((currentValue, next) => currentValue + next.changes, acc)`, folding from the left. */
  function FoldChanges(acc: nat, infos: seq<RunInfo>): nat
    decreases |infos|
  {
    if infos == [] then acc else FoldChanges(acc + infos[0].changes, infos[1..])
  }

  /** The number of rows the statements changed, summed. */
  function SumChanges(infos: seq<RunInfo>): nat
    decreases |infos|
  {
    if infos == [] then 0 else SumChanges(infos[..|infos| - 1]) + infos[|infos| - 1].changes
  }

  lemma {:induction false} SumChangesCons(info: RunInfo, infos: seq<RunInfo>)
    ensures SumChanges([info] + infos) == info.changes + SumChanges(infos)
    decreases |infos|
  {
    if infos != [] {
      var l := [info] + infos;
      assert l[..|l| - 1] == [info] + infos[..|infos| - 1];
      SumChangesCons(info, infos[..|infos| - 1]);
    }
  }

  /** The fold started at `acc` adds the sum of all statements' changes to `acc`. */
  lemma {:induction false} FoldIsSum(acc: nat, infos: seq<RunInfo>)
    ensures FoldChanges(acc, infos) == acc + SumChanges(infos)
    decreases |infos|
  {
    if infos != [] {
      FoldIsSum(acc + infos[0].changes, infos[1..]);
      SumChangesCons(infos[0], infos[1..]);
      assert infos == [infos[0]] + infos[1..];
    }
  }

  /** Totals of two consecutive parts of a batch add up. */
  lemma {:induction false} SumChangesAppend(a: seq<RunInfo>, b: seq<RunInfo>)
    ensures SumChanges(a + b) == SumChanges(a) + SumChanges(b)
    decreases |b|
  {
    if b != [] {
      assert (a + b)[..|a + b| - 1] == a + b[..|b| - 1];
      SumChangesAppend(a, b[..|b| - 1]);
    } else {
      assert a + b == a;
    }
  }

  // ---------------------------------------------------------------------------
  // Result objects

  /** `{ created: true }`, or `{ created: false, err }`. */
  datatype Created = Created(created: bool, err: Option<Error>)

  /** What `createTable` returns once its statement has run (or thrown). */
  function CreatedOf(reply: Reply): (r: Created)
    ensures r.created <==> reply.Ok?
    ensures r.created <==> r.err == None
    ensures reply.Err? ==> r.err == Some(reply.error)
  {
    match reply
    case Ok(_) => Created(true, None)
    case Err(e) => Created(false, Some(e))
  }

  /** The `data` field of a select result. */
  datatype Data =
    | UndefinedData             // `result[0]` of an empty result
    | NullData                  // set alongside `err`
    | Row(row: Record)
    | Rows(rows: seq<Record>)

  /** `result.length > 1 ? result : result[0]` */
  function Collapse(rows: seq<Record>): (d: Data)
    ensures d.Rows? <==> |rows| > 1
    ensures d.Rows? ==> d.rows == rows
    ensures d.Row? <==> |rows| == 1
    ensures d.Row? ==> d.row == rows[0]
    ensures d == UndefinedData <==> rows == []
    ensures d != NullData
  {
    if |rows| > 1 then Rows(rows) else if |rows| == 1 then Row(rows[0]) else UndefinedData
  }

  /** `Array.isArray(data) ? data : [data]`, which a caller applies to a non-empty result. */
  function Rewrap(d: Data): seq<Record>
    requires d.Row? || d.Rows?
  {
    if d.Rows? then d.rows else [d.row]
  }

  /**
   * The collapse loses nothing for a non-empty result: wrapping a lone record
   * back into an array gives the rows sqlite returned, whatever their number.
   */
  lemma CollapseRewrap(rows: seq<Record>)
    requires rows != []
    ensures var d := Collapse(rows); (d.Row? || d.Rows?) && Rewrap(d) == rows
  {
    if |rows| == 1 {
      assert [rows[0]] == rows;
    }
  }

  /** `{ data }`, or `{ data: null, err }`. */
  datatype Selected = Selected(data: Data, err: Option<Error>)

  /** What `select` returns once its query has run (or thrown). */
  function SelectedOf(reply: Result<seq<Record>, Error>): (r: Selected)
    ensures r.err.None? <==> reply.Ok?
    ensures reply.Ok? ==> r.data == Collapse(reply.value)
    ensures reply.Err? ==> r.data == NullData && r.err == Some(reply.error)
  {
    match reply
    case Ok(rows) => Selected(Collapse(rows), None)
    case Err(e) => Selected(NullData, Some(e))
  }

  /** `{ insertedIds }`, or `{ lastID: null, err }` with no `insertedIds` field. */
  datatype Inserted = InsertedIds(insertedIds: seq<int>) | LastIdNull(err: Error)

  /** `queryPromise.forEach(result => insertedIds.push(result.lastID))` */
  method CollectIds(queryPromise: seq<RunInfo>) returns (insertedIds: seq<int>)
    ensures |insertedIds| == |queryPromise|
    ensures forall i :: 0 <= i < |queryPromise| ==> insertedIds[i] == queryPromise[i].lastID
  {
    insertedIds := [];
    var i := 0;
    while i < |queryPromise|
      invariant 0 <= i <= |queryPromise|
      invariant |insertedIds| == i
      invariant forall j :: 0 <= j < i ==> insertedIds[j] == queryPromise[j].lastID
    {
      insertedIds := insertedIds + [queryPromise[i].lastID];
      i := i + 1;
    }
  }

  /** The ids an insert reports for replies that all succeeded. */
  function LastIds(infos: seq<RunInfo>): seq<int>
  {
    seq(|infos|, i requires 0 <= i < |infos| => infos[i].lastID)
  }

  /**
   * What `insert` returns for its statements' replies: when all succeeded,
   * one id per statement, the i-th being the `lastID` of the i-th statement;
   * otherwise the first failure's error, with `lastID: null`.
   */
  function InsertedOf(replies: seq<Reply>): (r: Inserted)
    ensures r.InsertedIds? <==> forall i :: 0 <= i < |replies| ==> replies[i].Ok?
    ensures r.InsertedIds? ==>
              |r.insertedIds| == |replies| &&
              forall i :: 0 <= i < |replies| ==> r.insertedIds[i] == replies[i].value.lastID
    ensures r.LastIdNull? ==> exists i :: 0 <= i < |replies| && replies[i] == Err(r.err)
                                && forall j :: 0 <= j < i ==> replies[j].Ok?
  {
    match Settle(replies)
    case Ok(infos) => InsertedIds(LastIds(infos))
    case Err(e) => LastIdNull(e)
  }

  /** `{ changes }`, or `{ changes: 0, err }`. */
  datatype Changed = Changed(changes: nat, err: Option<Error>)

  /**
   * What `update` returns for its statements' replies: the sum of their
   * `changes` when all succeeded; otherwise zero and the first failure's error.
   */
  function ChangedOf(replies: seq<Reply>): (r: Changed)
    ensures r.err.None? <==> forall i :: 0 <= i < |replies| ==> replies[i].Ok?
    ensures r.err.None? ==> r.changes == SumChanges(Settle(replies).value)
    ensures r.err.Some? ==> r.changes == 0
    ensures r.err.Some? ==>
              exists i :: 0 <= i < |replies| && replies[i] == Err(r.err.value) &&
                forall j :: 0 <= j < i ==> replies[j].Ok?
  {
    match Settle(replies)
    case Ok(infos) => FoldIsSum(0, infos); Changed(FoldChanges(0, infos), None)
    case Err(e) => Changed(0, Some(e))
  }

  /** `{ deleted }`, or `{ deleted: 0, err }`. */
  datatype Deleted = Deleted(deleted: nat, err: Option<Error>)

  /** What `delete` returns for its statements' replies, with the same rule as an update. */
  function DeletedOf(replies: seq<Reply>): (r: Deleted)
    ensures r.err.None? <==> forall i :: 0 <= i < |replies| ==> replies[i].Ok?
    ensures r.err.None? ==> r.deleted == SumChanges(Settle(replies).value)
    ensures r.err.Some? ==> r.deleted == 0
    ensures r.err.Some? ==>
              exists i :: 0 <= i < |replies| && replies[i] == Err(r.err.value) &&
                forall j :: 0 <= j < i ==> replies[j].Ok?
  {
    match Settle(replies)
    case Ok(infos) => FoldIsSum(0, infos); Deleted(FoldChanges(0, infos), None)
    case Err(e) => Deleted(0, Some(e))
  }

  /** An empty batch runs nothing and reports zero changes and no error. */
  lemma EmptyBatch()
    ensures ChangedOf([]) == Changed(0, None)
    ensures DeletedOf([]) == Deleted(0, None)
    ensures InsertedOf([]) == InsertedIds([])
  {
  }

  /**
   * Splitting a successful batch in two: the total it reports is the sum of the
   * totals of its two parts.
   */
  lemma ChangedAppend(a: seq<Reply>, b: seq<Reply>)
    requires ChangedOf(a).err.None? && ChangedOf(b).err.None?
    ensures ChangedOf(a + b).err.None?
    ensures ChangedOf(a + b).changes == ChangedOf(a).changes + ChangedOf(b).changes
  {
    var ab := a + b;
    assert forall i :: 0 <= i < |ab| ==> ab[i].Ok? by {
      forall i | 0 <= i < |ab| ensures ab[i].Ok? {
        if i >= |a| { assert ab[i] == b[i - |a|]; }
      }
    }
    var va, vb, vab := Settle(a).value, Settle(b).value, Settle(ab).value;
    assert vab == va + vb by {
      forall i | 0 <= i < |vab| ensures vab[i] == (va + vb)[i] {
        if i < |a| { assert ab[i] == a[i]; } else { assert ab[i] == b[i - |a|]; }
      }
    }
    SumChangesAppend(va, vb);
  }
}
