/**
 * The incomes table and its store (package business/core/income/db).
 * The table is the database's shared state; a Store is a value that reaches it
 * through a connection handle, as the Go `Store` struct does through `db`.
 */
module IncomeDb {

  import opened Wrappers
  import opened Database
  import Rows
  import Paging

  /** A row of the incomes table. Timestamps are abstract instants. */
  datatype Income = Income(
    ID: string,
    Name: string,
    Category: string,
    Currency: string,
    Amount: int,
    Reoccurrence: int,
    Duration: int,
    ReoccurrenceType: string,
    DurationType: string,
    UserID: string,
    DateCreated: int,
    DateUpdated: int)

  /** The key column, income_id. */
  function IdOf(inc: Income): string { inc.ID }

  /** The ordering column, date_created. */
  function CreatedOf(inc: Income): int { inc.DateCreated }

  /**
   * `row` after the UPDATE's SET list with the values of `inc`: every column
   * except income_id, user_id and date_created is taken from `inc`.
   */
  function SetColumns(row: Income, inc: Income): (r: Income)
    ensures r.ID == row.ID && r.UserID == row.UserID && r.DateCreated == row.DateCreated
    ensures r.(ID := inc.ID, UserID := inc.UserID, DateCreated := inc.DateCreated) == inc
  {
    inc.(ID := row.ID, UserID := row.UserID, DateCreated := row.DateCreated)
  }

  /** The incomes table: rows ordered by date_created, keyed by income_id. */
  class Table {
    var rows: seq<Income>

    ghost predicate Valid()
      reads this
    {
      Rows.Ordered(rows, CreatedOf) && Rows.UniqueIds(rows, IdOf)
    }

    /** The table as a map from income_id to row. */
    function Contents(): map<string, Income>
      reads this
    {
      Rows.ById(rows, IdOf)
    }

    constructor ()
      ensures Valid() && rows == []
    {
      rows := [];
    }
  }

  /** NewStore: a store over the pool, used both to start transactions and to run queries. */
  function NewStore(table: Table, db: Handle): (s: Store)
    ensures s.table == table && s.tr == db && s.db == db && !s.isWithinTran
  {
    Store(table, db, db, false)
  }

  /** The Go Store minus its logger: transactor, query handle and the in-transaction flag. */
  datatype Store = Store(table: Table, tr: Handle, db: Handle, isWithinTran: bool) {

    /** Tran: the same store with queries going to `tx`, flagged as inside a transaction. */
    function Tran(tx: Handle): (s: Store)
      ensures s.isWithinTran && s.db == tx
      ensures s.table == table && s.tr == tr
    {
      Store(table, tr, tx, true)
    }

    /**
     * WithinTran as written. Inside a transaction fn is applied to the current
     * handle and its error dropped; with no return after it, database.WithinTran
     * on the transactor follows in every case. The error returned is the one
     * database.WithinTran returns, which is this model's input `transactorResult`.
     */
    function WithinTran(fn: Handle -> Option<DbError>, transactorResult: Option<DbError>): (run: TranRun)
      ensures run.err == transactorResult
      ensures |run.steps| == (if isWithinTran then 2 else 1) && Begins(run.steps) == 1
      ensures run.steps[|run.steps| - 1] == DatabaseWithinTran(tr)
      ensures isWithinTran ==> run.steps[0] == ApplyFn(db, fn(db))
    {
      var direct := if isWithinTran then [ApplyFn(db, fn(db))] else [];
      TranRun(direct + [DatabaseWithinTran(tr)], transactorResult)
    }

    /**
     * WithinTran as the transaction design intends it: inside a transaction fn
     * runs once on the current handle and its error is the result; otherwise the
     * call is delegated to database.WithinTran.
     */
    function WithinTranFixed(fn: Handle -> Option<DbError>, transactorResult: Option<DbError>): (run: TranRun)
      ensures |run.steps| == 1 && Begins(run.steps) == (if isWithinTran then 0 else 1)
      ensures isWithinTran ==> run.steps[0] == ApplyFn(db, fn(db)) && run.err == fn(db)
      ensures !isWithinTran ==> run.steps[0] == DatabaseWithinTran(tr) && run.err == transactorResult
    {
      if isWithinTran then TranRun([ApplyFn(db, fn(db))], fn(db))
      else TranRun([DatabaseWithinTran(tr)], transactorResult)
    }

    /** Create: INSERT of all twelve columns of `inc`; a key already present is refused. */
    method Create(inc: Income) returns (err: Option<DbError>)
      requires table.Valid()
      modifies table
      ensures table.Valid()
      ensures inc.ID in old(table.Contents()) ==>
        err == Some(Rejected(DuplicateKey(inc.ID))) && table.rows == old(table.rows)
      ensures inc.ID !in old(table.Contents()) ==>
        err == None && table.Contents() == old(table.Contents())[inc.ID := inc]
    {
      if inc.ID in table.Contents() {
        return Some(Rejected(DuplicateKey(inc.ID)));
      }
      Rows.InsertOrderedSorted(table.rows, inc, CreatedOf);
      Rows.InsertOrderedUnique(table.rows, inc, IdOf, CreatedOf);
      Rows.InsertOrderedById(table.rows, inc, IdOf, CreatedOf);
      table.rows := Rows.InsertOrdered(table.rows, inc, CreatedOf);
      err := None;
    }

    /**
     * Update: `UPDATE ... WHERE income_id = inc.ID`. The matching row takes every
     * column of `inc` but income_id, user_id and date_created; when no row
     * matches nothing changes and no error is raised.
     */
    method Update(inc: Income) returns (err: Option<DbError>)
      requires table.Valid()
      modifies table
      ensures table.Valid() && err == None
      ensures inc.ID in old(table.Contents()) ==>
        table.Contents() == old(table.Contents())[inc.ID := SetColumns(old(table.Contents())[inc.ID], inc)]
      ensures inc.ID !in old(table.Contents()) ==> table.rows == old(table.rows)
    {
      var f := (row: Income) => SetColumns(row, inc);
      var before := table.rows;
      Rows.ReplaceWhereInvariant(before, IdOf, CreatedOf, inc.ID, f);
      Rows.ReplaceWhereById(before, IdOf, inc.ID, f);
      Rows.ReplaceWhereShape(before, IdOf, inc.ID, f);
      table.rows := Rows.ReplaceWhere(before, IdOf, inc.ID, f);
      if inc.ID !in Rows.ById(before, IdOf) {
        forall i | 0 <= i < |before| ensures table.rows[i] == before[i] {
          Rows.ByIdKeys(before, IdOf, inc.ID);
        }
      }
      err := None;
    }

    /** Delete: removes the row with `incomeID`; an absent key is not an error. */
    method Delete(incomeID: string) returns (err: Option<DbError>)
      requires table.Valid()
      modifies table
      ensures table.Valid() && err == None
      ensures table.Contents() == old(table.Contents()) - {incomeID}
      ensures incomeID !in old(table.Contents()) ==> table.rows == old(table.rows)
    {
      var keep := (row: Income) => row.ID != incomeID;
      var before := table.rows;
      Rows.FilterSorted(before, keep, CreatedOf);
      Rows.FilterUnique(before, keep, IdOf);
      Rows.FilterKeyById(before, IdOf, incomeID, keep);
      if incomeID !in Rows.ById(before, IdOf) {
        forall i | 0 <= i < |before| ensures keep(before[i]) {
          Rows.ByIdKeys(before, IdOf, incomeID);
        }
        Rows.FilterAll(before, keep);
      }
      table.rows := Rows.Filter(before, keep);
      err := None;
    }

    /**
     * Query: the rows ordered by date_created, skipping (pageNumber-1)*rowsPerPage
     * (in int64 arithmetic) and keeping at most rowsPerPage. A negative offset or
     * row count is refused by the database.
     */
    method Query(pageNumber: Paging.Int64, rowsPerPage: Paging.Int64) returns (r: Result<seq<Income>, DbError>)
      requires table.Valid()
      ensures var offset := Paging.Offset(pageNumber, rowsPerPage);
        if offset < 0 then r == Failure(Rejected(NegativeOffset(offset)))
        else if rowsPerPage < 0 then r == Failure(Rejected(NegativeFetch(rowsPerPage)))
        else r == Success(Paging.Page(table.rows, offset, rowsPerPage))
      ensures r.Success? ==> Rows.Ordered(r.value, CreatedOf) && |r.value| <= rowsPerPage
    {
      var offset := Paging.Offset(pageNumber, rowsPerPage);
      if offset < 0 {
        return Failure(Rejected(NegativeOffset(offset)));
      }
      if rowsPerPage < 0 {
        return Failure(Rejected(NegativeFetch(rowsPerPage)));
      }
      var page := Paging.Page(table.rows, offset, rowsPerPage);
      assert forall i, j :: 0 <= i < j < |page| ==> page[i] == table.rows[offset + i] && page[j] == table.rows[offset + j];
      r := Success(page);
    }

    /** QueryByID: the row keyed `incomeID`, or ErrDBNotFound. */
    method QueryByID(incomeID: string) returns (r: Result<Income, DbError>)
      ensures incomeID in table.Contents() ==> r == Success(table.Contents()[incomeID])
      ensures incomeID !in table.Contents() ==> r == Failure(ErrDBNotFound)
      ensures r.Success? ==> r.value.ID == incomeID && r.value in table.rows
    {
      var found := Rows.Lookup(table.rows, IdOf, incomeID);
      if found.None? {
        return Failure(ErrDBNotFound);
      }
      r := Success(found.value);
    }

    /** QueryByUserID: exactly the rows of user `userID`; none is an empty result, not an error. */
    method QueryByUserID(userID: string) returns (r: Result<seq<Income>, DbError>)
      requires table.Valid()
      ensures r.Success?
      ensures forall inc :: inc in r.value <==> inc in table.rows && inc.UserID == userID
      ensures Rows.UniqueIds(r.value, IdOf)
    {
      var mine := (inc: Income) => inc.UserID == userID;
      var found := Rows.Filter(table.rows, mine);
      forall inc ensures inc in found <==> inc in table.rows && inc.UserID == userID {
        Rows.FilterMembers(table.rows, mine, inc);
      }
      Rows.FilterUnique(table.rows, mine, IdOf);
      r := Success(found);
    }
  }

  // ---------------------------------------------------------------------------
  // Properties that relate several calls

  /**
   * As written, a store already inside a transaction still opens a second one:
   * an outer WithinTran and a nested one on the Tran'd store begin two
   * transactions, and fn's failure on the current handle is not reported.
   */
  lemma WithinTranNestedOpensTwo(table: Table, db: Handle, tx: Handle,
                                 fn: Handle -> Option<DbError>, r1: Option<DbError>, r2: Option<DbError>)
    requires fn(tx).Some? && r2 == None
    ensures var outer := NewStore(table, db).WithinTran(fn, r1);
      var inner := NewStore(table, db).Tran(tx).WithinTran(fn, r2);
      Begins(outer.steps) + Begins(inner.steps) == 2 && |inner.steps| == 2 && inner.err == None
  {
  }

  /** With the fix, the nested scope reuses the transaction and reports fn's error. */
  lemma WithinTranFixedNestedOpensOne(table: Table, db: Handle, tx: Handle,
                                      fn: Handle -> Option<DbError>, r1: Option<DbError>, r2: Option<DbError>)
    ensures var outer := NewStore(table, db).WithinTranFixed(fn, r1);
      var inner := NewStore(table, db).Tran(tx).WithinTranFixed(fn, r2);
      Begins(outer.steps) + Begins(inner.steps) == 1 && |inner.steps| == 1 && inner.err == fn(tx)
  {
  }

  /** Tran'ing twice is the same as Tran'ing once to the last handle. */
  lemma TranTwice(s: Store, tx1: Handle, tx2: Handle)
    ensures s.Tran(tx1).Tran(tx2) == s.Tran(tx2)
  {
  }

  /** A SetColumns with a row's own key, owner and creation time yields that row. */
  lemma SetColumnsOwnKeys(row: Income, inc: Income)
    requires inc.ID == row.ID && inc.UserID == row.UserID && inc.DateCreated == row.DateCreated
    ensures SetColumns(row, inc) == inc
  {
  }
}
