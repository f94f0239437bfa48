/**
 * The expenses table and its store (package business/core/expense/db).
 * The table is the database's shared state; a Store is a value that reaches it
 * through a connection handle, as the Go `Store` struct does through `db`.
 */
module ExpenseDb {

  import opened Wrappers
  import opened Database
  import Rows
  import Paging

  /** A row of the expenses table. Timestamps are abstract instants. */
  datatype Expense = Expense(
    ID: string,
    Name: string,
    Category: string,
    Currency: string,
    Amount: int,
    Reoccurrence: int,
    Duration: int,
    ReoccurrenceType: string,
    DurationType: string,
    UserID: string,
    DateCreated: int,
    DateUpdated: int)

  /** The key column, expense_id. */
  function IdOf(exp: Expense): string { exp.ID }

  /** The ordering column, date_created. */
  function CreatedOf(exp: Expense): int { exp.DateCreated }

  /**
   * `row` after the UPDATE's SET list with the values of `exp`: every column
   * except expense_id, user_id and date_created is taken from `exp`.
   */
  function SetColumns(row: Expense, exp: Expense): (r: Expense)
    ensures r.ID == row.ID && r.UserID == row.UserID && r.DateCreated == row.DateCreated
    ensures r.(ID := exp.ID, UserID := exp.UserID, DateCreated := exp.DateCreated) == exp
  {
    exp.(ID := row.ID, UserID := row.UserID, DateCreated := row.DateCreated)
  }

  /** The expenses table: rows ordered by date_created, keyed by expense_id. */
  class Table {
    var rows: seq<Expense>

    ghost predicate Valid()
      reads this
    {
      Rows.Ordered(rows, CreatedOf) && Rows.UniqueIds(rows, IdOf)
    }

    /** The table as a map from expense_id to row. */
    function Contents(): map<string, Expense>
      reads this
    {
      Rows.ById(rows, IdOf)
    }

    constructor ()
      ensures Valid() && rows == []
    {
      rows := [];
    }
  }

  /** NewStore: a store over the pool, used both to start transactions and to run queries. */
  function NewStore(table: Table, db: Handle): (s: Store)
    ensures s.table == table && s.tr == db && s.db == db && !s.isWithinTran
  {
    Store(table, db, db, false)
  }

  /** The Go Store minus its logger: transactor, query handle and the in-transaction flag. */
  datatype Store = Store(table: Table, tr: Handle, db: Handle, isWithinTran: bool) {

    /** Tran: the same store with queries going to `tx`, flagged as inside a transaction. */
    function Tran(tx: Handle): (s: Store)
      ensures s.isWithinTran && s.db == tx
      ensures s.table == table && s.tr == tr
    {
      Store(table, tr, tx, true)
    }

    /**
     * WithinTran as written. Inside a transaction fn is applied to the current
     * handle and its error dropped; with no return after it, database.WithinTran
     * on the transactor follows in every case. The error returned is the one
     * database.WithinTran returns, which is this model's input `transactorResult`.
     */
    function WithinTran(fn: Handle -> Option<DbError>, transactorResult: Option<DbError>): (run: TranRun)
      ensures run.err == transactorResult
      ensures |run.steps| == (if isWithinTran then 2 else 1) && Begins(run.steps) == 1
      ensures run.steps[|run.steps| - 1] == DatabaseWithinTran(tr)
      ensures isWithinTran ==> run.steps[0] == ApplyFn(db, fn(db))
    {
      var direct := if isWithinTran then [ApplyFn(db, fn(db))] else [];
      TranRun(direct + [DatabaseWithinTran(tr)], transactorResult)
    }

    /**
     * WithinTran as the transaction design intends it: inside a transaction fn
     * runs once on the current handle and its error is the result; otherwise the
     * call is delegated to database.WithinTran.
     */
    function WithinTranFixed(fn: Handle -> Option<DbError>, transactorResult: Option<DbError>): (run: TranRun)
      ensures |run.steps| == 1 && Begins(run.steps) == (if isWithinTran then 0 else 1)
      ensures isWithinTran ==> run.steps[0] == ApplyFn(db, fn(db)) && run.err == fn(db)
      ensures !isWithinTran ==> run.steps[0] == DatabaseWithinTran(tr) && run.err == transactorResult
    {
      if isWithinTran then TranRun([ApplyFn(db, fn(db))], fn(db))
      else TranRun([DatabaseWithinTran(tr)], transactorResult)
    }

    /** Create: INSERT of all twelve columns of `exp`; a key already present is refused. */
    method Create(exp: Expense) returns (err: Option<DbError>)
      requires table.Valid()
      modifies table
      ensures table.Valid()
      ensures exp.ID in old(table.Contents()) ==>
        err == Some(Rejected(DuplicateKey(exp.ID))) && table.rows == old(table.rows)
      ensures exp.ID !in old(table.Contents()) ==>
        err == None && table.Contents() == old(table.Contents())[exp.ID := exp]
    {
      if exp.ID in table.Contents() {
        return Some(Rejected(DuplicateKey(exp.ID)));
      }
      Rows.InsertOrderedSorted(table.rows, exp, CreatedOf);
      Rows.InsertOrderedUnique(table.rows, exp, IdOf, CreatedOf);
      Rows.InsertOrderedById(table.rows, exp, IdOf, CreatedOf);
      table.rows := Rows.InsertOrdered(table.rows, exp, CreatedOf);
      err := None;
    }

    /**
     * Update: `UPDATE ... WHERE expense_id = exp.ID`. The matching row takes every
     * column of `exp` but expense_id, user_id and date_created; when no row
     * matches nothing changes and no error is raised.
     */
    method Update(exp: Expense) returns (err: Option<DbError>)
      requires table.Valid()
      modifies table
      ensures table.Valid() && err == None
      ensures exp.ID in old(table.Contents()) ==>
        table.Contents() == old(table.Contents())[exp.ID := SetColumns(old(table.Contents())[exp.ID], exp)]
      ensures exp.ID !in old(table.Contents()) ==> table.rows == old(table.rows)
    {
      var f := (row: Expense) => SetColumns(row, exp);
      var before := table.rows;
      Rows.ReplaceWhereInvariant(before, IdOf, CreatedOf, exp.ID, f);
      Rows.ReplaceWhereById(before, IdOf, exp.ID, f);
      Rows.ReplaceWhereShape(before, IdOf, exp.ID, f);
      table.rows := Rows.ReplaceWhere(before, IdOf, exp.ID, f);
      if exp.ID !in Rows.ById(before, IdOf) {
        forall i | 0 <= i < |before| ensures table.rows[i] == before[i] {
          Rows.ByIdKeys(before, IdOf, exp.ID);
        }
      }
      err := None;
    }

    /** Delete: removes the row with `expenseID`; an absent key is not an error. */
    method Delete(expenseID: string) returns (err: Option<DbError>)
      requires table.Valid()
      modifies table
      ensures table.Valid() && err == None
      ensures table.Contents() == old(table.Contents()) - {expenseID}
      ensures expenseID !in old(table.Contents()) ==> table.rows == old(table.rows)
    {
      var keep := (row: Expense) => row.ID != expenseID;
      var before := table.rows;
      Rows.FilterSorted(before, keep, CreatedOf);
      Rows.FilterUnique(before, keep, IdOf);
      Rows.FilterKeyById(before, IdOf, expenseID, keep);
      if expenseID !in Rows.ById(before, IdOf) {
        forall i | 0 <= i < |before| ensures keep(before[i]) {
          Rows.ByIdKeys(before, IdOf, expenseID);
        }
        Rows.FilterAll(before, keep);
      }
      table.rows := Rows.Filter(before, keep);
      err := None;
    }

    /**
     * Query: the rows ordered by date_created, skipping (pageNumber-1)*rowsPerPage
     * (in int64 arithmetic) and keeping at most rowsPerPage. A negative offset or
     * row count is refused by the database.
     */
    method Query(pageNumber: Paging.Int64, rowsPerPage: Paging.Int64) returns (r: Result<seq<Expense>, DbError>)
      requires table.Valid()
      ensures var offset := Paging.Offset(pageNumber, rowsPerPage);
        if offset < 0 then r == Failure(Rejected(NegativeOffset(offset)))
        else if rowsPerPage < 0 then r == Failure(Rejected(NegativeFetch(rowsPerPage)))
        else r == Success(Paging.Page(table.rows, offset, rowsPerPage))
      ensures r.Success? ==> Rows.Ordered(r.value, CreatedOf) && |r.value| <= rowsPerPage
    {
      var offset := Paging.Offset(pageNumber, rowsPerPage);
      if offset < 0 {
        return Failure(Rejected(NegativeOffset(offset)));
      }
      if rowsPerPage < 0 {
        return Failure(Rejected(NegativeFetch(rowsPerPage)));
      }
      var page := Paging.Page(table.rows, offset, rowsPerPage);
      assert forall i, j :: 0 <= i < j < |page| ==> page[i] == table.rows[offset + i] && page[j] == table.rows[offset + j];
      r := Success(page);
    }

    /** QueryByID: the row keyed `expenseID`, or ErrDBNotFound. */
    method QueryByID(expenseID: string) returns (r: Result<Expense, DbError>)
      ensures expenseID in table.Contents() ==> r == Success(table.Contents()[expenseID])
      ensures expenseID !in table.Contents() ==> r == Failure(ErrDBNotFound)
      ensures r.Success? ==> r.value.ID == expenseID && r.value in table.rows
    {
      var found := Rows.Lookup(table.rows, IdOf, expenseID);
      if found.None? {
        return Failure(ErrDBNotFound);
      }
      r := Success(found.value);
    }

    /** QueryByUserID: exactly the rows of user `userID`; none is an empty result, not an error. */
    method QueryByUserID(userID: string) returns (r: Result<seq<Expense>, DbError>)
      requires table.Valid()
      ensures r.Success?
      ensures forall exp :: exp in r.value <==> exp in table.rows && exp.UserID == userID
      ensures Rows.UniqueIds(r.value, IdOf)
    {
      var mine := (exp: Expense) => exp.UserID == userID;
      var found := Rows.Filter(table.rows, mine);
      forall exp ensures exp in found <==> exp in table.rows && exp.UserID == userID {
        Rows.FilterMembers(table.rows, mine, exp);
      }
      Rows.FilterUnique(table.rows, mine, IdOf);
      r := Success(found);
    }
  }

  // ---------------------------------------------------------------------------
  // Properties that relate several calls

  /**
   * As written, a store already inside a transaction still opens a second one:
   * an outer WithinTran and a nested one on the Tran'd store begin two
   * transactions, and fn's failure on the current handle is not reported.
   */
  lemma WithinTranNestedOpensTwo(table: Table, db: Handle, tx: Handle,
                                 fn: Handle -> Option<DbError>, r1: Option<DbError>, r2: Option<DbError>)
    requires fn(tx).Some? && r2 == None
    ensures var outer := NewStore(table, db).WithinTran(fn, r1);
      var inner := NewStore(table, db).Tran(tx).WithinTran(fn, r2);
      Begins(outer.steps) + Begins(inner.steps) == 2 && |inner.steps| == 2 && inner.err == None
  {
  }

  /** With the fix, the nested scope reuses the transaction and reports fn's error. */
  lemma WithinTranFixedNestedOpensOne(table: Table, db: Handle, tx: Handle,
                                      fn: Handle -> Option<DbError>, r1: Option<DbError>, r2: Option<DbError>)
    ensures var outer := NewStore(table, db).WithinTranFixed(fn, r1);
      var inner := NewStore(table, db).Tran(tx).WithinTranFixed(fn, r2);
      Begins(outer.steps) + Begins(inner.steps) == 1 && |inner.steps| == 1 && inner.err == fn(tx)
  {
  }

  /** Tran'ing twice is the same as Tran'ing once to the last handle. */
  lemma TranTwice(s: Store, tx1: Handle, tx2: Handle)
    ensures s.Tran(tx1).Tran(tx2) == s.Tran(tx2)
  {
  }

  /** A SetColumns with a row's own key, owner and creation time yields that row. */
  lemma SetColumnsOwnKeys(row: Expense, exp: Expense)
    requires exp.ID == row.ID && exp.UserID == row.UserID && exp.DateCreated == row.DateCreated
    ensures SetColumns(row, exp) == exp
  {
  }
}
