/**
 * The expense business API (package business/core/expense): checks the ID and
 * the payload, then reads or changes the expenses table through its store.
 */
module ExpenseCore {

  import opened Wrappers
  import opened Database
  import opened ExpenseModels
  import ExpenseDb
  import Paging
  import Rows

  /** The errors Core returns. */
  datatype Error =
    | ErrNotFound                               // "expense not found"
    | ErrInvalidID                              // "ID is not in its proper form"
    | ValidationFailed(fields: seq<FieldError>) // "validating data: ..."
    | StoreFailed(cause: DbError)               // a store error, wrapped

  /** `exp` is the record Create builds from `ne` with key `id` at time `now`. */
  ghost predicate CreatedFrom(exp: Expense, ne: NewExpense, id: string, now: int) {
    && exp.ID == id && exp.DateCreated == now && exp.DateUpdated == now
    && exp.Name == ne.Name && exp.Category == ne.Category && exp.Currency == ne.Currency
    && exp.Amount == ne.Amount && exp.Reoccurrence == ne.Reoccurrence && exp.Duration == ne.Duration
    && exp.ReoccurrenceType == ne.ReoccurrenceType && exp.DurationType == ne.DurationType
    && exp.UserID == ne.UserID
  }

  /** The value of an optional field after a partial update. */
  function Pick<T>(supplied: Option<T>, stored: T): (r: T)
    ensures supplied.Some? ==> r == supplied.value
    ensures supplied.None? ==> r == stored
  {
    if supplied.Some? then supplied.value else stored
  }

  /**
   * The stored row after a partial update at `now`: each supplied field
   * replaces the stored one, every other field is kept, DateUpdated is `now`.
   */
  function Merge(stored: ExpenseDb.Expense, ue: UpdateExpense, now: int): (r: ExpenseDb.Expense)
    ensures r.ID == stored.ID && r.UserID == stored.UserID && r.DateCreated == stored.DateCreated
    ensures r.DateUpdated == now
    ensures r.Name == Pick(ue.Name, stored.Name) && r.Category == Pick(ue.Category, stored.Category)
    ensures r.Currency == Pick(ue.Currency, stored.Currency) && r.Amount == Pick(ue.Amount, stored.Amount)
    ensures r.Reoccurrence == Pick(ue.Reoccurrence, stored.Reoccurrence)
    ensures r.Duration == Pick(ue.Duration, stored.Duration)
    ensures r.ReoccurrenceType == Pick(ue.ReoccurrenceType, stored.ReoccurrenceType)
    ensures r.DurationType == Pick(ue.DurationType, stored.DurationType)
  {
    stored.(
      Name := Pick(ue.Name, stored.Name),
      Category := Pick(ue.Category, stored.Category),
      Currency := Pick(ue.Currency, stored.Currency),
      Amount := Pick(ue.Amount, stored.Amount),
      Reoccurrence := Pick(ue.Reoccurrence, stored.Reoccurrence),
      Duration := Pick(ue.Duration, stored.Duration),
      ReoccurrenceType := Pick(ue.ReoccurrenceType, stored.ReoccurrenceType),
      DurationType := Pick(ue.DurationType, stored.DurationType),
      DateUpdated := now)
  }

  /** `later` applied over `earlier`: the later update's supplied fields win. */
  function Override(earlier: UpdateExpense, later: UpdateExpense): UpdateExpense {
    UpdateExpense(
      if later.Name.Some? then later.Name else earlier.Name,
      if later.Category.Some? then later.Category else earlier.Category,
      if later.Currency.Some? then later.Currency else earlier.Currency,
      if later.Amount.Some? then later.Amount else earlier.Amount,
      if later.Reoccurrence.Some? then later.Reoccurrence else earlier.Reoccurrence,
      if later.Duration.Some? then later.Duration else earlier.Duration,
      if later.ReoccurrenceType.Some? then later.ReoccurrenceType else earlier.ReoccurrenceType,
      if later.DurationType.Some? then later.DurationType else earlier.DurationType)
  }

  /** An update that names no field only moves DateUpdated. */
  lemma MergeNothing(stored: ExpenseDb.Expense, now: int)
    ensures Merge(stored, NoChanges, now) == stored.(DateUpdated := now)
  {
  }

  /** Two partial updates in a row act as one whose later fields win. */
  lemma MergeTwice(stored: ExpenseDb.Expense, u1: UpdateExpense, u2: UpdateExpense, t1: int, t2: int)
    ensures Merge(Merge(stored, u1, t1), u2, t2) == Merge(stored, Override(u1, u2), t2)
  {
  }

  /** Repeating an update at the same time changes nothing more. */
  lemma MergeIdempotent(stored: ExpenseDb.Expense, ue: UpdateExpense, now: int)
    ensures Merge(Merge(stored, ue, now), ue, now) == Merge(stored, ue, now)
  {
    MergeTwice(stored, ue, ue, now, now);
    assert Override(ue, ue) == ue;
  }

  /** Resending the stored values leaves every field but DateUpdated as it was. */
  lemma MergeSameValues(stored: ExpenseDb.Expense, ue: UpdateExpense, now: int)
    requires ue.Name.Some? ==> ue.Name.value == stored.Name
    requires ue.Category.Some? ==> ue.Category.value == stored.Category
    requires ue.Currency.Some? ==> ue.Currency.value == stored.Currency
    requires ue.Amount.Some? ==> ue.Amount.value == stored.Amount
    requires ue.Reoccurrence.Some? ==> ue.Reoccurrence.value == stored.Reoccurrence
    requires ue.Duration.Some? ==> ue.Duration.value == stored.Duration
    requires ue.ReoccurrenceType.Some? ==> ue.ReoccurrenceType.value == stored.ReoccurrenceType
    requires ue.DurationType.Some? ==> ue.DurationType.value == stored.DurationType
    ensures Merge(stored, ue, now) == stored.(DateUpdated := now)
  {
  }

  /** NewCore: a core over a store on the pool `db`; `checkID` is the ID format check. */
  function NewCore(table: ExpenseDb.Table, db: Handle, checkID: string -> bool): (c: Core)
    ensures c.store == ExpenseDb.NewStore(table, db) && c.checkID == checkID
  {
    Core(ExpenseDb.NewStore(table, db), checkID)
  }

  /**
   * The Go Core. `checkID` stands for validate.CheckID, whose definition is not
   * part of this model; validate.GenerateID enters Create as `newID`.
   */
  datatype Core = Core(store: ExpenseDb.Store, checkID: string -> bool) {

    /** Create: validates, builds the row with DateCreated = DateUpdated = now, inserts it. */
    method Create(ne: NewExpense, now: int, newID: string) returns (r: Result<Expense, Error>)
      requires store.table.Valid()
      modifies store.table
      ensures store.table.Valid()
      ensures CheckNewExpense(ne) != [] ==>
        r == Failure(ValidationFailed(CheckNewExpense(ne))) && store.table.rows == old(store.table.rows)
      ensures CheckNewExpense(ne) == [] && newID in old(store.table.Contents()) ==>
        r == Failure(StoreFailed(Rejected(DuplicateKey(newID)))) && store.table.rows == old(store.table.rows)
      ensures CheckNewExpense(ne) == [] && newID !in old(store.table.Contents()) ==>
        && r.Success? && CreatedFrom(r.value, ne, newID, now)
        && store.table.Contents() == old(store.table.Contents())[newID := FromExpense(r.value)]
    {
      var errs := CheckNewExpense(ne);
      if errs != [] {
        return Failure(ValidationFailed(errs));
      }
      var dbExp := ExpenseDb.Expense(
        newID, ne.Name, ne.Category, ne.Currency, ne.Amount, ne.Reoccurrence, ne.Duration,
        ne.ReoccurrenceType, ne.DurationType, ne.UserID, now, now);
      var err := store.Create(dbExp);
      if err.Some? {
        return Failure(StoreFailed(err.value));
      }
      r := Success(ToExpense(dbExp));
    }

    /**
     * Update: checks the ID, then the payload, then looks the row up; merges the
     * supplied fields into it, stamps DateUpdated and writes it back.
     */
    method Update(expenseID: string, ue: UpdateExpense, now: int) returns (err: Option<Error>)
      requires store.table.Valid()
      modifies store.table
      ensures store.table.Valid()
      ensures !checkID(expenseID) ==> err == Some(ErrInvalidID)
      ensures checkID(expenseID) && CheckUpdateExpense(ue) != [] ==>
        err == Some(ValidationFailed(CheckUpdateExpense(ue)))
      ensures checkID(expenseID) && CheckUpdateExpense(ue) == [] && expenseID !in old(store.table.Contents()) ==>
        err == Some(ErrNotFound)
      ensures checkID(expenseID) && CheckUpdateExpense(ue) == [] && expenseID in old(store.table.Contents()) ==>
        err == None
      ensures err.Some? ==> store.table.rows == old(store.table.rows)
      ensures err.None? ==>
        store.table.Contents() == old(store.table.Contents())[expenseID := Merge(old(store.table.Contents())[expenseID], ue, now)]
    {
      if !checkID(expenseID) {
        return Some(ErrInvalidID);
      }
      var errs := CheckUpdateExpense(ue);
      if errs != [] {
        return Some(ValidationFailed(errs));
      }
      var found := store.QueryByID(expenseID);
      if found.Failure? {
        // The table reports no error here but ErrDBNotFound.
        match found.error
        case ErrDBNotFound => return Some(ErrNotFound);
      }
      var dbExp := found.value;
      if ue.Name.Some? { dbExp := dbExp.(Name := ue.Name.value); }
      if ue.Category.Some? { dbExp := dbExp.(Category := ue.Category.value); }
      if ue.Currency.Some? { dbExp := dbExp.(Currency := ue.Currency.value); }
      if ue.Amount.Some? { dbExp := dbExp.(Amount := ue.Amount.value); }
      if ue.Reoccurrence.Some? { dbExp := dbExp.(Reoccurrence := ue.Reoccurrence.value); }
      if ue.Duration.Some? { dbExp := dbExp.(Duration := ue.Duration.value); }
      if ue.ReoccurrenceType.Some? { dbExp := dbExp.(ReoccurrenceType := ue.ReoccurrenceType.value); }
      if ue.DurationType.Some? { dbExp := dbExp.(DurationType := ue.DurationType.value); }
      dbExp := dbExp.(DateUpdated := now);
      assert dbExp == Merge(found.value, ue, now);
      ExpenseDb.SetColumnsOwnKeys(found.value, dbExp);
      var _ := store.Update(dbExp);
      err := None;
    }

    /** Delete: checks the ID, then deletes; an absent expense is not an error. */
    method Delete(expenseID: string) returns (err: Option<Error>)
      requires store.table.Valid()
      modifies store.table
      ensures store.table.Valid()
      ensures !checkID(expenseID) ==> err == Some(ErrInvalidID) && store.table.rows == old(store.table.rows)
      ensures checkID(expenseID) ==>
        err == None && store.table.Contents() == old(store.table.Contents()) - {expenseID}
      ensures expenseID !in old(store.table.Contents()) ==> store.table.rows == old(store.table.rows)
    {
      if !checkID(expenseID) {
        return Some(ErrInvalidID);
      }
      var _ := store.Delete(expenseID);
      err := None;
    }

    /** Query: pageNumber and rowsPerPage go to the store unchecked; the page is converted. */
    method Query(pageNumber: Paging.Int64, rowsPerPage: Paging.Int64) returns (r: Result<seq<Expense>, Error>)
      requires store.table.Valid()
      ensures var offset := Paging.Offset(pageNumber, rowsPerPage);
        if offset < 0 then r == Failure(StoreFailed(Rejected(NegativeOffset(offset))))
        else if rowsPerPage < 0 then r == Failure(StoreFailed(Rejected(NegativeFetch(rowsPerPage))))
        else r.Success? && Converted(Paging.Page(store.table.rows, offset, rowsPerPage), r.value)
    {
      var dbExps := store.Query(pageNumber, rowsPerPage);
      if dbExps.Failure? {
        return Failure(StoreFailed(dbExps.error));
      }
      var exps := ToExpenseSlice(dbExps.value);
      r := Success(exps);
    }

    /** QueryByID: checks the ID; the store's ErrDBNotFound becomes ErrNotFound. */
    method QueryByID(expenseID: string) returns (r: Result<Expense, Error>)
      ensures !checkID(expenseID) ==> r == Failure(ErrInvalidID)
      ensures checkID(expenseID) && expenseID !in store.table.Contents() ==> r == Failure(ErrNotFound)
      ensures checkID(expenseID) && expenseID in store.table.Contents() ==>
        r == Success(ToExpense(store.table.Contents()[expenseID]))
    {
      if !checkID(expenseID) {
        return Failure(ErrInvalidID);
      }
      var found := store.QueryByID(expenseID);
      if found.Failure? {
        match found.error
        case ErrDBNotFound => return Failure(ErrNotFound);
      }
      r := Success(ToExpense(found.value));
    }

    /** QueryByUserID: checks the user ID, then returns that user's expenses converted. */
    method QueryByUserID(userID: string) returns (r: Result<seq<Expense>, Error>)
      requires store.table.Valid()
      ensures !checkID(userID) ==> r == Failure(ErrInvalidID)
      ensures checkID(userID) ==> r.Success?
      ensures r.Success? ==>
        forall exp :: exp in r.value <==> FromExpense(exp) in store.table.rows && exp.UserID == userID
      ensures r.Success? ==> forall i, j :: 0 <= i < j < |r.value| ==> r.value[i].ID != r.value[j].ID
    {
      if !checkID(userID) {
        return Failure(ErrInvalidID);
      }
      var dbExps := store.QueryByUserID(userID);
      var exps := ToExpenseSlice(dbExps.value);
      forall exp ensures exp in exps <==> FromExpense(exp) in store.table.rows && exp.UserID == userID {
        ConvertedMembers(dbExps.value, exps, exp);
      }
      r := Success(exps);
    }
  }
}
