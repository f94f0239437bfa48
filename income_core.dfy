/**
 * The income business API (package business/core/income): checks the ID and
 * the payload, then reads or changes the incomes table through its store.
 */
module IncomeCore {

  import opened Wrappers
  import opened Database
  import opened IncomeModels
  import IncomeDb
  import Paging
  import Rows

  /** The errors Core returns. */
  datatype Error =
    | ErrNotFound                               // "income not found"
    | ErrInvalidID                              // "ID is not in its proper form"
    | ValidationFailed(fields: seq<FieldError>) // "validating data: ..."
    | StoreFailed(cause: DbError)               // a store error, wrapped

  /** `inc` is the record Create builds from `ni` with key `id` at time `now`. */
  ghost predicate CreatedFrom(inc: Income, ni: NewIncome, id: string, now: int) {
    && inc.ID == id && inc.DateCreated == now && inc.DateUpdated == now
    && inc.Name == ni.Name && inc.Category == ni.Category && inc.Currency == ni.Currency
    && inc.Amount == ni.Amount && inc.Reoccurrence == ni.Reoccurrence && inc.Duration == ni.Duration
    && inc.ReoccurrenceType == ni.ReoccurrenceType && inc.DurationType == ni.DurationType
    && inc.UserID == ni.UserID
  }

  /** The value of an optional field after a partial update. */
  function Pick<T>(supplied: Option<T>, stored: T): (r: T)
    ensures supplied.Some? ==> r == supplied.value
    ensures supplied.None? ==> r == stored
  {
    if supplied.Some? then supplied.value else stored
  }

  /**
   * The stored row after a partial update at `now`: each supplied field
   * replaces the stored one, every other field is kept, DateUpdated is `now`.
   */
  function Merge(stored: IncomeDb.Income, ui: UpdateIncome, now: int): (r: IncomeDb.Income)
    ensures r.ID == stored.ID && r.UserID == stored.UserID && r.DateCreated == stored.DateCreated
    ensures r.DateUpdated == now
    ensures r.Name == Pick(ui.Name, stored.Name) && r.Category == Pick(ui.Category, stored.Category)
    ensures r.Currency == Pick(ui.Currency, stored.Currency) && r.Amount == Pick(ui.Amount, stored.Amount)
    ensures r.Reoccurrence == Pick(ui.Reoccurrence, stored.Reoccurrence)
    ensures r.Duration == Pick(ui.Duration, stored.Duration)
    ensures r.ReoccurrenceType == Pick(ui.ReoccurrenceType, stored.ReoccurrenceType)
    ensures r.DurationType == Pick(ui.DurationType, stored.DurationType)
  {
    stored.(
      Name := Pick(ui.Name, stored.Name),
      Category := Pick(ui.Category, stored.Category),
      Currency := Pick(ui.Currency, stored.Currency),
      Amount := Pick(ui.Amount, stored.Amount),
      Reoccurrence := Pick(ui.Reoccurrence, stored.Reoccurrence),
      Duration := Pick(ui.Duration, stored.Duration),
      ReoccurrenceType := Pick(ui.ReoccurrenceType, stored.ReoccurrenceType),
      DurationType := Pick(ui.DurationType, stored.DurationType),
      DateUpdated := now)
  }

  /** `later` applied over `earlier`: the later update's supplied fields win. */
  function Override(earlier: UpdateIncome, later: UpdateIncome): UpdateIncome {
    UpdateIncome(
      if later.Name.Some? then later.Name else earlier.Name,
      if later.Category.Some? then later.Category else earlier.Category,
      if later.Currency.Some? then later.Currency else earlier.Currency,
      if later.Amount.Some? then later.Amount else earlier.Amount,
      if later.Reoccurrence.Some? then later.Reoccurrence else earlier.Reoccurrence,
      if later.Duration.Some? then later.Duration else earlier.Duration,
      if later.ReoccurrenceType.Some? then later.ReoccurrenceType else earlier.ReoccurrenceType,
      if later.DurationType.Some? then later.DurationType else earlier.DurationType)
  }

  /** An update that names no field only moves DateUpdated. */
  lemma MergeNothing(stored: IncomeDb.Income, now: int)
    ensures Merge(stored, NoChanges, now) == stored.(DateUpdated := now)
  {
  }

  /** Two partial updates in a row act as one whose later fields win. */
  lemma MergeTwice(stored: IncomeDb.Income, u1: UpdateIncome, u2: UpdateIncome, t1: int, t2: int)
    ensures Merge(Merge(stored, u1, t1), u2, t2) == Merge(stored, Override(u1, u2), t2)
  {
  }

  /** Repeating an update at the same time changes nothing more. */
  lemma MergeIdempotent(stored: IncomeDb.Income, ui: UpdateIncome, now: int)
    ensures Merge(Merge(stored, ui, now), ui, now) == Merge(stored, ui, now)
  {
    MergeTwice(stored, ui, ui, now, now);
    assert Override(ui, ui) == ui;
  }

  /** Resending the stored values leaves every field but DateUpdated as it was. */
  lemma MergeSameValues(stored: IncomeDb.Income, ui: UpdateIncome, now: int)
    requires ui.Name.Some? ==> ui.Name.value == stored.Name
    requires ui.Category.Some? ==> ui.Category.value == stored.Category
    requires ui.Currency.Some? ==> ui.Currency.value == stored.Currency
    requires ui.Amount.Some? ==> ui.Amount.value == stored.Amount
    requires ui.Reoccurrence.Some? ==> ui.Reoccurrence.value == stored.Reoccurrence
    requires ui.Duration.Some? ==> ui.Duration.value == stored.Duration
    requires ui.ReoccurrenceType.Some? ==> ui.ReoccurrenceType.value == stored.ReoccurrenceType
    requires ui.DurationType.Some? ==> ui.DurationType.value == stored.DurationType
    ensures Merge(stored, ui, now) == stored.(DateUpdated := now)
  {
  }

  /** NewCore: a core over a store on the pool `db`; `checkID` is the ID format check. */
  function NewCore(table: IncomeDb.Table, db: Handle, checkID: string -> bool): (c: Core)
    ensures c.store == IncomeDb.NewStore(table, db) && c.checkID == checkID
  {
    Core(IncomeDb.NewStore(table, db), checkID)
  }

  /**
   * The Go Core. `checkID` stands for validate.CheckID, whose definition is not
   * part of this model; validate.GenerateID enters Create as `newID`.
   */
  datatype Core = Core(store: IncomeDb.Store, checkID: string -> bool) {

    /** Create: validates, builds the row with DateCreated = DateUpdated = now, inserts it. */
    method Create(ni: NewIncome, now: int, newID: string) returns (r: Result<Income, Error>)
      requires store.table.Valid()
      modifies store.table
      ensures store.table.Valid()
      ensures CheckNewIncome(ni) != [] ==>
        r == Failure(ValidationFailed(CheckNewIncome(ni))) && store.table.rows == old(store.table.rows)
      ensures CheckNewIncome(ni) == [] && newID in old(store.table.Contents()) ==>
        r == Failure(StoreFailed(Rejected(DuplicateKey(newID)))) && store.table.rows == old(store.table.rows)
      ensures CheckNewIncome(ni) == [] && newID !in old(store.table.Contents()) ==>
        && r.Success? && CreatedFrom(r.value, ni, newID, now)
        && store.table.Contents() == old(store.table.Contents())[newID := FromIncome(r.value)]
    {
      var errs := CheckNewIncome(ni);
      if errs != [] {
        return Failure(ValidationFailed(errs));
      }
      var dbInc := IncomeDb.Income(
        newID, ni.Name, ni.Category, ni.Currency, ni.Amount, ni.Reoccurrence, ni.Duration,
        ni.ReoccurrenceType, ni.DurationType, ni.UserID, now, now);
      var err := store.Create(dbInc);
      if err.Some? {
        return Failure(StoreFailed(err.value));
      }
      r := Success(ToIncome(dbInc));
    }

    /**
     * Update: checks the ID, then the payload, then looks the row up; merges the
     * supplied fields into it, stamps DateUpdated and writes it back.
     */
    method Update(incomeID: string, ui: UpdateIncome, now: int) returns (err: Option<Error>)
      requires store.table.Valid()
      modifies store.table
      ensures store.table.Valid()
      ensures !checkID(incomeID) ==> err == Some(ErrInvalidID)
      ensures checkID(incomeID) && CheckUpdateIncome(ui) != [] ==>
        err == Some(ValidationFailed(CheckUpdateIncome(ui)))
      ensures checkID(incomeID) && CheckUpdateIncome(ui) == [] && incomeID !in old(store.table.Contents()) ==>
        err == Some(ErrNotFound)
      ensures checkID(incomeID) && CheckUpdateIncome(ui) == [] && incomeID in old(store.table.Contents()) ==>
        err == None
      ensures err.Some? ==> store.table.rows == old(store.table.rows)
      ensures err.None? ==>
        store.table.Contents() == old(store.table.Contents())[incomeID := Merge(old(store.table.Contents())[incomeID], ui, now)]
    {
      if !checkID(incomeID) {
        return Some(ErrInvalidID);
      }
      var errs := CheckUpdateIncome(ui);
      if errs != [] {
        return Some(ValidationFailed(errs));
      }
      var found := store.QueryByID(incomeID);
      if found.Failure? {
        // The table reports no error here but ErrDBNotFound.
        match found.error
        case ErrDBNotFound => return Some(ErrNotFound);
      }
      var dbInc := found.value;
      if ui.Name.Some? { dbInc := dbInc.(Name := ui.Name.value); }
      if ui.Category.Some? { dbInc := dbInc.(Category := ui.Category.value); }
      if ui.Currency.Some? { dbInc := dbInc.(Currency := ui.Currency.value); }
      if ui.Amount.Some? { dbInc := dbInc.(Amount := ui.Amount.value); }
      if ui.Reoccurrence.Some? { dbInc := dbInc.(Reoccurrence := ui.Reoccurrence.value); }
      if ui.Duration.Some? { dbInc := dbInc.(Duration := ui.Duration.value); }
      if ui.ReoccurrenceType.Some? { dbInc := dbInc.(ReoccurrenceType := ui.ReoccurrenceType.value); }
      if ui.DurationType.Some? { dbInc := dbInc.(DurationType := ui.DurationType.value); }
      dbInc := dbInc.(DateUpdated := now);
      assert dbInc == Merge(found.value, ui, now);
      IncomeDb.SetColumnsOwnKeys(found.value, dbInc);
      var _ := store.Update(dbInc);
      err := None;
    }

    /** Delete: checks the ID, then deletes; an absent income is not an error. */
    method Delete(incomeID: string) returns (err: Option<Error>)
      requires store.table.Valid()
      modifies store.table
      ensures store.table.Valid()
      ensures !checkID(incomeID) ==> err == Some(ErrInvalidID) && store.table.rows == old(store.table.rows)
      ensures checkID(incomeID) ==>
        err == None && store.table.Contents() == old(store.table.Contents()) - {incomeID}
      ensures incomeID !in old(store.table.Contents()) ==> store.table.rows == old(store.table.rows)
    {
      if !checkID(incomeID) {
        return Some(ErrInvalidID);
      }
      var _ := store.Delete(incomeID);
      err := None;
    }

    /** Query: pageNumber and rowsPerPage go to the store unchecked; the page is converted. */
    method Query(pageNumber: Paging.Int64, rowsPerPage: Paging.Int64) returns (r: Result<seq<Income>, Error>)
      requires store.table.Valid()
      ensures var offset := Paging.Offset(pageNumber, rowsPerPage);
        if offset < 0 then r == Failure(StoreFailed(Rejected(NegativeOffset(offset))))
        else if rowsPerPage < 0 then r == Failure(StoreFailed(Rejected(NegativeFetch(rowsPerPage))))
        else r.Success? && Converted(Paging.Page(store.table.rows, offset, rowsPerPage), r.value)
    {
      var dbIncs := store.Query(pageNumber, rowsPerPage);
      if dbIncs.Failure? {
        return Failure(StoreFailed(dbIncs.error));
      }
      var incs := ToIncomeSlice(dbIncs.value);
      r := Success(incs);
    }

    /** QueryByID: checks the ID; the store's ErrDBNotFound becomes ErrNotFound. */
    method QueryByID(incomeID: string) returns (r: Result<Income, Error>)
      ensures !checkID(incomeID) ==> r == Failure(ErrInvalidID)
      ensures checkID(incomeID) && incomeID !in store.table.Contents() ==> r == Failure(ErrNotFound)
      ensures checkID(incomeID) && incomeID in store.table.Contents() ==>
        r == Success(ToIncome(store.table.Contents()[incomeID]))
    {
      if !checkID(incomeID) {
        return Failure(ErrInvalidID);
      }
      var found := store.QueryByID(incomeID);
      if found.Failure? {
        match found.error
        case ErrDBNotFound => return Failure(ErrNotFound);
      }
      r := Success(ToIncome(found.value));
    }

    /** QueryByUserID: checks the user ID, then returns that user's incomes converted. */
    method QueryByUserID(userID: string) returns (r: Result<seq<Income>, Error>)
      requires store.table.Valid()
      ensures !checkID(userID) ==> r == Failure(ErrInvalidID)
      ensures checkID(userID) ==> r.Success?
      ensures r.Success? ==>
        forall inc :: inc in r.value <==> FromIncome(inc) in store.table.rows && inc.UserID == userID
      ensures r.Success? ==> forall i, j :: 0 <= i < j < |r.value| ==> r.value[i].ID != r.value[j].ID
    {
      if !checkID(userID) {
        return Failure(ErrInvalidID);
      }
      var dbIncs := store.QueryByUserID(userID);
      var incs := ToIncomeSlice(dbIncs.value);
      forall inc ensures inc in incs <==> FromIncome(inc) in store.table.rows && inc.UserID == userID {
        ConvertedMembers(dbIncs.value, incs, inc);
      }
      r := Success(incs);
    }
  }
}
