/**
 * The API-facing expense records of package business/core/expense: the record
 * handed to clients, the create and update payloads with the rules their
 * `validate` tags impose, and the conversion from table rows.
 */
module ExpenseModels {

  import opened Wrappers
  import ExpenseDb

  /** An expense as handlers return it (same fields as the table row). */
  datatype Expense = Expense(
    ID: string,
    Name: string,
    Category: string,
    Currency: string,
    Amount: int,
    Reoccurrence: int,
    Duration: int,
    ReoccurrenceType: string,
    DurationType: string,
    UserID: string,
    DateCreated: int,
    DateUpdated: int)

  /** What a client sends to add an expense. */
  datatype NewExpense = NewExpense(
    Name: string,
    Category: string,
    Currency: string,
    Amount: int,
    Reoccurrence: int,
    Duration: int,
    ReoccurrenceType: string,
    DurationType: string,
    UserID: string)

  /** What a client sends to change an expense; None is a field left out (a nil pointer). */
  datatype UpdateExpense = UpdateExpense(
    Name: Option<string>,
    Category: Option<string>,
    Currency: Option<string>,
    Amount: Option<int>,
    Reoccurrence: Option<int>,
    Duration: Option<int>,
    ReoccurrenceType: Option<string>,
    DurationType: Option<string>)

  /** The validated fields, reported under their JSON names (name, category, ..., user_id). */
  datatype Field = Name | Category | Currency | Amount | Reoccurrence | Duration | UserID

  /** The two tags in use: `required` and `gte`. */
  datatype Tag = Required | Gte

  /** One failed rule: the field and the tag that failed. */
  datatype FieldError = FieldError(field: Field, tag: Tag)

  /** `validate:"required"` on a string: the empty string fails. */
  function RequireString(field: Field, value: string): seq<FieldError> {
    if value == "" then [FieldError(field, Required)] else []
  }

  /** `validate:"omitempty,gte=1"` on an int: zero is skipped, anything else must be at least 1. */
  function OmitEmptyAtLeastOne(field: Field, value: int): seq<FieldError> {
    if value == 0 || value >= 1 then [] else [FieldError(field, Gte)]
  }

  /** `validate:"required"` on a pointer: only nil fails. */
  function RequirePointer<T>(field: Field, value: Option<T>): seq<FieldError> {
    if value.None? then [FieldError(field, Required)] else []
  }

  /** The `required` failures among name, category and currency. */
  function LeadingStringErrors(ne: NewExpense): (errs: seq<FieldError>)
    ensures forall e :: e in errs ==> e.tag == Required
    ensures FieldError(Name, Required) in errs <==> ne.Name == ""
    ensures FieldError(Category, Required) in errs <==> ne.Category == ""
    ensures FieldError(Currency, Required) in errs <==> ne.Currency == ""
    ensures errs == [] <==> ne.Name != "" && ne.Category != "" && ne.Currency != ""
  {
    RequireString(Name, ne.Name) + RequireString(Category, ne.Category) + RequireString(Currency, ne.Currency)
  }

  /** The `gte` failures among amount, reoccurrence and duration. */
  function CountErrors(ne: NewExpense): (errs: seq<FieldError>)
    ensures forall e :: e in errs ==> e.tag == Gte
    ensures FieldError(Amount, Gte) in errs <==> ne.Amount < 0
    ensures FieldError(Reoccurrence, Gte) in errs <==> ne.Reoccurrence < 0
    ensures FieldError(Duration, Gte) in errs <==> ne.Duration < 0
    ensures errs == [] <==> ne.Amount >= 0 && ne.Reoccurrence >= 0 && ne.Duration >= 0
  {
    OmitEmptyAtLeastOne(Amount, ne.Amount) + OmitEmptyAtLeastOne(Reoccurrence, ne.Reoccurrence)
    + OmitEmptyAtLeastOne(Duration, ne.Duration)
  }

  /** The field errors validate.Check reports for a NewExpense, in field order. */
  function CheckNewExpense(ne: NewExpense): (errs: seq<FieldError>)
    ensures errs == [] <==>
      && ne.Name != "" && ne.Category != "" && ne.Currency != "" && ne.UserID != ""
      && ne.Amount >= 0 && ne.Reoccurrence >= 0 && ne.Duration >= 0
    ensures FieldError(Name, Required) in errs <==> ne.Name == ""
    ensures FieldError(Category, Required) in errs <==> ne.Category == ""
    ensures FieldError(Currency, Required) in errs <==> ne.Currency == ""
    ensures FieldError(UserID, Required) in errs <==> ne.UserID == ""
    ensures FieldError(Amount, Gte) in errs <==> ne.Amount < 0
    ensures FieldError(Reoccurrence, Gte) in errs <==> ne.Reoccurrence < 0
    ensures FieldError(Duration, Gte) in errs <==> ne.Duration < 0
  {
    LeadingStringErrors(ne) + CountErrors(ne) + RequireString(UserID, ne.UserID)
  }

  /** The field errors validate.Check reports for an UpdateExpense, in field order. */
  function CheckUpdateExpense(ue: UpdateExpense): (errs: seq<FieldError>)
    ensures errs == [] <==> ue.Category.Some? && ue.Currency.Some? && ue.Amount.Some?
    ensures |errs| <= 3
  {
    RequirePointer(Category, ue.Category) + RequirePointer(Currency, ue.Currency)
    + RequirePointer(Amount, ue.Amount)
  }

  /** The update that names no field at all. */
  const NoChanges: UpdateExpense := UpdateExpense(None, None, None, None, None, None, None, None)

  /**
   * The type comment calls every field optional, but the tags make category,
   * currency and amount mandatory: the empty update is refused three times over.
   */
  lemma EmptyUpdateRefused()
    ensures CheckUpdateExpense(NoChanges) ==
      [FieldError(Category, Required), FieldError(Currency, Required), FieldError(Amount, Required)]
  {
  }

  /** The two type fields carry no rule. */
  lemma TypesUnchecked(ne: NewExpense, reoccurrenceType: string, durationType: string)
    ensures CheckNewExpense(ne.(ReoccurrenceType := reoccurrenceType, DurationType := durationType)) == CheckNewExpense(ne)
  {
  }

  // ---------------------------------------------------------------------------
  // Conversion between table rows and API records

  /** toExpense: the table row as an API record, field for field. */
  function ToExpense(dbExp: ExpenseDb.Expense): (exp: Expense)
    ensures FromExpense(exp) == dbExp
  {
    Expense(dbExp.ID, dbExp.Name, dbExp.Category, dbExp.Currency, dbExp.Amount, dbExp.Reoccurrence,
           dbExp.Duration, dbExp.ReoccurrenceType, dbExp.DurationType, dbExp.UserID,
           dbExp.DateCreated, dbExp.DateUpdated)
  }

  /** The inverse of ToExpense: the API record as a table row. */
  function FromExpense(exp: Expense): (dbExp: ExpenseDb.Expense) {
    ExpenseDb.Expense(exp.ID, exp.Name, exp.Category, exp.Currency, exp.Amount, exp.Reoccurrence,
                    exp.Duration, exp.ReoccurrenceType, exp.DurationType, exp.UserID,
                    exp.DateCreated, exp.DateUpdated)
  }

  /** Converting to an API record and back loses nothing in either direction. */
  lemma ToExpenseBijective(dbExp: ExpenseDb.Expense, exp: Expense)
    ensures FromExpense(ToExpense(dbExp)) == dbExp
    ensures ToExpense(FromExpense(exp)) == exp
    ensures ToExpense(dbExp) == exp <==> dbExp == FromExpense(exp)
  {
  }

  /** `exps` is `dbExps` converted element by element, in the same order. */
  ghost predicate Converted(dbExps: seq<ExpenseDb.Expense>, exps: seq<Expense>) {
    |exps| == |dbExps| && forall i :: 0 <= i < |dbExps| ==> exps[i] == ToExpense(dbExps[i])
  }

  /** toExpenseSlice: allocates a slice of the same length and converts each row into it. */
  method ToExpenseSlice(dbExps: seq<ExpenseDb.Expense>) returns (exps: seq<Expense>)
    ensures Converted(dbExps, exps)
  {
    var a := new Expense[|dbExps|];
    for i := 0 to |dbExps|
      invariant forall j :: 0 <= j < i ==> a[j] == ToExpense(dbExps[j])
    {
      a[i] := ToExpense(dbExps[i]);
    }
    exps := a[..];
  }

  /** An API record is in a converted slice exactly when its row is among the rows converted. */
  lemma ConvertedMembers(dbExps: seq<ExpenseDb.Expense>, exps: seq<Expense>, exp: Expense)
    requires Converted(dbExps, exps)
    ensures exp in exps <==> FromExpense(exp) in dbExps
  {
    if exp in exps {
      var i :| 0 <= i < |exps| && exps[i] == exp;
      assert dbExps[i] == FromExpense(exp);
    }
    if FromExpense(exp) in dbExps {
      var i :| 0 <= i < |dbExps| && dbExps[i] == FromExpense(exp);
      assert exps[i] == exp;
    }
  }

  /** A converted slice determines the rows it came from. */
  lemma {:induction false} ConvertedInjective(xs: seq<ExpenseDb.Expense>, ys: seq<ExpenseDb.Expense>, exps: seq<Expense>)
    requires Converted(xs, exps) && Converted(ys, exps)
    ensures xs == ys
  {
    forall i | 0 <= i < |xs| ensures xs[i] == ys[i] {
      assert FromExpense(exps[i]) == xs[i] && FromExpense(exps[i]) == ys[i];
    }
  }
}
