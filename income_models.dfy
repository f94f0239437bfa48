/**
 * The API-facing income records of package business/core/income: the record
 * handed to clients, the create and update payloads with the rules their
 * `validate` tags impose, and the conversion from table rows.
 */
module IncomeModels {

  import opened Wrappers
  import IncomeDb

  /** An income as handlers return it (same fields as the table row). */
  datatype Income = Income(
    ID: string,
    Name: string,
    Category: string,
    Currency: string,
    Amount: int,
    Reoccurrence: int,
    Duration: int,
    ReoccurrenceType: string,
    DurationType: string,
    UserID: string,
    DateCreated: int,
    DateUpdated: int)

  /** What a client sends to add an income. */
  datatype NewIncome = NewIncome(
    Name: string,
    Category: string,
    Currency: string,
    Amount: int,
    Reoccurrence: int,
    Duration: int,
    ReoccurrenceType: string,
    DurationType: string,
    UserID: string)

  /** What a client sends to change an income; None is a field left out (a nil pointer). */
  datatype UpdateIncome = UpdateIncome(
    Name: Option<string>,
    Category: Option<string>,
    Currency: Option<string>,
    Amount: Option<int>,
    Reoccurrence: Option<int>,
    Duration: Option<int>,
    ReoccurrenceType: Option<string>,
    DurationType: Option<string>)

  /** The validated fields, reported under their JSON names (name, category, ..., user_id). */
  datatype Field = Name | Category | Currency | Amount | Reoccurrence | Duration | UserID

  /** The two tags in use: `required` and `gte`. */
  datatype Tag = Required | Gte

  /** One failed rule: the field and the tag that failed. */
  datatype FieldError = FieldError(field: Field, tag: Tag)

  /** `validate:"required"` on a string: the empty string fails. */
  function RequireString(field: Field, value: string): seq<FieldError> {
    if value == "" then [FieldError(field, Required)] else []
  }

  /** `validate:"omitempty,gte=1"` on an int: zero is skipped, anything else must be at least 1. */
  function OmitEmptyAtLeastOne(field: Field, value: int): seq<FieldError> {
    if value == 0 || value >= 1 then [] else [FieldError(field, Gte)]
  }

  /** `validate:"required"` on a pointer: only nil fails. */
  function RequirePointer<T>(field: Field, value: Option<T>): seq<FieldError> {
    if value.None? then [FieldError(field, Required)] else []
  }

  /** The `required` failures among name, category and currency. */
  function LeadingStringErrors(ni: NewIncome): (errs: seq<FieldError>)
    ensures forall e :: e in errs ==> e.tag == Required
    ensures FieldError(Name, Required) in errs <==> ni.Name == ""
    ensures FieldError(Category, Required) in errs <==> ni.Category == ""
    ensures FieldError(Currency, Required) in errs <==> ni.Currency == ""
    ensures errs == [] <==> ni.Name != "" && ni.Category != "" && ni.Currency != ""
  {
    RequireString(Name, ni.Name) + RequireString(Category, ni.Category) + RequireString(Currency, ni.Currency)
  }

  /** The `gte` failures among amount, reoccurrence and duration. */
  function CountErrors(ni: NewIncome): (errs: seq<FieldError>)
    ensures forall e :: e in errs ==> e.tag == Gte
    ensures FieldError(Amount, Gte) in errs <==> ni.Amount < 0
    ensures FieldError(Reoccurrence, Gte) in errs <==> ni.Reoccurrence < 0
    ensures FieldError(Duration, Gte) in errs <==> ni.Duration < 0
    ensures errs == [] <==> ni.Amount >= 0 && ni.Reoccurrence >= 0 && ni.Duration >= 0
  {
    OmitEmptyAtLeastOne(Amount, ni.Amount) + OmitEmptyAtLeastOne(Reoccurrence, ni.Reoccurrence)
    + OmitEmptyAtLeastOne(Duration, ni.Duration)
  }

  /** The field errors validate.Check reports for a NewIncome, in field order. */
  function CheckNewIncome(ni: NewIncome): (errs: seq<FieldError>)
    ensures errs == [] <==>
      && ni.Name != "" && ni.Category != "" && ni.Currency != "" && ni.UserID != ""
      && ni.Amount >= 0 && ni.Reoccurrence >= 0 && ni.Duration >= 0
    ensures FieldError(Name, Required) in errs <==> ni.Name == ""
    ensures FieldError(Category, Required) in errs <==> ni.Category == ""
    ensures FieldError(Currency, Required) in errs <==> ni.Currency == ""
    ensures FieldError(UserID, Required) in errs <==> ni.UserID == ""
    ensures FieldError(Amount, Gte) in errs <==> ni.Amount < 0
    ensures FieldError(Reoccurrence, Gte) in errs <==> ni.Reoccurrence < 0
    ensures FieldError(Duration, Gte) in errs <==> ni.Duration < 0
  {
    LeadingStringErrors(ni) + CountErrors(ni) + RequireString(UserID, ni.UserID)
  }

  /** The field errors validate.Check reports for an UpdateIncome, in field order. */
  function CheckUpdateIncome(ui: UpdateIncome): (errs: seq<FieldError>)
    ensures errs == [] <==> ui.Category.Some? && ui.Currency.Some? && ui.Amount.Some?
    ensures |errs| <= 3
  {
    RequirePointer(Category, ui.Category) + RequirePointer(Currency, ui.Currency)
    + RequirePointer(Amount, ui.Amount)
  }

  /** The update that names no field at all. */
  const NoChanges: UpdateIncome := UpdateIncome(None, None, None, None, None, None, None, None)

  /**
   * The type comment calls every field optional, but the tags make category,
   * currency and amount mandatory: the empty update is refused three times over.
   */
  lemma EmptyUpdateRefused()
    ensures CheckUpdateIncome(NoChanges) ==
      [FieldError(Category, Required), FieldError(Currency, Required), FieldError(Amount, Required)]
  {
  }

  /** The two type fields carry no rule. */
  lemma TypesUnchecked(ni: NewIncome, reoccurrenceType: string, durationType: string)
    ensures CheckNewIncome(ni.(ReoccurrenceType := reoccurrenceType, DurationType := durationType)) == CheckNewIncome(ni)
  {
  }

  // ---------------------------------------------------------------------------
  // Conversion between table rows and API records

  /** toIncome: the table row as an API record, field for field. */
  function ToIncome(dbInc: IncomeDb.Income): (inc: Income)
    ensures FromIncome(inc) == dbInc
  {
    Income(dbInc.ID, dbInc.Name, dbInc.Category, dbInc.Currency, dbInc.Amount, dbInc.Reoccurrence,
           dbInc.Duration, dbInc.ReoccurrenceType, dbInc.DurationType, dbInc.UserID,
           dbInc.DateCreated, dbInc.DateUpdated)
  }

  /** The inverse of ToIncome: the API record as a table row. */
  function FromIncome(inc: Income): (dbInc: IncomeDb.Income) {
    IncomeDb.Income(inc.ID, inc.Name, inc.Category, inc.Currency, inc.Amount, inc.Reoccurrence,
                    inc.Duration, inc.ReoccurrenceType, inc.DurationType, inc.UserID,
                    inc.DateCreated, inc.DateUpdated)
  }

  /** Converting to an API record and back loses nothing in either direction. */
  lemma ToIncomeBijective(dbInc: IncomeDb.Income, inc: Income)
    ensures FromIncome(ToIncome(dbInc)) == dbInc
    ensures ToIncome(FromIncome(inc)) == inc
    ensures ToIncome(dbInc) == inc <==> dbInc == FromIncome(inc)
  {
  }

  /** `incs` is `dbIncs` converted element by element, in the same order. */
  ghost predicate Converted(dbIncs: seq<IncomeDb.Income>, incs: seq<Income>) {
    |incs| == |dbIncs| && forall i :: 0 <= i < |dbIncs| ==> incs[i] == ToIncome(dbIncs[i])
  }

  /** toIncomeSlice: allocates a slice of the same length and converts each row into it. */
  method ToIncomeSlice(dbIncs: seq<IncomeDb.Income>) returns (incs: seq<Income>)
    ensures Converted(dbIncs, incs)
  {
    var a := new Income[|dbIncs|];
    for i := 0 to |dbIncs|
      invariant forall j :: 0 <= j < i ==> a[j] == ToIncome(dbIncs[j])
    {
      a[i] := ToIncome(dbIncs[i]);
    }
    incs := a[..];
  }

  /** An API record is in a converted slice exactly when its row is among the rows converted. */
  lemma ConvertedMembers(dbIncs: seq<IncomeDb.Income>, incs: seq<Income>, inc: Income)
    requires Converted(dbIncs, incs)
    ensures inc in incs <==> FromIncome(inc) in dbIncs
  {
    if inc in incs {
      var i :| 0 <= i < |incs| && incs[i] == inc;
      assert dbIncs[i] == FromIncome(inc);
    }
    if FromIncome(inc) in dbIncs {
      var i :| 0 <= i < |dbIncs| && dbIncs[i] == FromIncome(inc);
      assert incs[i] == inc;
    }
  }

  /** A converted slice determines the rows it came from. */
  lemma {:induction false} ConvertedInjective(xs: seq<IncomeDb.Income>, ys: seq<IncomeDb.Income>, incs: seq<Income>)
    requires Converted(xs, incs) && Converted(ys, incs)
    ensures xs == ys
  {
    forall i | 0 <= i < |xs| ensures xs[i] == ys[i] {
      assert FromIncome(incs[i]) == xs[i] && FromIncome(incs[i]) == ys[i];
    }
  }
}
