/**
 * The expense HTTP handlers (package expensegrp) as decisions. Each handler is a
 * function of what its collaborators returned: the request values and claims
 * from the context, the decoded body, the path parameters and their parse, and
 * the results of the core calls it makes. It yields the core calls made, in
 * order, and the response; the table effects of those calls are the core's.
 */
module ExpenseGrp {

  import opened Wrappers
  import opened Auth
  import opened Web
  import opened ExpenseModels
  import ExpenseCore
  import Paging

  /** Why a handler fails. */
  datatype Cause =
    | Forbidden                      // auth.ErrForbidden
    | CoreError(e: ExpenseCore.Error)
    | InvalidPage(page: string)      // "invalid page format"
    | InvalidRows(rows: string)      // "invalid rows format"
    | DecodeFailed                   // "unable to decode payload"

  datatype Body = NoBody | One(exp: Expense) | Many(exps: seq<Expense>)

  /** What a handler returns. */
  datatype Response =
    | Respond(status: int, body: Body)          // web.Respond
    | RequestError(cause: Cause, status: int)   // v1Web.NewRequestError: a trusted error and its status
    | ShutdownError(message: string)            // web.NewShutdownError
    | Wrapped(cause: Cause)                     // any other error, wrapped by fmt.Errorf

  /** A call into the expense core. */
  datatype CoreCall =
    | CallCreate(ne: NewExpense, now: int)
    | CallUpdate(id: string, upd: UpdateExpense, now: int)
    | CallDelete(id: string)
    | CallQuery(pageNumber: int, rowsPerPage: int)
    | CallQueryByID(id: string)

  datatype Run = Run(calls: seq<CoreCall>, response: Response)

  /** Some call changes the expenses table. */
  ghost predicate Writes(calls: seq<CoreCall>) {
    exists k :: 0 <= k < |calls| && (calls[k].CallCreate? || calls[k].CallUpdate? || calls[k].CallDelete?)
  }

  const MissingValues: string := "web value missing from context"

  /** A refusal with 403. */
  predicate IsForbidden(resp: Response) {
    resp == RequestError(Forbidden, StatusForbidden)
  }

  /** The switch on a core error: a bad ID is 400, a missing expense 404, anything else is wrapped. */
  function CoreFailure(e: ExpenseCore.Error): (resp: Response)
    ensures resp.RequestError? <==> e == ExpenseCore.ErrInvalidID || e == ExpenseCore.ErrNotFound
    ensures resp.RequestError? ==> resp.cause == CoreError(e)
    ensures resp.RequestError? ==> resp.status == (if e == ExpenseCore.ErrInvalidID then StatusBadRequest else StatusNotFound)
    ensures resp.Wrapped? <==> !resp.RequestError?
    ensures resp.Wrapped? ==> resp.cause == CoreError(e)
  {
    match e
    case ErrInvalidID => RequestError(CoreError(e), StatusBadRequest)
    case ErrNotFound => RequestError(CoreError(e), StatusNotFound)
    case _ => Wrapped(CoreError(e))
  }

  /** The ownership test of Update and Delete: a non-admin who does not own the expense is refused. */
  predicate Refuses(c: Claims, ownerID: string) {
    !AuthorizedByRole(c, RoleAdmin) && ownerID != c.subject
  }

  /** Create: POST /expenses. */
  function Create(values: Option<Values>, decoded: Option<NewExpense>,
                  created: Result<Expense, ExpenseCore.Error>): (run: Run)
    ensures values.None? ==> run == Run([], ShutdownError(MissingValues))
    ensures values.Some? && decoded.None? ==> run == Run([], Wrapped(DecodeFailed))
    ensures values.Some? && decoded.Some? ==> run.calls == [CallCreate(decoded.value, values.value.now)]
    ensures run.response.Respond? <==> values.Some? && decoded.Some? && created.Success?
    ensures run.response.Respond? ==> run.response == Respond(StatusCreated, One(created.value))
    ensures values.Some? && decoded.Some? && created.Failure? ==> run.response == Wrapped(CoreError(created.error))
  {
    if values.None? then Run([], ShutdownError(MissingValues))
    else if decoded.None? then Run([], Wrapped(DecodeFailed))
    else
      var calls := [CallCreate(decoded.value, values.value.now)];
      if created.Failure? then Run(calls, Wrapped(CoreError(created.error)))
      else Run(calls, Respond(StatusCreated, One(created.value)))
  }

  /** Update: PUT /expenses/:id. Looks the expense up, refuses a non-admin caller who does not own it, then calls the core. */
  function Update(values: Option<Values>, claims: Option<Claims>, decoded: Option<UpdateExpense>, id: string,
                  lookup: Result<Expense, ExpenseCore.Error>, updated: Option<ExpenseCore.Error>): (run: Run)
    ensures values.None? ==> run == Run([], ShutdownError(MissingValues))
    ensures values.Some? && claims.None? ==> run == Run([], RequestError(Forbidden, StatusForbidden))
    ensures values.Some? && claims.Some? && decoded.None? ==> run == Run([], Wrapped(DecodeFailed))
    ensures values.Some? && claims.Some? && decoded.Some? ==> |run.calls| >= 1 && run.calls[0] == CallQueryByID(id)
    ensures values.Some? && claims.Some? && decoded.Some? && lookup.Failure? ==>
      run == Run([CallQueryByID(id)], CoreFailure(lookup.error))
    ensures values.Some? && claims.Some? && decoded.Some? && lookup.Success? && !AdminOrOwner(claims.value, lookup.value.UserID) ==>
      run == Run([CallQueryByID(id)], RequestError(Forbidden, StatusForbidden))
    ensures Writes(run.calls) <==>
      values.Some? && claims.Some? && decoded.Some? && lookup.Success? && AdminOrOwner(claims.value, lookup.value.UserID)
    ensures Writes(run.calls) ==>
      run.calls == [CallQueryByID(id), CallUpdate(id, decoded.value, values.value.now)] &&
      run.response == if updated.Some? then CoreFailure(updated.value) else Respond(StatusNoContent, NoBody)
    ensures IsForbidden(run.response) ==> !Writes(run.calls)
  {
    if values.None? then Run([], ShutdownError(MissingValues))
    else if claims.None? then Run([], RequestError(Forbidden, StatusForbidden))
    else if decoded.None? then Run([], Wrapped(DecodeFailed))
    else
      var lookedUp := [CallQueryByID(id)];
      if lookup.Failure? then Run(lookedUp, CoreFailure(lookup.error))
      else if Refuses(claims.value, lookup.value.UserID) then Run(lookedUp, RequestError(Forbidden, StatusForbidden))
      else
        var calls := lookedUp + [CallUpdate(id, decoded.value, values.value.now)];
        assert calls[1].CallUpdate?;
        if updated.Some? then Run(calls, CoreFailure(updated.value))
        else Run(calls, Respond(StatusNoContent, NoBody))
  }

  /**
   * Delete: DELETE /expenses/:id. A missing expense answers 204, like a
   * successful delete; a non-admin who does not own the expense is refused.
   */
  function Delete(claims: Option<Claims>, id: string,
                  lookup: Result<Expense, ExpenseCore.Error>, deleted: Option<ExpenseCore.Error>): (run: Run)
    ensures claims.None? ==> run == Run([], RequestError(Forbidden, StatusForbidden))
    ensures claims.Some? ==> |run.calls| >= 1 && run.calls[0] == CallQueryByID(id)
    ensures claims.Some? && lookup == Failure(ExpenseCore.ErrNotFound) ==>
      run == Run([CallQueryByID(id)], RequestError(CoreError(ExpenseCore.ErrNotFound), StatusNoContent))
    ensures claims.Some? && lookup == Failure(ExpenseCore.ErrInvalidID) ==>
      run.response == RequestError(CoreError(ExpenseCore.ErrInvalidID), StatusBadRequest)
    ensures claims.Some? && lookup.Failure? && lookup.error != ExpenseCore.ErrNotFound && lookup.error != ExpenseCore.ErrInvalidID ==>
      run == Run([CallQueryByID(id)], Wrapped(CoreError(lookup.error)))
    ensures claims.Some? && lookup.Success? && !AdminOrOwner(claims.value, lookup.value.UserID) ==>
      run == Run([CallQueryByID(id)], RequestError(Forbidden, StatusForbidden))
    ensures Writes(run.calls) <==> claims.Some? && lookup.Success? && AdminOrOwner(claims.value, lookup.value.UserID)
    ensures Writes(run.calls) ==> run.calls == [CallQueryByID(id), CallDelete(id)]
    ensures Writes(run.calls) && deleted.None? ==> run.response == Respond(StatusNoContent, NoBody)
    ensures Writes(run.calls) && deleted.Some? ==>
      run.response == if deleted.value == ExpenseCore.ErrInvalidID
        then RequestError(CoreError(deleted.value), StatusBadRequest) else Wrapped(CoreError(deleted.value))
    ensures IsForbidden(run.response) ==> !Writes(run.calls)
  {
    if claims.None? then Run([], RequestError(Forbidden, StatusForbidden))
    else
      var lookedUp := [CallQueryByID(id)];
      if lookup.Failure? then
        Run(lookedUp,
          match lookup.error
          case ErrInvalidID => RequestError(CoreError(lookup.error), StatusBadRequest)
          case ErrNotFound => RequestError(CoreError(lookup.error), StatusNoContent)
          case _ => Wrapped(CoreError(lookup.error)))
      else if Refuses(claims.value, lookup.value.UserID) then Run(lookedUp, RequestError(Forbidden, StatusForbidden))
      else
        var calls := lookedUp + [CallDelete(id)];
        assert calls[1].CallDelete?;
        if deleted.Some? then
          Run(calls,
            match deleted.value
            case ErrInvalidID => RequestError(CoreError(deleted.value), StatusBadRequest)
            case _ => Wrapped(CoreError(deleted.value)))
        else Run(calls, Respond(StatusNoContent, NoBody))
  }

  /** Query: GET /expenses/:page/:rows. A page or row count that does not parse is a 400 before the core is called. */
  function Query(page: string, pageNumber: Option<Paging.Int64>, rows: string, rowsPerPage: Option<Paging.Int64>,
                 queried: Result<seq<Expense>, ExpenseCore.Error>): (run: Run)
    ensures pageNumber.None? ==> run == Run([], RequestError(InvalidPage(page), StatusBadRequest))
    ensures pageNumber.Some? && rowsPerPage.None? ==> run == Run([], RequestError(InvalidRows(rows), StatusBadRequest))
    ensures run.calls != [] <==> pageNumber.Some? && rowsPerPage.Some?
    ensures run.calls != [] ==> run.calls == [CallQuery(pageNumber.value, rowsPerPage.value)]
    ensures run.response.Respond? <==> run.calls != [] && queried.Success?
    ensures run.response.Respond? ==> run.response == Respond(StatusOK, Many(queried.value))
    ensures run.calls != [] && queried.Failure? ==> run.response == Wrapped(CoreError(queried.error))
  {
    if pageNumber.None? then Run([], RequestError(InvalidPage(page), StatusBadRequest))
    else if rowsPerPage.None? then Run([], RequestError(InvalidRows(rows), StatusBadRequest))
    else
      var calls := [CallQuery(pageNumber.value, rowsPerPage.value)];
      if queried.Failure? then Run(calls, Wrapped(CoreError(queried.error)))
      else Run(calls, Respond(StatusOK, Many(queried.value)))
  }

  /** QueryByID: GET /expenses/:id. */
  function QueryByID(id: string, lookup: Result<Expense, ExpenseCore.Error>): (run: Run)
    ensures run.calls == [CallQueryByID(id)]
    ensures lookup.Success? ==> run.response == Respond(StatusOK, One(lookup.value))
    ensures lookup.Failure? ==> run.response == CoreFailure(lookup.error)
  {
    Run([CallQueryByID(id)], if lookup.Success? then Respond(StatusOK, One(lookup.value)) else CoreFailure(lookup.error))
  }

  /** Update and Delete let through exactly the same callers. */
  lemma UpdateAgreesWithDelete(values: Values, c: Claims, upd: UpdateExpense, id: string, exp: Expense,
                               updated: Option<ExpenseCore.Error>, deleted: Option<ExpenseCore.Error>)
    ensures IsForbidden(Update(Some(values), Some(c), Some(upd), id, Success(exp), updated).response)
        <==> IsForbidden(Delete(Some(c), id, Success(exp), deleted).response)
  {
    var u := Update(Some(values), Some(c), Some(upd), id, Success(exp), updated);
    var d := Delete(Some(c), id, Success(exp), deleted);
    if AdminOrOwner(c, exp.UserID) {
      assert u.calls[1].CallUpdate? && d.calls[1].CallDelete?;
    }
  }
}
