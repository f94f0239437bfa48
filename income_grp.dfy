/**
 * The income HTTP handlers (package incomegrp) as decisions. Each handler is a
 * function of what its collaborators returned: the request values and claims
 * from the context, the decoded body, the path parameters and their parse, and
 * the results of the core calls it makes. It yields the core calls made, in
 * order, and the response; the table effects of those calls are the core's.
 */
module IncomeGrp {

  import opened Wrappers
  import opened Auth
  import opened Web
  import opened IncomeModels
  import IncomeCore
  import Paging

  /** Why a handler fails. */
  datatype Cause =
    | Forbidden                      // auth.ErrForbidden
    | CoreError(e: IncomeCore.Error)
    | InvalidPage(page: string)      // "invalid page format"
    | InvalidRows(rows: string)      // "invalid rows format"
    | DecodeFailed                   // "unable to decode payload"

  datatype Body = NoBody | One(inc: Income) | Many(incs: seq<Income>)

  /** What a handler returns. */
  datatype Response =
    | Respond(status: int, body: Body)          // web.Respond
    | RequestError(cause: Cause, status: int)   // v1Web.NewRequestError: a trusted error and its status
    | ShutdownError(message: string)            // web.NewShutdownError
    | Wrapped(cause: Cause)                     // any other error, wrapped by fmt.Errorf

  /** A call into the income core. */
  datatype CoreCall =
    | CallCreate(ni: NewIncome, now: int)
    | CallUpdate(id: string, upd: UpdateIncome, now: int)
    | CallDelete(id: string)
    | CallQuery(pageNumber: int, rowsPerPage: int)
    | CallQueryByID(id: string)
    | CallQueryByUserID(userID: string)

  datatype Run = Run(calls: seq<CoreCall>, response: Response)

  /** Some call changes the incomes table. */
  ghost predicate Writes(calls: seq<CoreCall>) {
    exists k :: 0 <= k < |calls| && (calls[k].CallCreate? || calls[k].CallUpdate? || calls[k].CallDelete?)
  }

  const MissingValues: string := "web value missing from context"

  /** A refusal with 403. */
  predicate IsForbidden(resp: Response) {
    resp == RequestError(Forbidden, StatusForbidden)
  }

  /** The switch on a core error: a bad ID is 400, a missing income 404, anything else is wrapped. */
  function CoreFailure(e: IncomeCore.Error): (resp: Response)
    ensures resp.RequestError? <==> e == IncomeCore.ErrInvalidID || e == IncomeCore.ErrNotFound
    ensures resp.RequestError? ==> resp.cause == CoreError(e)
    ensures resp.RequestError? ==> resp.status == (if e == IncomeCore.ErrInvalidID then StatusBadRequest else StatusNotFound)
    ensures resp.Wrapped? <==> !resp.RequestError?
    ensures resp.Wrapped? ==> resp.cause == CoreError(e)
  {
    match e
    case ErrInvalidID => RequestError(CoreError(e), StatusBadRequest)
    case ErrNotFound => RequestError(CoreError(e), StatusNotFound)
    case _ => Wrapped(CoreError(e))
  }

  /** The ownership test of Update as written: a non-admin who OWNS the income is refused. */
  predicate UpdateRefuses(c: Claims, ownerID: string) {
    !AuthorizedByRole(c, RoleAdmin) && AuthorizedByUserId(c, ownerID)
  }

  /** The ownership test of Delete and QueryByUserID: a non-admin who does not own it is refused. */
  predicate DeleteRefuses(c: Claims, ownerID: string) {
    !AuthorizedByRole(c, RoleAdmin) && !AuthorizedByUserId(c, ownerID)
  }

  /** Create: POST /incomes. */
  function Create(values: Option<Values>, decoded: Option<NewIncome>,
                  created: Result<Income, IncomeCore.Error>): (run: Run)
    ensures values.None? ==> run == Run([], ShutdownError(MissingValues))
    ensures values.Some? && decoded.None? ==> run == Run([], Wrapped(DecodeFailed))
    ensures values.Some? && decoded.Some? ==> run.calls == [CallCreate(decoded.value, values.value.now)]
    ensures run.response.Respond? <==> values.Some? && decoded.Some? && created.Success?
    ensures run.response.Respond? ==> run.response == Respond(StatusCreated, One(created.value))
    ensures values.Some? && decoded.Some? && created.Failure? ==> run.response == Wrapped(CoreError(created.error))
  {
    if values.None? then Run([], ShutdownError(MissingValues))
    else if decoded.None? then Run([], Wrapped(DecodeFailed))
    else
      var calls := [CallCreate(decoded.value, values.value.now)];
      if created.Failure? then Run(calls, Wrapped(CoreError(created.error)))
      else Run(calls, Respond(StatusCreated, One(created.value)))
  }

  /**
   * Update: PUT /incomes/:id, as written. Looks the income up, refuses a
   * non-admin caller who owns it, then calls the core's Update.
   */
  function Update(values: Option<Values>, claims: Option<Claims>, decoded: Option<UpdateIncome>, id: string,
                  lookup: Result<Income, IncomeCore.Error>, updated: Option<IncomeCore.Error>): (run: Run)
    ensures values.None? ==> run == Run([], ShutdownError(MissingValues))
    ensures values.Some? && claims.None? ==> run == Run([], RequestError(Forbidden, StatusForbidden))
    ensures values.Some? && claims.Some? && decoded.None? ==> run == Run([], Wrapped(DecodeFailed))
    ensures values.Some? && claims.Some? && decoded.Some? ==> |run.calls| >= 1 && run.calls[0] == CallQueryByID(id)
    ensures values.Some? && claims.Some? && decoded.Some? && lookup.Failure? ==>
      run == Run([CallQueryByID(id)], CoreFailure(lookup.error))
    ensures values.Some? && claims.Some? && decoded.Some? && lookup.Success? && UpdateRefuses(claims.value, lookup.value.UserID) ==>
      run == Run([CallQueryByID(id)], RequestError(Forbidden, StatusForbidden))
    ensures Writes(run.calls) <==>
      values.Some? && claims.Some? && decoded.Some? && lookup.Success? && !UpdateRefuses(claims.value, lookup.value.UserID)
    ensures Writes(run.calls) ==>
      run.calls == [CallQueryByID(id), CallUpdate(id, decoded.value, values.value.now)] &&
      run.response == if updated.Some? then CoreFailure(updated.value) else Respond(StatusNoContent, NoBody)
    ensures IsForbidden(run.response) ==> !Writes(run.calls)
  {
    if values.None? then Run([], ShutdownError(MissingValues))
    else if claims.None? then Run([], RequestError(Forbidden, StatusForbidden))
    else if decoded.None? then Run([], Wrapped(DecodeFailed))
    else
      var lookedUp := [CallQueryByID(id)];
      if lookup.Failure? then Run(lookedUp, CoreFailure(lookup.error))
      else if UpdateRefuses(claims.value, lookup.value.UserID) then Run(lookedUp, RequestError(Forbidden, StatusForbidden))
      else
        var calls := lookedUp + [CallUpdate(id, decoded.value, values.value.now)];
        assert calls[1].CallUpdate?;
        if updated.Some? then Run(calls, CoreFailure(updated.value))
        else Run(calls, Respond(StatusNoContent, NoBody))
  }

  /** Update with the admin-or-owner test that Delete uses: the evident intent. */
  function UpdateFixed(values: Option<Values>, claims: Option<Claims>, decoded: Option<UpdateIncome>, id: string,
                       lookup: Result<Income, IncomeCore.Error>, updated: Option<IncomeCore.Error>): (run: Run)
    ensures values.None? ==> run == Run([], ShutdownError(MissingValues))
    ensures values.Some? && claims.None? ==> run == Run([], RequestError(Forbidden, StatusForbidden))
    ensures values.Some? && claims.Some? && decoded.None? ==> run == Run([], Wrapped(DecodeFailed))
    ensures values.Some? && claims.Some? && decoded.Some? ==> |run.calls| >= 1 && run.calls[0] == CallQueryByID(id)
    ensures values.Some? && claims.Some? && decoded.Some? && lookup.Failure? ==>
      run == Run([CallQueryByID(id)], CoreFailure(lookup.error))
    ensures values.Some? && claims.Some? && decoded.Some? && lookup.Success? && !AdminOrOwner(claims.value, lookup.value.UserID) ==>
      run == Run([CallQueryByID(id)], RequestError(Forbidden, StatusForbidden))
    ensures Writes(run.calls) <==>
      values.Some? && claims.Some? && decoded.Some? && lookup.Success? && AdminOrOwner(claims.value, lookup.value.UserID)
    ensures Writes(run.calls) ==>
      run.calls == [CallQueryByID(id), CallUpdate(id, decoded.value, values.value.now)] &&
      run.response == if updated.Some? then CoreFailure(updated.value) else Respond(StatusNoContent, NoBody)
    ensures IsForbidden(run.response) ==> !Writes(run.calls)
  {
    if values.None? then Run([], ShutdownError(MissingValues))
    else if claims.None? then Run([], RequestError(Forbidden, StatusForbidden))
    else if decoded.None? then Run([], Wrapped(DecodeFailed))
    else
      var lookedUp := [CallQueryByID(id)];
      if lookup.Failure? then Run(lookedUp, CoreFailure(lookup.error))
      else if !AdminOrOwner(claims.value, lookup.value.UserID) then Run(lookedUp, RequestError(Forbidden, StatusForbidden))
      else
        var calls := lookedUp + [CallUpdate(id, decoded.value, values.value.now)];
        assert calls[1].CallUpdate?;
        if updated.Some? then Run(calls, CoreFailure(updated.value))
        else Run(calls, Respond(StatusNoContent, NoBody))
  }

  /**
   * Delete: DELETE /incomes/:id. A missing income answers 204, like a
   * successful delete; a non-admin who does not own the income is refused.
   */
  function Delete(claims: Option<Claims>, id: string,
                  lookup: Result<Income, IncomeCore.Error>, deleted: Option<IncomeCore.Error>): (run: Run)
    ensures claims.None? ==> run == Run([], RequestError(Forbidden, StatusForbidden))
    ensures claims.Some? ==> |run.calls| >= 1 && run.calls[0] == CallQueryByID(id)
    ensures claims.Some? && lookup == Failure(IncomeCore.ErrNotFound) ==>
      run == Run([CallQueryByID(id)], RequestError(CoreError(IncomeCore.ErrNotFound), StatusNoContent))
    ensures claims.Some? && lookup == Failure(IncomeCore.ErrInvalidID) ==>
      run.response == RequestError(CoreError(IncomeCore.ErrInvalidID), StatusBadRequest)
    ensures claims.Some? && lookup.Failure? && lookup.error != IncomeCore.ErrNotFound && lookup.error != IncomeCore.ErrInvalidID ==>
      run == Run([CallQueryByID(id)], Wrapped(CoreError(lookup.error)))
    ensures claims.Some? && lookup.Success? && !AdminOrOwner(claims.value, lookup.value.UserID) ==>
      run == Run([CallQueryByID(id)], RequestError(Forbidden, StatusForbidden))
    ensures Writes(run.calls) <==> claims.Some? && lookup.Success? && AdminOrOwner(claims.value, lookup.value.UserID)
    ensures Writes(run.calls) ==> run.calls == [CallQueryByID(id), CallDelete(id)]
    ensures Writes(run.calls) && deleted.None? ==> run.response == Respond(StatusNoContent, NoBody)
    ensures Writes(run.calls) && deleted.Some? ==>
      run.response == if deleted.value == IncomeCore.ErrInvalidID
        then RequestError(CoreError(deleted.value), StatusBadRequest) else Wrapped(CoreError(deleted.value))
    ensures IsForbidden(run.response) ==> !Writes(run.calls)
  {
    if claims.None? then Run([], RequestError(Forbidden, StatusForbidden))
    else
      var lookedUp := [CallQueryByID(id)];
      if lookup.Failure? then
        Run(lookedUp,
          match lookup.error
          case ErrInvalidID => RequestError(CoreError(lookup.error), StatusBadRequest)
          case ErrNotFound => RequestError(CoreError(lookup.error), StatusNoContent)
          case _ => Wrapped(CoreError(lookup.error)))
      else if DeleteRefuses(claims.value, lookup.value.UserID) then Run(lookedUp, RequestError(Forbidden, StatusForbidden))
      else
        var calls := lookedUp + [CallDelete(id)];
        assert calls[1].CallDelete?;
        if deleted.Some? then
          Run(calls,
            match deleted.value
            case ErrInvalidID => RequestError(CoreError(deleted.value), StatusBadRequest)
            case _ => Wrapped(CoreError(deleted.value)))
        else Run(calls, Respond(StatusNoContent, NoBody))
  }

  /** Query: GET /incomes/:page/:rows. A page or row count that does not parse is a 400 before the core is called. */
  function Query(page: string, pageNumber: Option<Paging.Int64>, rows: string, rowsPerPage: Option<Paging.Int64>,
                 queried: Result<seq<Income>, IncomeCore.Error>): (run: Run)
    ensures pageNumber.None? ==> run == Run([], RequestError(InvalidPage(page), StatusBadRequest))
    ensures pageNumber.Some? && rowsPerPage.None? ==> run == Run([], RequestError(InvalidRows(rows), StatusBadRequest))
    ensures run.calls != [] <==> pageNumber.Some? && rowsPerPage.Some?
    ensures run.calls != [] ==> run.calls == [CallQuery(pageNumber.value, rowsPerPage.value)]
    ensures run.response.Respond? <==> run.calls != [] && queried.Success?
    ensures run.response.Respond? ==> run.response == Respond(StatusOK, Many(queried.value))
    ensures run.calls != [] && queried.Failure? ==> run.response == Wrapped(CoreError(queried.error))
  {
    if pageNumber.None? then Run([], RequestError(InvalidPage(page), StatusBadRequest))
    else if rowsPerPage.None? then Run([], RequestError(InvalidRows(rows), StatusBadRequest))
    else
      var calls := [CallQuery(pageNumber.value, rowsPerPage.value)];
      if queried.Failure? then Run(calls, Wrapped(CoreError(queried.error)))
      else Run(calls, Respond(StatusOK, Many(queried.value)))
  }

  /** QueryByID: GET /incomes/:id. */
  function QueryByID(id: string, lookup: Result<Income, IncomeCore.Error>): (run: Run)
    ensures run.calls == [CallQueryByID(id)]
    ensures lookup.Success? ==> run.response == Respond(StatusOK, One(lookup.value))
    ensures lookup.Failure? ==> run.response == CoreFailure(lookup.error)
  {
    Run([CallQueryByID(id)], if lookup.Success? then Respond(StatusOK, One(lookup.value)) else CoreFailure(lookup.error))
  }

  /** QueryByUserID: GET /incomes/user/:user_id, for an admin or for that user only. */
  function QueryByUserID(claims: Option<Claims>, userID: string,
                         queried: Result<seq<Income>, IncomeCore.Error>): (run: Run)
    ensures run.calls != [] <==> claims.Some? && AdminOrOwner(claims.value, userID)
    ensures run.calls == [] ==> run.response == RequestError(Forbidden, StatusForbidden)
    ensures run.calls != [] ==> run.calls == [CallQueryByUserID(userID)]
    ensures run.calls != [] ==>
      run.response == if queried.Success? then Respond(StatusOK, Many(queried.value)) else CoreFailure(queried.error)
  {
    if claims.None? then Run([], RequestError(Forbidden, StatusForbidden))
    else if DeleteRefuses(claims.value, userID) then Run([], RequestError(Forbidden, StatusForbidden))
    else
      Run([CallQueryByUserID(userID)],
        if queried.Success? then Respond(StatusOK, Many(queried.value)) else CoreFailure(queried.error))
  }

  // ---------------------------------------------------------------------------
  // The inverted test in Update

  /**
   * For a caller who is not an admin, Update and Delete disagree on every
   * income: whichever of the two lets the caller through, the other refuses.
   */
  lemma UpdateAuthorizationInverted(values: Values, c: Claims, upd: UpdateIncome, id: string, inc: Income,
                                    updated: Option<IncomeCore.Error>, deleted: Option<IncomeCore.Error>)
    requires !AuthorizedByRole(c, RoleAdmin)
    ensures IsForbidden(Update(Some(values), Some(c), Some(upd), id, Success(inc), updated).response)
        <==> c.subject == inc.UserID
    ensures IsForbidden(Delete(Some(c), id, Success(inc), deleted).response)
        <==> c.subject != inc.UserID
    ensures Writes(Update(Some(values), Some(c), Some(upd), id, Success(inc), updated).calls)
        <==> !Writes(Delete(Some(c), id, Success(inc), deleted).calls)
  {
    var u := Update(Some(values), Some(c), Some(upd), id, Success(inc), updated);
    var d := Delete(Some(c), id, Success(inc), deleted);
    if c.subject == inc.UserID {
      assert u.response == RequestError(Forbidden, StatusForbidden);
      assert d.calls[1] == CallDelete(id);
    } else {
      assert d.response == RequestError(Forbidden, StatusForbidden);
      assert u.calls[1].CallUpdate?;
    }
  }

  /** A concrete case: a user is refused an update of their own income and allowed one of someone else's. */
  lemma UpdateOwnIncomeRefused(values: Values, upd: UpdateIncome, inc: Income)
    requires inc.UserID == "alice"
    ensures IsForbidden(Update(Some(values), Some(Claims("alice", {})), Some(upd), inc.ID, Success(inc), None).response)
    ensures Update(Some(values), Some(Claims("bob", {})), Some(upd), inc.ID, Success(inc), None).calls
        == [CallQueryByID(inc.ID), CallUpdate(inc.ID, upd, values.now)]
  {
  }

  /** With the fix, Update and Delete let through exactly the same callers. */
  lemma UpdateFixedAgreesWithDelete(values: Values, c: Claims, upd: UpdateIncome, id: string, inc: Income,
                                    updated: Option<IncomeCore.Error>, deleted: Option<IncomeCore.Error>)
    ensures IsForbidden(UpdateFixed(Some(values), Some(c), Some(upd), id, Success(inc), updated).response)
        <==> IsForbidden(Delete(Some(c), id, Success(inc), deleted).response)
  {
    var u := UpdateFixed(Some(values), Some(c), Some(upd), id, Success(inc), updated);
    var d := Delete(Some(c), id, Success(inc), deleted);
    if AdminOrOwner(c, inc.UserID) {
      assert u.calls[1].CallUpdate? && d.calls[1].CallDelete?;
    }
  }
}
