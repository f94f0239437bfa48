/**
 * The claims the authentication middleware puts in the request context, and
 * the two authorization questions the handlers ask of them. Token parsing and
 * signature checks are not part of this model.
 */
module Auth {

  const RoleAdmin: string := "ADMIN"

  datatype Claims = Claims(subject: string, roles: set<string>)

  /** The caller holds `role`. */
  predicate AuthorizedByRole(c: Claims, role: string) {
    role in c.roles
  }

  /** The caller is the user `userID`. */
  predicate AuthorizedByUserId(c: Claims, userID: string) {
    c.subject == userID
  }

  /** The "admin or owner" rule, stated once. */
  predicate AdminOrOwner(c: Claims, ownerID: string) {
    AuthorizedByRole(c, RoleAdmin) || AuthorizedByUserId(c, ownerID)
  }
}

/** Request-scoped values and the HTTP status codes the handlers use. */
module Web {

  /** What web.GetValues returns; only the request time matters here. */
  datatype Values = Values(now: int)

  const StatusOK: int := 200
  const StatusCreated: int := 201
  const StatusNoContent: int := 204
  const StatusBadRequest: int := 400
  const StatusForbidden: int := 403
  const StatusNotFound: int := 404
}
