/**
 * What the stores see of the database package: the not-found sentinel, the
 * errors a keyed SQL table raises, connection handles, and the steps of a
 * transaction scope. The package itself (commit and rollback included) is not
 * part of this model.
 */
module Database {

  import opened Wrappers

  /** Why the database refuses a statement. */
  datatype Rejection =
    | DuplicateKey(id: string)     // INSERT of a key the table already has
    | NegativeOffset(offset: int)  // OFFSET below zero (SQL data exception 2201X)
    | NegativeFetch(rows: int)     // FETCH NEXT below zero (SQL data exception 2201W)

  datatype DbError =
    | ErrDBNotFound            // a single-row SELECT found no row
    | Rejected(why: Rejection)

  /** A connection handle: the pool (`*sqlx.DB`) or an open transaction. */
  datatype Handle = Pool | Tx(serial: nat)

  /** One step of a `WithinTran` call; each step runs fn once. */
  datatype TranStep =
    | ApplyFn(on: Handle, result: Option<DbError>)  // fn called directly on a handle
    | DatabaseWithinTran(tr: Handle)  // database.WithinTran: opens a transaction on tr and runs fn in it

  /** The steps taken and the error returned. */
  datatype TranRun = TranRun(steps: seq<TranStep>, err: Option<DbError>)

  /** How many physical transactions the steps open. */
  function Begins(steps: seq<TranStep>): (n: nat)
    ensures n <= |steps|
    ensures n == 0 <==> forall i :: 0 <= i < |steps| ==> steps[i].ApplyFn?
  {
    if steps == [] then 0
    else (if steps[0].DatabaseWithinTran? then 1 else 0) + Begins(steps[1..])
  }
}
