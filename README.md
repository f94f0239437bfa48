# moneyflow: the income and expense slices

moneyflow is a Go web service that keeps track of a user's incomes and
expenses. Each of the two slices has the same four layers, and this project
models all four in Dafny:

- **the table store** (`business/core/{income,expense}/db`). It holds the
  incomes or expenses table and runs INSERT, UPDATE, DELETE and the three
  SELECTs against it. It also has the transaction helpers `Tran` and
  `WithinTran`. Modules `IncomeDb` and `ExpenseDb`.
- **the API models** (`business/core/income/models.go` and `business/core/expense/model.go`). These are
  the record the API returns, the create and update payloads with their
  validation tags, and the conversion from table rows. Modules
  `IncomeModels` and `ExpenseModels`.
- **the core** (`income.go`, `expense.go`). It checks the ID and the payload,
  builds or merges the row, and calls the store. Modules `IncomeCore` and
  `ExpenseCore`.
- **the HTTP handlers** (`incomegrp`, `expensegrp`). They decode the request,
  check authorization, call the core, and map errors to status codes.
  Modules `IncomeGrp` and `ExpenseGrp`.

Shared modules:

- `Rows`: generic facts about a table held as a sequence of rows. The rows
  are ordered by `date_created`, keyed by the ID column, and seen as a map
  from key to row.
- `Paging`: the int64 offset arithmetic and the page window of
  `OFFSET … FETCH NEXT …`.
- `Database`: store errors, connection handles, and the steps of a
  transaction scope.
- `Auth` and `Web`: claims, the two authorization predicates, and the status
  codes.
- `Wrappers`: `Option` and `Result`.

How the model is built:

- The table is a `class` whose field `rows` the store methods reassign. Its
  invariant is `Valid()`: rows are ordered by creation time and keys are
  unique.
- A `Store` and a `Core` are values, as in Go. They carry a reference to the
  table plus the connection handles.
- The store and core methods are proved against the table's map view
  `Contents()` and against the `Rows`/`Paging` functions.
- The handlers are pure functions. Their inputs are the values the request
  context, the decoder and the core calls returned. Each one returns the
  sequence of core calls it makes and the response. That is what lets the
  model prove, for example, that a 403 response never comes with a write to
  the table.

## Model

| member | source | states |
|---|---|---|
| `Rows.Lookup` | business/core/income/db/db.go:139-160 | A key-equality SELECT finds a row exactly when the key is in the table. The row found is the one under that key, and it is a row of the table. |
| `Rows.ByIdKeys` | business/core/income/db/db.go:139-160 | A key is in the table's map view exactly when some row carries it. |
| `Rows.ByIdMember` | business/core/income/db/db.go:139-160 | The row the map gives for a key is a table row carrying that key. |
| `Rows.ByIdAt` | business/core/income/db/db.go:139-160 | With unique keys, every row is what the map gives for its own key. |
| `Rows.InsertOrderedElements` | business/core/income/db/db.go:50-62 | INSERT adds exactly the new row: the multiset grows by it and the length by one. |
| `Rows.InsertOrderedSorted` | business/core/income/db/db.go:50-62 | INSERT keeps the table ordered by date_created, the order Query reads it in. |
| `Rows.InsertOrderedById` | business/core/income/db/db.go:50-62 | Inserting a row with a fresh key changes the map view by exactly that key. |
| `Rows.InsertOrderedUnique` | business/core/income/db/db.go:50-62 | Inserting a row with a fresh key keeps keys unique. |
| `Rows.FilterMembers` | business/core/income/db/db.go:163-184 | A row is selected exactly when it is in the table and meets the WHERE condition. |
| `Rows.FilterLength` | business/core/income/db/db.go:163-184 | A selection is never larger than the table. It has the same size exactly when every row qualifies. |
| `Rows.FilterAll` | business/core/income/db/db.go:163-184 | When every row qualifies, the selection is the whole table. |
| `Rows.FilterSorted` | business/core/income/db/db.go:91-109 | Selecting or deleting rows keeps date_created order. |
| `Rows.FilterUnique` | business/core/income/db/db.go:91-109 | Selecting or deleting rows keeps keys unique. |
| `Rows.FilterKeyById` | business/core/income/db/db.go:91-109 | DELETE … WHERE key = k removes exactly key k from the map view. |
| `Rows.ReplaceWhereShape` | business/core/income/db/db.go:66-88 | UPDATE … WHERE key = k rewrites exactly the matching rows in place and leaves every other row unchanged. |
| `Rows.ReplaceWhereInvariant` | business/core/income/db/db.go:66-88 | An UPDATE that leaves the key and date_created alone keeps the table ordered and keys unique. |
| `Rows.ReplaceWhereById` | business/core/income/db/db.go:66-88 | Such an UPDATE changes the map view only at key k, to the rewritten row. |
| `Paging.Wrap64` | business/core/income/db/db.go:117 | Go int64 wrap-around: the result is congruent to the input modulo 2^64 and equals it when it is in range. |
| `Paging.Offset` | business/core/income/db/db.go:117 | `(pageNumber-1)*rowsPerPage` with int64 wrap-around. It is the true, non-negative product whenever page ≥ 1, rows ≥ 0 and no overflow occurs. |
| `Paging.OffsetWrapsAround` | business/core/income/db/db.go:117 | A concrete overflow: page 2^62+1 with 4 rows per page wraps to offset 0, so the first page is served. |
| `Paging.Page` | business/core/income/db/db.go:121-128 | The OFFSET/FETCH window: at most `count` rows, exactly as many as remain after the offset, each the row at offset + i. |
| `Paging.PagesUpToIsPrefix` | business/core/income/db/db.go:112-136 | Pages 1..k together are the first k·rowsPerPage rows of the ordered table, in order and without gaps or repeats. |
| `Paging.PagesCoverTable` | business/core/income/db/db.go:112-136 | Enough pages together return the whole table. |
| `Database.Begins` | business/core/income/db/db.go:31-36 | Counts the transactions begun in a scope. The count is zero exactly when every step only applied fn. |
| `IncomeDb.SetColumns` | business/core/income/db/db.go:66-81 | The UPDATE's SET list: income_id, user_id and date_created keep the stored values, and every other column takes the new one. |
| `IncomeDb.Table.constructor` | business/core/income/db/db.go:13-19 | An empty incomes table is valid. |
| `IncomeDb.NewStore` | business/core/income/db/db.go:22-28 | A new store uses the pool both to start transactions and to run queries, and it is not inside a transaction. |
| `IncomeDb.Store.Tran` | business/core/income/db/db.go:39-46 | The Tran'd store runs queries on the transaction and is flagged as inside one. It keeps the same transactor and table. |
| `IncomeDb.TranTwice` | business/core/income/db/db.go:39-46 | Calling Tran twice is the same as calling it once with the last handle. |
| `IncomeDb.Store.WithinTran` | business/core/income/db/db.go:31-36 | As written: inside a transaction, fn first runs on the current handle and its error is dropped. Then a new transaction always begins, and its result is returned. |
| `IncomeDb.WithinTranNestedOpensTwo` | business/core/income/db/db.go:31-36 | As written, an outer scope plus a nested one begin two transactions, and a failure of fn on the current transaction is not reported. |
| `IncomeDb.Store.WithinTranFixed` | business/core/income/db/db.go:31-36 | Corrected: inside a transaction, fn runs once on the current handle and its error is returned. No transaction begins. |
| `IncomeDb.WithinTranFixedNestedOpensOne` | business/core/income/db/db.go:31-36 | With the fix, nested scopes begin exactly one transaction, and the inner scope reports fn's error. |
| `IncomeDb.Store.Create` | business/core/income/db/db.go:50-62 | A duplicate key is rejected and the table is left unchanged. Otherwise the table gains exactly this row under its key and stays ordered with unique keys. |
| `IncomeDb.Store.Update` | business/core/income/db/db.go:66-88 | Never fails. An existing row has its SET columns rewritten and nothing else changes. A missing key changes nothing. |
| `IncomeDb.SetColumnsOwnKeys` | business/core/income/db/db.go:66-81 | A row whose key columns already match the stored ones is written as given. |
| `IncomeDb.Store.Delete` | business/core/income/db/db.go:91-109 | Never fails. The row with that key is removed and nothing else changes. A missing key changes nothing. |
| `IncomeDb.Store.Query` | business/core/income/db/db.go:112-136 | A negative offset or row count is rejected. Otherwise the result is exactly the page at the wrapped offset, in date_created order, with at most rowsPerPage rows. |
| `IncomeDb.Store.QueryByID` | business/core/income/db/db.go:139-160 | Returns the stored row when the key exists, and "not found" otherwise. |
| `IncomeDb.Store.QueryByUserID` | business/core/income/db/db.go:163-184 | Never fails. It returns exactly the rows owned by that user, with unique keys; no rows is an empty result, not an error. |
| `IncomeModels.CheckNewIncome` | business/core/income/models.go:26-37 | The payload is valid exactly when name, category, currency and user_id are non-empty and amount, reoccurrence and duration are not negative (omitempty,gte=1). Each failing tag is reported for its own field: `required` for each empty string, `gte` for each negative count. |
| `IncomeModels.TypesUnchecked` | business/core/income/models.go:34-35 | reoccurrence_type and duration_type carry no tag and never affect validation. |
| `IncomeModels.CheckUpdateIncome` | business/core/income/models.go:45-54 | An update is valid exactly when category, currency and amount are all supplied. At most three errors are reported. |
| `IncomeModels.EmptyUpdateRefused` | business/core/income/models.go:39-54 | An update that supplies no field fails on exactly those three fields, although the type's comment calls every field optional. |
| `IncomeModels.ToIncome` | business/core/income/models.go:58-61 | The conversion loses nothing: converting back yields the table row. |
| `IncomeModels.ToIncomeBijective` | business/core/income/models.go:58-61 | Converting from the table and back are inverse bijections. |
| `IncomeModels.ToIncomeSlice` | business/core/income/models.go:63-69 | The result has the input's length, and each element is the conversion of the row at the same index. |
| `IncomeModels.ConvertedMembers` | business/core/income/models.go:63-69 | A record is in the converted slice exactly when its row is in the input. |
| `IncomeModels.ConvertedInjective` | business/core/income/models.go:63-69 | Different row slices never convert to the same slice. |
| `IncomeCore.Merge` | business/core/income/income.go:83-107 | The merged row keeps the stored ID, owner and creation time. Its DateUpdated is the request time. Each field takes the supplied value when given and the stored one otherwise. |
| `IncomeCore.MergeNothing` | business/core/income/income.go:83-107 | An update with no fields only touches DateUpdated. |
| `IncomeCore.MergeTwice` | business/core/income/income.go:83-107 | Two successive merges equal one merge of the combined update, where later fields win. |
| `IncomeCore.MergeIdempotent` | business/core/income/income.go:83-107 | Applying the same update twice at the same time equals applying it once. |
| `IncomeCore.MergeSameValues` | business/core/income/income.go:83-107 | An update that supplies only the stored values changes nothing but DateUpdated. |
| `IncomeCore.NewCore` | business/core/income/income.go:29-33 | The core wraps the store built over the pool. |
| `IncomeCore.Core.Create` | business/core/income/income.go:37-62 | An invalid payload fails validation and leaves the table unchanged. A taken ID fails in the store and leaves it unchanged. Otherwise the returned income is built from the payload with the new ID and now for both timestamps, and the table gains exactly its row. |
| `IncomeCore.Core.Update` | business/core/income/income.go:66-114 | Fails in this order: malformed ID (400 upstream), invalid payload, missing income. On any error the table is unchanged. A well-formed ID with a valid payload for a present income always succeeds, and then exactly that income becomes the merge of the stored row with the update. |
| `IncomeCore.Core.Delete` | business/core/income/income.go:117-127 | A malformed ID is refused with the table unchanged. Otherwise exactly that key leaves the table, and a missing key is no error. |
| `IncomeCore.Core.Query` | business/core/income/income.go:130-137 | A store rejection of the offset or row count is returned wrapped. Otherwise the result is the converted page. |
| `IncomeCore.Core.QueryByID` | business/core/income/income.go:140-154 | A malformed ID gives ErrInvalidID and an absent one ErrNotFound. Otherwise the result is the converted stored row. |
| `IncomeCore.Core.QueryByUserID` | business/core/income/income.go:157-168 | A malformed user ID gives ErrInvalidID. Otherwise it succeeds with exactly that user's incomes, each listed once (no two share an ID). |
| `IncomeGrp.CoreFailure` | app/services/moneyflow-api/handlers/v1/incomegrp/incomegrp.go:62-72 | Only ErrInvalidID (400) and ErrNotFound (404) become trusted request errors. Every other error is wrapped. |
| `IncomeGrp.Create` | app/services/moneyflow-api/handlers/v1/incomegrp/incomegrp.go:24-41 | Missing request values are a shutdown error and a bad payload a wrapped error, both before any core call. Otherwise one core Create is made with the request time, and 201 with the income is answered exactly when it succeeds. |
| `IncomeGrp.Update` | app/services/moneyflow-api/handlers/v1/incomegrp/incomegrp.go:44-91 | As written: the handler writes exactly when the lookup succeeds and the caller is an admin or does NOT own the income. A body that does not decode is a wrapped error with no call. A non-admin owner is answered 403 after the lookup alone, and a 403 never comes with a write. |
| `IncomeGrp.UpdateAuthorizationInverted` | app/services/moneyflow-api/handlers/v1/incomegrp/incomegrp.go:75-77 | For a non-admin, Update refuses exactly the owner and Delete exactly the non-owner, so the two handlers never agree on whether to write. |
| `IncomeGrp.UpdateOwnIncomeRefused` | app/services/moneyflow-api/handlers/v1/incomegrp/incomegrp.go:75-77 | Concrete case: alice is refused an update of her own income, and bob's update of it goes through to the core. |
| `IncomeGrp.UpdateFixed` | app/services/moneyflow-api/handlers/v1/incomegrp/incomegrp.go:44-91 | Corrected: writes exactly when the lookup succeeds and the caller is an admin or the owner; any other caller is answered 403 after the lookup alone. A body that does not decode is a wrapped error with no call. Errors map as in the source, and success is 204. |
| `IncomeGrp.UpdateFixedAgreesWithDelete` | app/services/moneyflow-api/handlers/v1/incomegrp/incomegrp.go:118-120 | With the fix, Update and Delete refuse exactly the same callers. |
| `IncomeGrp.Delete` | app/services/moneyflow-api/handlers/v1/incomegrp/incomegrp.go:94-132 | Missing claims are 403 with no call. A missing income answers 204, a malformed ID 400, and any other lookup error is wrapped. A delete is issued exactly for an admin or the owner; any other caller is answered 403 after the lookup alone. A failed delete is 400 for a malformed ID and wrapped otherwise; success is 204. |
| `IncomeGrp.Query` | app/services/moneyflow-api/handlers/v1/incomegrp/incomegrp.go:135-153 | A page or row count that is not an integer is a 400 with no core call. Otherwise one core Query is made, and 200 with its result is answered exactly when it succeeds. |
| `IncomeGrp.QueryByID` | app/services/moneyflow-api/handlers/v1/incomegrp/incomegrp.go:156-171 | One lookup. The response is 200 with the income, or 400/404/wrapped per the core error. |
| `IncomeGrp.QueryByUserID` | app/services/moneyflow-api/handlers/v1/incomegrp/incomegrp.go:174-200 | The core is called exactly for an admin or the user named in the path; everyone else gets 403. The response is 200 with the list, or 400/404/wrapped per the core error. |
| `ExpenseDb.SetColumns` | business/core/expense/db/db.go:66-81 | The UPDATE's SET list: expense_id, user_id and date_created keep the stored values, and every other column takes the new one. |
| `ExpenseDb.Table.constructor` | business/core/expense/db/db.go:13-19 | An empty expenses table is valid. |
| `ExpenseDb.NewStore` | business/core/expense/db/db.go:22-28 | A new store uses the pool both to start transactions and to run queries, and it is not inside a transaction. |
| `ExpenseDb.Store.Tran` | business/core/expense/db/db.go:39-46 | The Tran'd store runs queries on the transaction and is flagged as inside one. |
| `ExpenseDb.TranTwice` | business/core/expense/db/db.go:39-46 | Calling Tran twice is the same as calling it once with the last handle. |
| `ExpenseDb.Store.WithinTran` | business/core/expense/db/db.go:31-36 | As written: inside a transaction, fn runs on the current handle with its error dropped, and then a new transaction always begins. |
| `ExpenseDb.WithinTranNestedOpensTwo` | business/core/expense/db/db.go:31-36 | As written, nested scopes begin two transactions, and fn's failure on the current transaction is not reported. |
| `ExpenseDb.Store.WithinTranFixed` | business/core/expense/db/db.go:31-36 | Corrected: inside a transaction, fn runs once on the current handle and its error is returned. |
| `ExpenseDb.WithinTranFixedNestedOpensOne` | business/core/expense/db/db.go:31-36 | With the fix, nested scopes begin one transaction, and the inner scope reports fn's error. |
| `ExpenseDb.Store.Create` | business/core/expense/db/db.go:50-62 | A duplicate key is rejected with the table unchanged. Otherwise the table gains exactly this row, ordered, with unique keys. |
| `ExpenseDb.Store.Update` | business/core/expense/db/db.go:66-88 | Never fails. An existing row has its SET columns rewritten, and a missing key changes nothing. |
| `ExpenseDb.SetColumnsOwnKeys` | business/core/expense/db/db.go:66-81 | A row whose key columns match the stored ones is written as given. |
| `ExpenseDb.Store.Delete` | business/core/expense/db/db.go:91-109 | Never fails. Exactly that key leaves the table, and a missing key changes nothing. |
| `ExpenseDb.Store.Query` | business/core/expense/db/db.go:112-136 | A negative offset or row count is rejected. Otherwise the result is exactly the page at the wrapped offset, in date_created order. |
| `ExpenseDb.Store.QueryByID` | business/core/expense/db/db.go:139-160 | Returns the stored row when the key exists, and "not found" otherwise. |
| `ExpenseDb.Store.QueryByUserID` | business/core/expense/db/db.go:163-184 | Never fails. It returns exactly the rows owned by that user, with unique keys. |
| `ExpenseModels.CheckNewExpense` | business/core/expense/model.go:26-37 | The payload is valid exactly when name, category, currency and user_id are non-empty and amount, reoccurrence and duration are not negative. Each failing tag is reported for its own field: `required` for each empty string, `gte` for each negative count. |
| `ExpenseModels.TypesUnchecked` | business/core/expense/model.go:34-35 | reoccurrence_type and duration_type never affect validation. |
| `ExpenseModels.CheckUpdateExpense` | business/core/expense/model.go:45-54 | An update is valid exactly when category, currency and amount are all supplied. |
| `ExpenseModels.EmptyUpdateRefused` | business/core/expense/model.go:39-54 | An update that supplies no field fails on those three fields, although the comment calls every field optional. |
| `ExpenseModels.ToExpense` | business/core/expense/model.go:58-61 | The conversion loses nothing: converting back yields the table row. |
| `ExpenseModels.ToExpenseBijective` | business/core/expense/model.go:58-61 | Converting from the table and back are inverse bijections. |
| `ExpenseModels.ToExpenseSlice` | business/core/expense/model.go:63-69 | The result has the input's length, and each element converts the row at its index. |
| `ExpenseModels.ConvertedMembers` | business/core/expense/model.go:63-69 | A record is in the converted slice exactly when its row is in the input. |
| `ExpenseModels.ConvertedInjective` | business/core/expense/model.go:63-69 | Different row slices never convert to the same slice. |
| `ExpenseCore.Merge` | business/core/expense/expense.go:83-107 | Keeps the stored ID, owner and creation time, and sets DateUpdated to now. Each of the eight updatable fields takes the supplied value when given and the stored one otherwise. |
| `ExpenseCore.MergeNothing` | business/core/expense/expense.go:83-107 | An update with no fields only touches DateUpdated. |
| `ExpenseCore.MergeTwice` | business/core/expense/expense.go:83-107 | Two merges equal one merge of the combined update, where later fields win. |
| `ExpenseCore.MergeIdempotent` | business/core/expense/expense.go:83-107 | The same update twice at the same time equals once. |
| `ExpenseCore.MergeSameValues` | business/core/expense/expense.go:83-107 | Supplying only the stored values changes nothing but DateUpdated. |
| `ExpenseCore.NewCore` | business/core/expense/expense.go:29-33 | The core wraps the store built over the pool. |
| `ExpenseCore.Core.Create` | business/core/expense/expense.go:37-62 | An invalid payload or a taken ID leaves the table unchanged. Otherwise the returned expense is built from the payload, and the table gains exactly its row. |
| `ExpenseCore.Core.Update` | business/core/expense/expense.go:66-114 | Fails on a malformed ID, then an invalid payload, then a missing expense, with the table unchanged. A well-formed ID with a valid payload for a present expense always succeeds, and then exactly that row becomes the merge. |
| `ExpenseCore.Core.Delete` | business/core/expense/expense.go:117-127 | A malformed ID is refused. Otherwise exactly that key leaves the table. |
| `ExpenseCore.Core.Query` | business/core/expense/expense.go:130-137 | A store rejection is returned wrapped. Otherwise the result is the converted page. |
| `ExpenseCore.Core.QueryByID` | business/core/expense/expense.go:140-154 | ErrInvalidID, ErrNotFound, or the converted stored row. |
| `ExpenseCore.Core.QueryByUserID` | business/core/expense/expense.go:157-168 | ErrInvalidID for a malformed user ID. Otherwise it succeeds with exactly that user's expenses, each listed once (no two share an ID). |
| `ExpenseGrp.CoreFailure` | app/services/moneyflow-api/handlers/v1/expensegrp/expensegrp.go:62-72 | Only ErrInvalidID (400) and ErrNotFound (404) become trusted request errors. Every other error is wrapped. |
| `ExpenseGrp.Create` | app/services/moneyflow-api/handlers/v1/expensegrp/expensegrp.go:24-41 | Shutdown error or decode error before any call. Otherwise one core Create, and 201 exactly when it succeeds. |
| `ExpenseGrp.Update` | app/services/moneyflow-api/handlers/v1/expensegrp/expensegrp.go:44-90 | Writes exactly when the lookup succeeds and the caller is an admin or the owner; any other caller is answered 403 after the lookup alone. A body that does not decode is a wrapped error with no call. Lookup and update errors map to 400/404/wrapped, success is 204, and a 403 never comes with a write. |
| `ExpenseGrp.Delete` | app/services/moneyflow-api/handlers/v1/expensegrp/expensegrp.go:93-131 | Missing claims are 403 with no call. A missing expense answers 204, a malformed ID 400, and any other lookup error is wrapped. A delete is issued exactly for an admin or the owner; any other caller is answered 403 after the lookup alone. A failed delete is 400 or wrapped; success is 204. |
| `ExpenseGrp.UpdateAgreesWithDelete` | app/services/moneyflow-api/handlers/v1/expensegrp/expensegrp.go:74-76 | Update and Delete refuse exactly the same callers. |
| `ExpenseGrp.Query` | app/services/moneyflow-api/handlers/v1/expensegrp/expensegrp.go:134-152 | A non-integer page or row count is 400 with no core call. Otherwise one core Query, and 200 exactly when it succeeds. |
| `ExpenseGrp.QueryByID` | app/services/moneyflow-api/handlers/v1/expensegrp/expensegrp.go:155-170 | One lookup. The response is 200 with the expense, or 400/404/wrapped. |

## Left out

- Logging, `context.Context` and the error message texts. Wrapped errors
  are kept as their cause.
- The JSON decoding and encoding done by `web.Decode` and `web.Respond`.
  The decoded payload, or its absence, is a handler input.
- The request values, claims and path parameters. `web.GetValues`,
  `auth.GetClaims` and `web.Param` are not part of this model; what they
  return is a handler input.
- Integer parsing. The result of `strconv.Atoi` on the page and row
  strings is a handler input, with `None` for a string that does not parse.
- `validate.GenerateID` is a parameter `newID` of `Core.Create`.
- `validate.CheckID` is the `checkID` predicate held by the core. Its UUID
  grammar is not part of this model.
- `time.Time` is an integer instant.
- `database.WithinTran`, the transaction's begin, commit and rollback, is
  not part of this model. Its result is an input of `Store.WithinTran`.
- Connection, driver and context-cancellation failures are not modelled.
  The store fails only where the SQL itself does: a duplicate key, or a
  negative OFFSET or FETCH count (SQLSTATE 2201X and 2201W).
- IncomeDb.Store.Create: models the INSERT the code intends, not the one it
  sends. As written, business/core/income/db/db.go:55 lists `amount,
  reocurrence, duration, reocurrence_type, duration_type` in the VALUES list
  without the leading colon. PostgreSQL refuses a column reference in an
  INSERT's VALUES list, so as written every income insert fails. Then
  IncomeCore.Core.Create never succeeds and the Create handler never
  answers 201. The model does not capture that failure.
- IncomeDb.Store.Update: models the UPDATE the code intends. As written,
  business/core/income/db/db.go:75 and :77 bind `:reocurrence` and
  `:reocurrence_type`, but the struct tags are `reoccurrence` and
  `reoccurrence_type` (business/core/income/db/models.go:12 and :14).
  sqlx's named binding fails with "could not find name" for a parameter no
  field carries. So as written every income update fails, and the Update
  handler never answers 204. The model does not capture that failure.
- ExpenseDb.Store.Update: the same misspelled parameters at
  business/core/expense/db/db.go:75 and :77, against the tags at
  business/core/expense/db/model.go:12 and :14. As written every expense
  update fails at binding, and the Update handler never answers 204. The
  model binds each field to its column as intended.
- ExpenseDb.Store.Create: business/core/expense/db/db.go:55 binds
  `:reocurrence` and `:reocurrence_type`, which no field carries. As written
  every expense insert fails at binding, so ExpenseCore.Core.Create never
  succeeds and the Create handler never answers 201. The model binds each
  field to its column as intended.
- The column names `reocurrence` and `reocurrence_type` in all four
  statements are taken to match the schema. The schema is not part of this
  model. With the other spelling, `reoccurrence`, the four INSERT and UPDATE
  column lists would name a column that does not exist instead.
- IncomeDb.Store.Query, IncomeDb.Store.QueryByID and
  IncomeDb.Store.QueryByUserID: model the intended reads. Every read is
  `SELECT *` (business/core/income/db/db.go:121-128, :146-152 and
  :170-177). Under a schema with the columns `reocurrence` and
  `reocurrence_type`, each returned row carries two columns that no `db:`
  tag names. The rows are scanned by `database.NamedQuerySlice` and
  `database.NamedQueryStruct` (db.go:131, :155 and :179). The `database`
  package is not part of this model. If it scans with sqlx's default safe
  mapping, a column with no destination is an error ("missing destination
  name"). Then, as written, QueryByID of a present key fails, and so does
  every Query or QueryByUserID that returns a row. So does the lookup
  inside IncomeCore.Core.Update, and with it the lookups in the Update and
  Delete handlers, so no 200 answer comes back. This consequence is
  plausible but follows from code outside this model, and nothing was
  executed.
- ExpenseDb.Store.Query, ExpenseDb.Store.QueryByID and
  ExpenseDb.Store.QueryByUserID: the same `SELECT *` reads
  (business/core/expense/db/db.go:121-128, :146-152 and :170-177), scanned
  the same way (db.go:131, :155 and :179), against the tags at
  business/core/expense/db/model.go:12 and :14. The same plausible failure
  applies, also to ExpenseCore.Core.Update and the expense handlers. The
  model gives the intended reads.
- IncomeDb.Store.Update and ExpenseDb.Store.Update: the doc comment at
  business/core/income/db/db.go:64-65 (and expense/db/db.go:64-65) says
  Update errors when the ID does not reference an existing row. The code
  below it never does: an UPDATE that matches no row is not an error. The
  model follows the code, so Store.Update never fails on a missing key and
  changes nothing. ErrNotFound comes only from the lookup that
  IncomeCore.Core.Update and ExpenseCore.Core.Update make first.
- IncomeDb.Store.Create and ExpenseDb.Store.Create reject a duplicate ID as
  a primary-key violation would. The schema is not part of this model.
- IncomeDb.Store.QueryByUserID: the SQL has no ORDER BY, so the model
  returns rows in table order. Its contract states only which rows come
  back, not their order.
- ExpenseDb.Store.QueryByUserID: the same; its contract states which rows
  come back, not their order.
- IncomeDb.Store.Query: rows that share a date_created keep insertion order
  in the model. PostgreSQL leaves the order of such ties unspecified. The
  same holds for ExpenseDb.Store.Query.
- `AuthorizedByUserId` is taken to compare the claims' subject with the
  given user ID, as the expense handlers do inline. Role names are opaque
  strings compared by equality. The auth package is not part of this model.
- The router (`v1.go`, `handlers.go`) and its authentication and admin-only
  middleware, the test handler group and the user core are not part of
  this model.
- `IncomeByUser` (business/core/income/db/models.go:21-25) is declared but
  used by no modelled operation.

## Findings

| source | as written | input that shows it | evidently intended | confidence | as-written member | corrected member |
|---|---|---|---|---|---|---|
| business/core/income/db/db.go:31-36 | inside a transaction `fn(s.db)` runs, its error is discarded, and control falls through to `database.WithinTran` | a store from `Tran(tx)` whose fn fails on tx: the failure is lost, a second transaction begins and fn runs again | inside a transaction, run fn once on the current handle and return its error | high, not executed | `IncomeDb.Store.WithinTran`, `IncomeDb.WithinTranNestedOpensTwo` | `IncomeDb.Store.WithinTranFixed`, `IncomeDb.WithinTranFixedNestedOpensOne` |
| business/core/expense/db/db.go:31-36 | the same fallthrough as in the income store | the same input | the same | high, not executed | `ExpenseDb.Store.WithinTran`, `ExpenseDb.WithinTranNestedOpensTwo` | `ExpenseDb.Store.WithinTranFixed`, `ExpenseDb.WithinTranFixedNestedOpensOne` |
| app/services/moneyflow-api/handlers/v1/incomegrp/incomegrp.go:75-77 | refuses when the caller is not an admin AND `AuthorizedByUserId(inc.UserID)` holds, i.e. refuses the owner | non-admin alice updating her own income gets 403; non-admin bob updating alice's income reaches the core | refuse a non-admin who does not own the income, as Delete (lines 118-120) and the expense handlers do | high, not executed | `IncomeGrp.Update`, `IncomeGrp.UpdateOwnIncomeRefused` | `IncomeGrp.UpdateFixed`, `IncomeGrp.UpdateFixedAgreesWithDelete` |
