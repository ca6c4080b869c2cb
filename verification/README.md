# company-crud in Dafny

A verified model of the record-update pipeline of company-crud, a small Go
service that keeps company records in PostgreSQL and announces every change
on a Kafka topic. The model covers the following, from the inside out:

- the `CompanyType` enumeration and its `String` rendering;
- the row record and `modelConverter`;
- `patchQueryBuilder`, which turns a sparse patch into the SET list of an
  UPDATE;
- the repository (`Insert`, `GetByName`, `DeleteByName`, `PatchByName`)
  over an abstract table;
- the service layer, which calls the repository and then emits one event;
- the four HTTP handlers, reduced to their decisions: the status, the body,
  and whether the service is called and with what;
- the four endpoints composed end to end.

Modules, one per file:

| module | models |
|---|---|
| `Wrappers` | `Option` and `Result` |
| `Domain` | `Company` with optional attributes, `CompanyType` (a byte), `String`, and a canonical parser |
| `Errors` | the sentinel errors of `postres`, driver errors, the type-parse failure and the producer failure |
| `DbModel` | the row `Model` and `ModelConverter` |
| `PatchQuery` | the builder's text (`PatchQueryBuilder`) and the same plan as a list of columns (`PatchPlan`), proved to render to that text |
| `Gateway` | the repository over `Store = map<string, Model>`, the table keyed by its unique `name` column |
| `Service` | `Create`, `Delete`, `Get` and `Patch` over a `World` of table and event log |
| `JsonShapes` | request and response bodies, and what `validate:"required"` accepts |
| `Handler` | each handler split at the service call: `...Call` decides before the call, `...Reply` after it |
| `Api` | the endpoints composed, including the token check reduced to 403, and end-to-end properties |

`Api` composes the corrected halves of the Findings below: `Gateway.GetByName`,
`Gateway.PatchByName`, `Handler.CreateReply`, `Handler.GetReply` and
`Handler.MutationReply`. The `Api` rows therefore describe the intended
behaviour:

- Every 409 in them is the status the handlers evidently intend, and the
  status the integration tests expect. The code as written answers those
  cases 406 (create, internal/handlers/http/company.go:92) or 400 (get,
  delete and patch, at lines 133, 190 and 265). The as-written replies are
  `Handler.CreateReplyAsWritten` and `Handler.LookupReplyAsWritten`.
- Every sparse patch in them (`Api.PatchDescriptionOnly`,
  `Api.RenameKeepsOtherFields`, `Api.RenameOntoTakenName`,
  `Api.PatchMissingName` and the type-only step of `Api.AcmeScenario`) holds
  only for the corrected repository. As written, `modelConverter`
  dereferences the nil pointers of such a patch
  (internal/repositories/db/model.go:24-27, reached from
  internal/repositories/db/company.go:126); that half is
  `Gateway.PatchByNameAsWritten`.

Collaborators become parameters. An `Env` carries:

- the clock reading;
- the id the table generates on insert;
- the driver failure a statement meets, if any;
- whether the producer accepts the event.

`GetCompTypeFromString` is called by the handlers and the repository but is
not part of this model. It is a parameter
`parse: string -> Option<CompanyType>`. The end-to-end lemmas instantiate it
with `ParseCanonical`, the exact inverse of `String`.

Where the sources disagree with each other, the model follows the callers:

- `domain.Company` is declared with plain fields and no timestamps
  (internal/domain/company.go:5-12). Every caller uses pointer fields and
  both timestamps, so `Company` has `Option` attributes and two times.
- `postres.DuplicateKey` is used but not declared next to the other
  sentinels (pkg/postres/postgres.go:12-15). It is an `Error` constructor.
- `model` has no `CurrentName` field (internal/repositories/db/model.go:9-18),
  yet one is assigned at internal/repositories/db/company.go:127. The model
  passes the current name as an argument of `ExecutePatch`.

Three behaviours of the code are worth stating on their own terms:

- An empty patch is answered 400, not 406: the builder's
  `InvalidArgumentsForBuildingquery` is not one of the handler's
  invalid-input checks, so it reaches the generic error branch
  (`Api.EmptyPatchRejected`).
- A failed event hand-off after a committed mutation is returned to the
  caller as an error, although the row stays committed. `create` answers
  it 406, and `delete` and `patch` answer it 400
  (`Api.EmitFailureStillCommits`, `Service.Create`, `Service.Delete`,
  `Service.Patch`).
- The delete event reuses the creation wording, "New company created, with
  name: ..." (`Service.DeletedMessage`).

Two library behaviours are stated as explicit assumptions in `Handler`:

- `FirstWritten`: net/http keeps the first status a handler writes.
- `ErrorsAsIntoErrorVar`: `errors.As` with a pointer to a package-level
  `error` variable matches every error.

## Model

| member | source | states |
|---|---|---|
| Domain.String | internal/domain/company.go:23-36 | a value renders as "" exactly when it is outside the four named constants; each known value renders to a canonical name; only SoleProprietorship renders "SoleProprietorship" |
| Domain.StringInjective | internal/domain/company.go:24-32 | two known values with the same name are the same value |
| Domain.StringOutsideRange | internal/domain/company.go:33-34 | every byte above SoleProprietorship renders as "" |
| Domain.ParseCanonical | internal/domain/company.go:16-32 | a string parses exactly when it is one of the four canonical names, and then `String` of the result gives the string back |
| Domain.CanonicalRoundTrip | internal/domain/company.go:16-32 | parsing the name of a known value gives the value back |
| Domain.SpacedNameNeverRendered | cmd/company_crud/create_test.go:257-281 | no value, known or not, renders as "Sole Proprietorship" |
| Domain.TestedRoundTripUnsatisfiable | cmd/company_crud/create_test.go:257-281 | no parser at all satisfies the round trip the creation tests assert for all four type strings they send |
| DbModel.ModelConverter | internal/repositories/db/model.go:20-32 | id, name and the four dereferenced values are copied unchanged; `updated_at` is the clock; `created_at` stays at the zero time; defined only when all four pointers are present |
| JsonShapes.ValidCreate | internal/handlers/http/json.go:8-14 | a create body passes validation exactly when none of the four fields tagged `required` (all but the description) holds the zero value of its Go type |
| JsonShapes.CreateRequirements | internal/handlers/http/json.go:8-14 | the description may be empty; `registered: false` and a missing employee count fail validation; an employee count of 0 passes |
| PatchQuery.PatchQueryBuilder | internal/repositories/db/company.go:154-181 | the builder fails with InvalidArgumentsForBuildingquery exactly when the patch has an empty name and all four pointers nil |
| PatchQuery.SuppliesFromStart | internal/repositories/db/company.go:175-177 | a patch supplies some field column exactly when it is not the empty patch |
| PatchQuery.PlanFromMembers | internal/repositories/db/company.go:156-173 | the plan from position k holds exactly the supplied columns ranked k or later, plus `updated_at` |
| PatchQuery.PlanFromEnds | internal/repositories/db/company.go:178 | every plan is non-empty and ends with `updated_at` |
| PatchQuery.PlanFromLength | internal/repositories/db/company.go:175-178 | the plan from k has a field column before `updated_at` exactly when some column from k on is supplied |
| PatchQuery.PlanFromOrdered | internal/repositories/db/company.go:155-178 | the plan is in the fixed order name, description, is_registered, employees_number, type, updated_at |
| PatchQuery.OrderedHasNoRepeats | internal/repositories/db/company.go:155-178 | in an ordered column list every earlier column ranks strictly lower than every later one, so no column appears twice |
| PatchQuery.PlanFromStart | internal/repositories/db/company.go:154-181 | for a non-empty patch, the plan from the first column is what the patch writes: its supplied columns and no other, ordered, at least one field column, `updated_at` last |
| PatchQuery.PatchPlan | internal/repositories/db/company.go:154-181 | the column plan fails exactly on the empty patch, with the builder's error; otherwise each field column is planned exactly when supplied (a name only when non-empty), in the fixed order, with `updated_at` last |
| PatchQuery.PlanHasNoRepeats | internal/repositories/db/company.go:156-173 | no column appears twice in a plan |
| PatchQuery.RenderFrom | internal/repositories/db/company.go:155-178 | rendering the plan from position k gives the builder's text from k followed by the `updated_at` assignment |
| PatchQuery.FieldAssignmentsUnrolled | internal/repositories/db/company.go:155-173 | the five conditional appends, in source order, equal the position-indexed text from the first column |
| PatchQuery.BuilderRendersPlan | internal/repositories/db/company.go:154-181 | the builder and the column plan fail on the same patches, and the builder's text is the plan rendered as comma-separated assignments |
| Gateway.ClassifyInsertError | internal/repositories/db/company.go:49-61 | an error becomes DuplicateKey exactly when it is a pq error with SQLSTATE 23505; every other error is returned unchanged |
| Gateway.Insert | internal/repositories/db/company.go:34-63 | an insert succeeds exactly when the driver does not fail and the name is free; on success it returns the generated id, adds exactly that row with the converted values, and keeps every other row; on failure it returns the nil UUID and leaves the table unchanged; a taken name gives DuplicateKey; the table stays keyed by name |
| Gateway.QueryRowByName | internal/repositories/db/company.go:70-77 | the single-row select finds the row under the name, or reports `sql.ErrNoRows` when there is none; a driver failure is reported unchanged |
| Gateway.ToCompany | internal/repositories/db/company.go:85-94 | the record built from a row has every optional attribute present and carries the row's values and timestamps |
| Gateway.ConverterRoundTrip | internal/repositories/db/model.go:20-32 | converting a complete record to a row and reading it back restores every attribute except the timestamps |
| Gateway.ReadRow | internal/repositories/db/company.go:79-94 | reading a row fails with the type text exactly when the parser rejects the stored type name |
| Gateway.GetByNameAsWritten | internal/repositories/db/company.go:65-95 | as written, a lookup changes nothing, returns the empty record on any error, reports a missing name as `sql.ErrNoRows`, and returns any driver failure unchanged |
| Gateway.MissingNameNotNoRowsAsWritten | internal/repositories/db/company.go:73-77 | as written, a lookup of a missing name never returns NoRowsErr |
| Gateway.GetByName | internal/repositories/db/company.go:65-95 | a lookup succeeds exactly when the driver does not fail, the name is present and its type parses; it then returns the populated record of that row; NoRowsErr arises exactly from a missing name (or the driver's own `sql.ErrNoRows`); any other driver failure is returned unchanged; an unparseable type is UnknownCompanyType; the table is never changed |
| Gateway.DeleteByName | internal/repositories/db/company.go:97-117 | a delete succeeds exactly when the driver does not fail and the name is present, and then removes exactly that row; NoRowsErr arises exactly from zero affected rows; a driver failure is returned unchanged; any error leaves the table unchanged |
| Gateway.DeleteTwice | internal/repositories/db/company.go:112-114 | a second delete of the same name returns NoRowsErr |
| Gateway.ApplyColumn | internal/repositories/db/company.go:129 | setting one column changes that attribute to its bound value and no other |
| Gateway.ApplyPlan | internal/repositories/db/company.go:129-131 | after the SET list, each attribute holds its bound value when its column is planned, and its old value otherwise; id and `created_at` never change |
| Gateway.PatchByNameAsWritten | internal/repositories/db/company.go:119-152 | as written, the builder's error is returned with the table unchanged; the rest is defined only for patches that supply all four pointer fields |
| Gateway.RenamePatchOutsideConverter | internal/repositories/db/company.go:126 | the name-only patch of the rename test passes the builder but lies outside the converter's domain |
| Gateway.BindPatch | internal/repositories/db/company.go:126-131 | the bound parameters carry every supplied value and the clock, and coincide with the converter's output wherever the converter is defined |
| Gateway.ApplySupplied | internal/repositories/db/company.go:126-149 | applying exactly the supplied columns with the bound values yields the merged row: supplied attributes replaced, the rest kept, `updated_at` refreshed |
| Gateway.PlanMerges | internal/repositories/db/company.go:120-149 | executing a patch's column plan yields the merged row |
| Gateway.ExecutePatch | internal/repositories/db/company.go:127-151 | the UPDATE matches on `currentName`: a driver failure is returned; zero matching rows is `NoRowsErr`; when a row matches, the only error is the unique violation of a taken new name; the statement succeeds exactly when a row holds `currentName` and the updated row's name is unchanged or free; then that row is replaced by the updated one, filed under its new name, every other row is unchanged, the number of rows is the same and the table stays keyed; any error leaves the table unchanged |
| Gateway.PatchByName | internal/repositories/db/company.go:119-152 | the empty patch returns the builder's error with the table unchanged; a driver failure is returned; a missing `currentName` is NoRowsErr; when the row exists the only error is the unique violation of a taken new name; otherwise a patch succeeds exactly when a row holds `currentName` and the new name is free or unchanged; the row is then replaced by its merge and filed under its new name, every other row is unchanged, and the table stays keyed; any error leaves the table unchanged |
| Gateway.PatchAsWrittenAgrees | internal/repositories/db/company.go:119-152 | wherever the code as written is defined, it agrees with the corrected `PatchByName` |
| Gateway.PatchRefreshesUpdatedAt | internal/repositories/db/company.go:178 | after a patch that succeeds (it supplies a field and its new name is free or unchanged) the row's `updated_at` is the patch time and not before its `created_at` |
| Service.Create | internal/services/company.go:33-47 | an insert failure is returned with nothing emitted and nothing changed; after a successful insert exactly one creation event naming the id is sent; success returns exactly the generated id; a failed hand-off returns the nil UUID and `ProduceFailed`, logs nothing, while the row stays committed |
| Service.Delete | internal/services/company.go:49-63 | a repository error is returned with nothing emitted; after a delete exactly one event naming the company is sent; success is exactly: no fault, the name is present and the producer accepts; a failed hand-off returns `ProduceFailed` and logs nothing while the row is already gone |
| Service.Get | internal/services/company.go:65-74 | a lookup never changes the world or emits; it returns the repository's error with the empty record, or the populated record stored under the name, exactly the repository's answer |
| Service.Patch | internal/services/company.go:76-90 | a repository error is returned with nothing emitted; after a patch exactly one event carrying the patch record's id is sent; the call succeeds exactly when the repository does and the producer accepts; a failed hand-off returns `ProduceFailed` and logs nothing after the patch has committed |
| Handler.CreateCall | internal/handlers/http/company.go:59-89 | a decode failure is 400; a validation failure or an unparseable type is 406; the service is called exactly otherwise, with a complete record holding the body's values and the parsed type |
| Handler.CreateReply | internal/handlers/http/company.go:90-105 | success is 200; DuplicateKey, and only it, is 409 with "duplicate name"; every other error is 406 |
| Handler.CreateReplyAsWritten | internal/handlers/http/company.go:90-103 | as written, every service error is answered 406, with the "duplicate name" body |
| Handler.DuplicateAnswered406AsWritten | internal/handlers/http/company.go:92-95 | a duplicate name is answered 406 as written but 409 by the corrected mapping |
| Handler.NameCall | internal/handlers/http/company.go:124-128 | an empty `company_name` is 406 and nothing is called; otherwise the service is called with the name unchanged |
| Handler.LookupStatus | internal/handlers/http/company.go:131-143 | NoRowsErr, and only it, maps to 409; every other error maps to 400 |
| Handler.LookupReplyAsWritten | internal/handlers/http/company.go:188-200 | as written, every service error of get, delete and patch is answered 400 |
| Handler.NoRowsAnswered400AsWritten | internal/handlers/http/company.go:133-136 | a missing row is answered 400 as written but 409 by the corrected mapping |
| Handler.ToGetBody | internal/handlers/http/company.go:146-155 | the response dereferences every optional attribute, renders the type with `String`, and copies id and timestamps |
| Handler.GetReply | internal/handlers/http/company.go:131-162 | success is 200 with the record; NoRowsErr is 409 "no results"; any other error is 400 |
| Handler.MutationReply | internal/handlers/http/company.go:188-203 | for delete, and identically for patch (lines 263-278): success is 200; NoRowsErr is 409 "no entries affected"; any other error is 400 |
| Handler.PatchToDomain | internal/handlers/http/company.go:243-260 | name and the three pointer fields are copied unchanged; an absent type stays absent; the translation fails exactly when a present type does not parse |
| Handler.PatchCall | internal/handlers/http/company.go:219-262 | an empty name is 406; a decode failure is 400; an unparseable type is 406; the service is called exactly otherwise, with the translated record and the path name |
| Api.Create | internal/handlers/http/company.go:59-106 | without a valid token it is 403 and nothing changes; a request rejected before the service changes nothing; a 409 changes nothing; the table stays keyed |
| Api.Get | internal/handlers/http/company.go:120-163 | a read never changes the world; a missing name is 409 "no results" |
| Api.Delete | internal/handlers/http/company.go:177-204 | without a token it is 403; a missing name is 409 and changes nothing; a 200 means exactly that row was removed |
| Api.Patch | internal/handlers/http/company.go:219-279 | without a token it is 403; a request rejected before the service changes nothing; only 200 or 400 can follow a change of the table |
| Api.CreateTwiceConflicts | cmd/company_crud/create_test.go:42-57 | creating a new name is 200; creating it again is 409 "duplicate name" and changes nothing |
| Api.CreateThenGet | cmd/company_crud/create_test.go:16-40 | a created record reads back with the values sent, the same type string, the generated id and the creation time |
| Api.ZeroEmployeesReadBack | cmd/company_crud/get_test.go:108-138 | an employee count of 0 is accepted and read back as 0 |
| Api.UnknownTypeRejected | cmd/company_crud/create_test.go:81-101 | a type outside the canonical names is 406 and writes nothing |
| Api.EmitFailureStillCommits | internal/services/company.go:39-42 | when the hand-off fails after the insert, the answer is 406, yet the row is committed and no event is logged |
| Api.EmptyPatchRejected | internal/repositories/db/company.go:175-177 | the empty patch is 400 with no write and no event |
| Api.PatchDescriptionOnly | internal/handlers/http/company.go:243-262 | a description-only patch changes the description and `updated_at` and nothing else, and logs an event with the nil id |
| Api.RenameKeepsOtherFields | cmd/company_crud/patch_test.go:105-143 | a name-only patch re-keys the row: the old name is gone and the new one holds the old values except name and `updated_at` |
| Api.RenameOntoTakenName | internal/repositories/db/company.go:131-135 | renaming onto a name another row holds is 400 and changes nothing |
| Api.PatchMissingName | cmd/company_crud/patch_test.go:191-200 | patching a name no row holds is 409 "no entries affected" and changes nothing |
| Api.DeleteThenGone | cmd/company_crud/delete_test.go:15-44 | a delete succeeds once and logs its event; afterwards delete and get on that name are 409 |
| Api.AcmeScenario | internal/handlers/http/company.go:59-279 | create, read, patch the type, read, delete and read a record from an empty table: each step has the expected status, the type and count read back, and the final read is 409 |

## Left out

- SQL text, its execution by sqlx and pq, and connection setup: the table is a map keyed by name, and a driver failure is an input.
- The `RowsAffected` error paths of `DeleteByName` and `PatchByName` (internal/repositories/db/company.go:106-110, 137-145): the abstract table always reports its count.
- The `json.Marshal` failure branch of `get` (internal/handlers/http/company.go:156-159): marshalling the response struct cannot fail, so it is unreachable.
- The validation branch of `patch` (internal/handlers/http/company.go:237-241): `Patch` has no `validate` tags, so no decodable body fails it.
- JWT parsing and signature checks (internal/handlers/http/middleware.go:10-45): they become an `authorized` flag, and a request without a valid token is 403 before any handler runs.
- Kafka client internals and the one-second sleep on a full queue (pkg/producer/kafka_producer.go:39-55): the producer accepts or refuses, as `Env.emitOk` says.
- The database's conversion of the `uint8` type column into the scanned text: a stored type is read back as its canonical name.
- `created_at`: the table's default is modelled as the same clock reading as `updated_at` on insert.
- Concurrency and the insert race on `name`: the model is sequential. Uniqueness is the map key.
- Go's `int` width for the employee count: counts are unbounded integers, and negative counts are accepted as in the source.
- The overwrite of `postres.NoRowsErr` and `postres.DuplicateKey` that the handlers' `errors.As` performs on those package variables: after it, later comparisons in other requests could change. The model keeps the sentinels fixed.
- Routing, swagger, CORS, configuration, logging and the container test harness.
- Gateway.PatchByNameAsWritten: its precondition is the converter's domain, because the code as written dereferences nil pointers outside it; the panic itself is not modelled.

## Findings

| source | as written | input that shows it | evidently intended | confidence | as-written member | corrected member |
|---|---|---|---|---|---|---|
| internal/handlers/http/company.go:90-103 | writes 406, then 409; net/http keeps the first status | creating a name that exists (create_test.go:42-57 expects 409) | 409 with "duplicate name" for DuplicateKey, 406 otherwise | not executed | Handler.CreateReplyAsWritten, Handler.DuplicateAnswered406AsWritten | Handler.CreateReply |
| internal/handlers/http/company.go:131-143, 188-200, 263-275 | writes 400, then 409; the first status is kept | get, delete or patch of "randomName" (get_test.go:142-145, delete_test.go:76-79, patch_test.go:191-200 expect 409) | 409 for NoRowsErr, 400 otherwise | not executed | Handler.LookupReplyAsWritten, Handler.NoRowsAnswered400AsWritten | Handler.LookupStatus, Handler.GetReply, Handler.MutationReply |
| internal/repositories/db/company.go:73-77 | a scan error, including `sql.ErrNoRows`, is returned unchanged | `GetByName` of a name no row holds (create_test.go:77 expects NoRowsErr) | `sql.ErrNoRows` mapped to NoRowsErr, as `PatchByName` does at lines 139-141 | not executed | Gateway.GetByNameAsWritten, Gateway.MissingNameNotNoRowsAsWritten | Gateway.GetByName |
| internal/repositories/db/company.go:126 | `modelConverter` dereferences all four pointers of a sparse patch | the name-only patch of patch_test.go:125-127 | bind only the supplied values; the plan reads no other | not executed | Gateway.PatchByNameAsWritten, Gateway.RenamePatchOutsideConverter | Gateway.PatchByName, Gateway.BindPatch, Gateway.PatchAsWrittenAgrees |
| internal/domain/company.go:31-32 | `String` renders "SoleProprietorship" | type "Sole Proprietorship" (create_test.go:264, 280 expect it read back unchanged) | the tests send the canonical name; the parser is the exact inverse of `String` | not executed | Domain.SpacedNameNeverRendered, Domain.TestedRoundTripUnsatisfiable | Domain.ParseCanonical, Domain.CanonicalRoundTrip |
