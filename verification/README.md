# AR-Reshare: the request pipeline, its transaction compiler and its tables

A Dafny model of what happens to a request to the AR-Reshare backend: it is validated, its media are
uploaded, an SQL template is compiled into a transaction, the transaction is run against PostgreSQL, and one
response is sent.  Everything from `GeneralPipe.Execute` down to the rows of the tables is one development, so
that statements about responses are statements about rows.

- `Values`, `Vocabulary`: JavaScript and SQL values, error classes, property names, query names, statements.
- `SqlTemplate`: templates, the constructor's checks, `build` with its parameter matrix in arrays, `prepareResults`; the
  template as the object that all requests share, and the list that `build` makes for each of them.
- `Execution`, `Database`: what a plan does to any database; `complexQuery` as a step machine and as an object whose
  methods are its callbacks; interleaved calls; a database that may fail at any point.
- `Interpreter`, `PlanShape`: a second meaning of templates without indexes, the compiler's correctness, and what
  stands where in a plan.
- `Store`: `Pipeline.Store` and its fast path.
- `Schema`, `Statements`: the tables with their keys and CHECKs, and every write statement as an operation on them.
- `Search`, `SearchJoins`: search-listing as a plain filter, and as the joins it is written with.
- `Templates`, `Builds`, `HardCodedIndex`: the 22 templates, and that they build.
- `Invariants`, `Runs`, `Transactions`, `Closing`, `Uploads`, `Listings`: what statements and transactions keep.
- `CreateAccount`, `CreateListing`, `ModifyListing`, `Effects`: what the main transactions do to the rows.
- `MediaHandle`: the upload join as a machine and as an object with its array.
- `Request`, `RequestSchemas`, `Response`, `ResponseSchemas`: validation, responses and statuses.
- `GeneralPipe`, `Requests`, `Reachability`: whole requests, and every sequence of them.
- `Asked`, `Acceptance`: from what was sent to what is asked for, and which requests are accepted.
- `Grants`, `EndToEnd`: what a success has done, on any database, in terms of the token, the body, the path and the
  query, and of the columns of the rows.
- `Outcomes`, `ListingOutcomes`, `ModifyOutcomes`, `AccountOutcomes`, `ModifyAccount`: on a database that does not fail,
  exactly when each transaction succeeds, why else it is refused, and what it leaves.
- `Answers`, `ListingAnswers`, `AccountAnswers`: the same from the request to the response.
- `Rejections`, `ClosedDates`, `Deviations`: when an error does not mean unchanged tables, when a closing date moves,
  and which requests are answered otherwise than the API description says.

The main results are about every template, input, schedule, failure point and sequence of requests; the rows of the
table below say which.  `dafny verify dfyconfig.toml` checks all of it.

## What is assumed

- A statement either fails, or is a function of the tables and its parameters.  Which statements the server refuses
  for reasons of its own, and when connecting, BEGIN, COMMIT or ROLLBACK fail, is arbitrary.
- A COMMIT that fails has no effect, and what was done before a ROLLBACK is lost, whatever the ROLLBACK answers.
- For the results about tables, transactions take effect one after the other; the code issues a plain `BEGIN`, so
  isolation is the server's default.
- What callers send is data, never a function.
- SecurityValidate yields an account id, null, or an error; the uploader answers every item with a URL, or with an error
  and perhaps a URL as well.  Without one the callback throws; whether anybody catches that is arbitrary, and an
  exception that nobody catches ends the process.  Callbacks run in different turns of the event loop, so what the first
  failure settles has been answered before the next one.
- Login has a pipeline of its own (pipeline.js:236-302), which does not go through `GeneralPipe.Execute`: requests to it
  are not among those of `Reachability`, and leave the tables alone (`Requests.LoginStoresNothing`).
- Password, email, date and number checks and the sanitisers are arbitrary functions, and so is the recognition of
  data URIs, which validation and MediaHandle share.

## Where the code and its descriptions differ

The model follows the code.

- The comment in classes/responsetemplate.js:163 and Documentation.md speak of the first occurrence of a field; a later
  query overrides an earlier one (`Response.FirstOccurrenceIff`).  Documentation.md:147 says that the key of
  `rows_with_fields` is left out when no row matches; it is always there (`Response.RowsAreAlwaysThere`).
- docs/oas.yaml:110 promises 409 for an email address that is taken (`Deviations.TakenEmail`), and line 130 promises 409
  for closing an account twice: once the account is closed its password check fails
  (classes/securityvalidation.js:283-293 reads the first row of an empty result), and a request that has already passed
  it gets 404 (`Deviations.CloseAccountExactly`).
- tests/system/sys06.modifylisting.test.js:88 expects 404 for a listing that is not there; with a new address as
  location it is 200, and an address is stored that nothing refers to (`ModifyListing.ModifyListingAnswersIff`).
- An error response does not always mean that nothing happened: EmptyResponseError is raised after COMMIT
  (`Deviations.ErrorAfterEffect`).  That takes closing an account that is missing or deleted, and no other request can
  do it (`Rejections.RejectedWithEffect`, `Deviations.CloseAccountExactly`).
- "Closed" is final, its date is not: closing an account stamps the closing date of its listings that are closed already
  (`Deviations.ClosingDateMoves`), and nothing else moves such a date (`Grants.ClosedRowsKeepAllButTheDate`).
- An upload that fails without a result makes its callback throw (classes/pipeline.js:207), and the request may never be
  answered (`MediaHandle.LostIff`, `Requests.AnsweredExactly`).
- `times` may be 0: a reference to a query with no copies is then no error (classes/sqltemplate.js:209).
- The 403 of modify-account is for accounts that are missing or deleted (schemas/response-schemas.js:113-116); with a
  picture in the request it is 200, and the picture of a deleted account is changed
  (`AccountAnswers.ModifyAccountAnswered`).
- No login stores a device token, and no message ever carries media, because of names that do not match
  (`Requests.LoginStoresNothing`, `Requests.MessagesCarryNoUploads`).

## Model

| member | source | states |
|---|---|---|
| `SqlTemplate.CheckTemplate` | classes/sqltemplate.js:28-101 | the constructor accepts exactly the templates whose order names existing queries, whose references are to earlier queries, and whose drop list names queries of the order without dropping all of them where an empty response is an error |
| `SqlTemplate.GetAllIndexes` | classes/sqltemplate.js:10-18 | the index list is the ascending list of all positions of the element |
| `SqlTemplate.FillColumn` | classes/sqltemplate.js:151-224 | one value constructor either fails for its documented reason or appends exactly one parameter to every copy's row, split from an array of matching length or repeated |
| `SqlTemplate.BuildQuery` | classes/sqltemplate.js:111-238 | filling the matrix column by column in place yields the rows that a row-by-row definition of the copies gives, or the first fault |
| `SqlTemplate.SQLTemplate.Build` | classes/sqltemplate.js:108-245 | the imperative compiler of the template object puts the plan into a list of its own, or fails with the first fault in order or EmptyQueryError, and leaves the template as it is |
| `SqlTemplate.SQLTemplate.PrepareResults` | classes/sqltemplate.js:253-264 | the filter over results and names, and its empty-response check |
| `Interpreter.ByNameIsByIndex` | classes/sqltemplate.js:195-216 | looking up the i-th copy's result by query name is indexing with the i-th position that the compiler recorded |
| `Interpreter.CompilerCorrect` | classes/sqltemplate.js:108-245 | for every template, input and database: running the compiled plan and interpreting the template directly, with references resolved by name and copy number while it runs, give the same results, state and error; a template the compiler refuses also dies when interpreted |
| `PlanShape.BuildSucceedsIff` | classes/sqltemplate.js:116-242 | exactly when `build` returns a plan (no callable throws, and every reference is to a query with one copy or as many copies as its user), and exactly when it throws EmptyQueryError |
| `PlanShape.PlanLength` | classes/sqltemplate.js:227-237 | the plan is as long as the sum of the copies of the queries whose condition holds |
| `PlanShape.ParameterMatrix` | classes/sqltemplate.js:141-237 | copy i of query k stands at the sum of earlier copies plus i, and its j-th parameter is what constructor j denotes for copy i; a reference holds a strictly earlier place, which is named by the query referred to and is its i-th (or only) copy |
| `Builds.SoundBuilds` | classes/sqltemplate.js:198-222 | a general criterion: if all references are to one unrepeated query that runs whenever they do, `build` succeeds or finds nothing to do |
| `Builds.ShippedTemplatesBuild` | schemas/sql-templates.js:5-482 | every shipped template builds from every validated input; only modify-account and modify-listing can throw, and then EmptyQueryError |
| `Templates.TemplatesAccepted` | schemas/sql-templates.js:5-482 | all 22 shipped templates pass the constructor |
| `HardCodedIndex.HardCodedIndexIsRight` | schemas/sql-templates.js:284-288 | whenever the hard-coded `res[0]` is evaluated it stands after create_address, which is at place 0, and yields the id that was returned |
| `Database.ProtocolKept` | classes/database.js:10-140 | whatever the client answers and whenever it stops: the trace is BEGIN, the queries in order with the arguments their parameters have on the results so far, then COMMIT after all of them or ROLLBACK; queue, query in flight and results always add up to the plan; one release, one settlement |
| `Database.Settles` | classes/database.js:108-140 | a call settles after at most four answers more than it has queries |
| `Database.ResultsAreAnswers` | classes/database.js:47-56 | the result list holds exactly the answers to the call's own first queries, in order |
| `Database.Call.NextQueryHandler` | classes/database.js:10-60 | the callback that shifts the queue object in place and evaluates deferred parameters takes the machine's step |
| `Database.Call.Deliver` | classes/database.js:108-140 | every callback of a call takes the machine's step on its fields and its queue |
| `Database.ScheduledAlone` | classes/database.js:10-140 | requests arrive at any time, each built from one of the shared templates, and answers are interleaved in any way: each call is in the state it would be in alone on the answers meant for it, and keeps the protocol |
| `Database.Interleave` | classes/database.js:10-140 | the objects do the same, although they build from template objects that they share and shift their lists in place: no template changes, no two calls share a list, and every call is built from its template as it was at first |
| `Database.DeliverTo` | classes/database.js:10-60 | an answer takes one call a step further and leaves the queues and the results of all others as they are |
| `Database.ComplexQuery` | classes/database.js:108-140 | against a database that may fail at connecting, BEGIN, any statement, COMMIT or ROLLBACK: all effects and all results, or an error and the database as it was |
| `Database.SimpleQuery` | classes/database.js:88-98 | one statement, committed by itself; functions among its values are not called |
| `Database.SimpleIsComplex` | classes/database.js:88-98 | the one-statement path agrees with a transaction of that statement when no parameter is a function |
| `Store.Store` | classes/pipeline.js:71-121 | build, execute and filter, with constraint violations translated, on a shared template object that stays as it is; which errors those are is said by the rows about the outcomes of each action |
| `Store.FirstQueryIsPlain` | classes/pipeline.js:108-119 | the first query of a plan, so the only one of a one-query plan, refers to nothing |
| `Store.FastPathAgrees` | classes/pipeline.js:111-118 | the one-query fast path returns the rows and leaves the state of the general path |
| `Builds.ShippedOneQueryPlansArePlain` | classes/pipeline.js:111-118 | every shipped template meets the condition of that agreement |
| `Store.StoreMeansInterpretation` | classes/pipeline.js:71-121 | `Store` leaves the state of a direct run and resolves with its kept results, or rejects and leaves the state alone; with EmptyResponseError as the exception |
| `Store.KeptAreThePlaces` | classes/sqltemplate.js:256-258 | what is kept is the in-order subsequence of results whose query names are not dropped |
| `Store.ErrorsAndEffects` | classes/pipeline.js:84-119 | every error but EmptyResponseError leaves the state alone; EmptyResponseError is raised exactly if the option is set, the transaction took effect, and no query that is kept returned a row |
| `Search.PagesConcatenate` | schemas/sql-templates.js:253-264 | consecutive pages are a prefix of the whole result, and all of it once there are enough |
| `SearchJoins.FirstMediaIsIndexZero` | schemas/sql-templates.js:255 | the sub-select for the first media row finds the row with index 0, or none |
| `SearchJoins.JoinedRowsAreMatches` | schemas/sql-templates.js:255 | the three joins, scanned in any order, with NULL filters, anonymous callers and three-valued logic, yield exactly one row for every matching open listing |
| `SearchJoins.SearchIsPlain` | schemas/sql-templates.js:255 | after sorting, the rows are those of a plain filter over the listings in the order of their ids |
| `Invariants.ExecKeeps` | db/database-init.pgsql:26-122 | every statement is refused, or keeps keys, uniqueness, references and the address CHECK, and changes nothing that must not change; whatever its parameters, except that inserting a media row is only claimed for a listing that is open |
| `Invariants.LaterTransitive` | db/database-init.pgsql:52-122 | what must not change composes over steps |
| `Transactions.HarmlessStore` | schemas/sql-templates.js:5-482 | every transaction that neither closes listings nor adds listing media keeps the invariant, whatever fails |
| `Closing.CloseListingKeeps` | schemas/sql-templates.js:398-413 | closing a listing closes its conversations in the same transaction, so the invariant survives |
| `Closing.CloseAccountKeeps` | schemas/sql-templates.js:45-64 | the same for closing all listings of an account |
| `Closing.ListingClosed` | schemas/sql-templates.js:398-413 | a committed close-listing has closed one open listing of the caller, recorded the receiver, closed exactly the conversations about it, and changed nothing else |
| `Closing.AccountClosed` | schemas/sql-templates.js:45-64 | a successful close-account leaves exactly the tables with the account deleted and, column by column, every listing that it contributed and every conversation that it received or that is about such a listing closed; nothing of it is open then |
| `Closing.CloseAccountLeaves` | schemas/sql-templates.js:45-64 | the exact tables that any committed close-account leaves, also for an account that is missing or deleted, and that its first statement returns a row exactly for a live account |
| `Closing.ClosingColumnByColumn` | schemas/sql-templates.js:45-64 | the tables that closing an account leaves, row by row on the columns contributor and receiver |
| `Uploads.ChangeMediaRun` | schemas/sql-templates.js:372-382 | the upsert loop stores the uploads at indexes 0..n-1 of the caller's open listing, or does nothing |
| `Uploads.DropLeaves` | schemas/sql-templates.js:383-391 | dropping the rest leaves exactly the uploads |
| `Uploads.InsertMediaRun` | schemas/sql-templates.js:294-304 | the insert loop gives the new listing exactly the uploads |
| `CreateListing.ListingFromInput` | schemas/sql-templates.js:266-308 | a committed create-listing adds one open listing that is what the input says, whose media are exactly the uploads, in order; it changes no other listing, no other media and, but for a new address, no other table; it keeps the invariant, and returns the new id |
| `Listings.SameForAllCopies` | classes/sqltemplate.js:172-183 | an id that is usable both once and in n copies was not a list split between the copies |
| `Listings.ModifyListingCommits` | schemas/sql-templates.js:310-396 | a committed modify-listing with uploads on an open listing of the caller leaves exactly those uploads, and keeps the invariant |
| `CreateListing.ListingAsRequested` | schemas/sql-templates.js:266-308 | in terms of what was validated: the new row has the requested columns, the given address or a new one with the given parts, and the uploads of the submitted items at their own places; nothing else has changed |
| `ModifyListing.ListingModified` | schemas/sql-templates.js:310-396 | exactly the columns that were sent have their new values, the media are the uploads or untouched; no other listing, no other media and, but for a new address, no other table has changed |
| `ModifyListing.ModifyListingAnswersIff` | schemas/sql-templates.js:310-396 | a modify-listing whose statements went through is answered with success exactly if the listing is an open one of the caller or the location was a new address; if the listing is not, exactly that address has been added, which no listing refers to |
| `Deviations.TakenEmail` | schemas/sql-templates.js:11-43 | a taken email address changes nothing, and is answered with the documented 409 exactly if neither address nor picture was sent; else with 500 |
| `Deviations.CloseAccountExactly` | schemas/sql-templates.js:45-64 | for an id, on a database that does not fail: close-account succeeds exactly for an account that is there and not deleted; else it answers 404 and not the documented 409, and yet has changed the tables exactly if the account owns a listing, or takes part in a conversation, whose closing date is not the date of the request; what it leaves is said column by column: every row whose contributor or receiver is the account has the date, and no other row has changed |
| `Deviations.CloseAccountNeedsId` | schemas/sql-templates.js:45-64 | for anything but an id close-account fails and changes nothing |
| `Rejections.RejectedWithEffect` | classes/pipeline.js:84-119 | for every action, usable input and failure around it: if the store stage rejects and has changed the tables, an account was closed that is missing or deleted |
| `Grants.ErrorsAreHarmless` | pipeline.js:137-172 | for every request: an error response means unchanged tables, unless the request closes an account that is missing or deleted |
| `ClosedDates.DatesMoveOnlyThen` | schemas/sql-templates.js:45-453 | for every action and input: the row of a closed listing stays as it is, except that close-account by its contributor gives it the date of the request |
| `Grants.ClosedRowsKeepAllButTheDate` | pipeline.js:101-173 | the same for every request |
| `Deviations.ClosingDateMoves` | schemas/sql-templates.js:52-57 | a concrete state in which closing the account overwrites the closing date of a listing that was closed before |
| `Deviations.ErrorAfterEffect` | classes/pipeline.js:84-92 | a concrete state in which close-account answers an error and has closed a listing |
| `Reachability.StoreKeeps` | schemas/sql-templates.js:5-482 | every store stage of every action keeps the invariant and everything that must not change |
| `Reachability.VisitKeeps` | pipeline.js:101-173 | so does every request, whatever fails |
| `Reachability.RunKeeps` | pipeline.js:101-173 | so does every sequence of requests |
| `Reachability.EveryReachableState` | schemas/sql-templates.js:5-482 | after any sequence of requests, failing ones included: every open conversation is about an open listing; there is at most one conversation per receiver and listing, never the contributor's own, and all its messages come from these two; a listing's address belongs to its contributor; its category, its receiver and its contributor are there, and so is all that any other row refers to; no two accounts share an email address; media indexes are exactly 0..k-1; the categories never change |
| `Reachability.MediaIndexesAreAPrefix` | schemas/sql-templates.js:294-392 | downward closed media indexes are exactly 0..k-1 for some k |
| `Reachability.EveryLaterState` | schemas/sql-templates.js:45-453 | from any reachable state on: a closed listing stays closed, its content and media never change, no conversation about it is begun or reopened, and none receives a message; conversations keep id and parties, messages stay as they are, addresses and contributors never change |
| `MediaHandle.Confluence` | classes/pipeline.js:188-215 | for every order of submissions and callbacks the promise can only settle in one way, and has settled when nothing more can happen: with the uploads in the order of the items if all succeed, else with FailedUploadError |
| `MediaHandle.SettledStays` | classes/pipeline.js:188-215 | later callbacks do not change the settlement |
| `MediaHandle.LostIff` | classes/pipeline.js:201-212 | the process ends before the promise has settled for its caller exactly if the first upload to fail does so without a result, so that reading its url throws, and nobody catches that |
| `MediaHandle.Join.OnUpload` | classes/pipeline.js:201-212 | one callback writes its place in the array, sets the error flag, settles the promise if it is the last or the first to fail, and ends the process if it throws and nobody catches it |
| `MediaHandle.Handle` | classes/pipeline.js:188-215 | the closure variables after a schedule hold the state of the machine |
| `Request.Process` | classes/requesttemplate.js:74-105 | the loop computes the output object, or the first fault |
| `Request.ProcessSucceedsIff` | classes/requesttemplate.js:74-105 | it succeeds exactly if no parameter is at fault, and else throws the fault of the first one that is |
| `Request.OutputIsDeclared` | classes/requesttemplate.js:77-104 | the output has exactly the declared fields that were sent, verified and sanitised |
| `Request.ProcessExactly` | classes/requesttemplate.js:74-105 | in terms of what was sent: it succeeds exactly if every parameter passes; then the output is the sanitised values that were sent under the declared names, and nothing else; otherwise the error is that of the first parameter that does not pass |
| `Asked.TokenIsCaller` | pipeline.js:108-121 | an account id from the token is the caller, whatever was sent; without one it is what the body says |
| `Asked.AskedIsSent` | pipeline.js:108-122 | for every action: every declared field that is asked for is the sanitised one of the body, or of the path and else the query, with the account id of the token over all of them; it meets its conditions, and there is nothing else |
| `Asked.CallerIsTokens` | pipeline.js:116-121 | for every action that takes an account id: what it takes is the account id of the token, if there is one |
| `Asked.AcceptedIff` | pipeline.js:108-122 | a request is validated exactly if the caller is let in and every parameter passes |
| `Acceptance.CreateListingAccepted` | schemas/request-schemas.js:346-379 | exactly which create-listing requests are accepted, field by field, on what was sent |
| `Acceptance.CloseListingAccepted` | schemas/request-schemas.js:420-435 | exactly which close-listing requests are: in particular the receiver is not the caller |
| `Acceptance.IdsAccepted` | schemas/request-schemas.js:437-455 | exactly which requests of nothing but ids are |
| `Acceptance.MessageAccepted` | schemas/request-schemas.js:457-476 | exactly which create-message requests are |
| `Schema.NumbersAreRead` | schemas/sql-templates.js:5-482 | a number used as an integer parameter is itself, and so is text of its digits with a sign or without |
| `RequestSchemas.ProcessValidates` | schemas/request-schemas.js:122-548 | for every action and whatever was sent: a validated address or location is neither null nor undefined, validated media is a list of data URIs, and none of the fields that Execute adds is there |
| `Response.Choose` | classes/responsetemplate.js:164-169 | the nested loops find the first row with the fields in the last query that has one |
| `Response.Collect` | classes/responsetemplate.js:170-177 | the loops collect what the definition of collected rows says |
| `Response.CollectedLists` | classes/responsetemplate.js:170-177 | what is collected are the rows with the fields, each exactly once, in the order of the queries and of the rows of each |
| `Response.GetResponse` | classes/responsetemplate.js:158-193 | the loop computes the output object, parameter by parameter; what is in it is said by the rows that follow |
| `Response.KeysOfResponse` | classes/responsetemplate.js:158-193 | exactly which keys the output has, for distinct names: that of rows always, that of one row exactly if some query returned such a row, that of a field exactly if the row that is chosen has a defined value for it |
| `Response.FieldIffSomeRow` | classes/responsetemplate.js:164-169 | if no row holds an undefined value for it, a field is in the output exactly if some query returned a row with it |
| `Response.RowsAreAlwaysThere` | classes/responsetemplate.js:170-193 | the key of rows is in every output, whatever the names of the other parameters and even if no row matches |
| `Response.ValuesOfResponse` | classes/responsetemplate.js:158-193 | for distinct names and any results: the value of every parameter, by quantifying over queries and rows and not by the loops: one row is the first row with the fields in the last query that has one, a field is that row's value, and rows are all the rows with the fields |
| `ResponseSchemas.EveryValueIs` | schemas/response-schemas.js:5-165 | so every field that a shipped action declares is answered with the value it is declared to have |
| `ResponseSchemas.ListingIsAnswered` | schemas/response-schemas.js:26-58 | the two views of a listing: its columns, its address as one row, and its media as rows |
| `ResponseSchemas.NamesAreDistinct` | schemas/response-schemas.js:5-165 | no shipped response template uses a name twice |
| `Response.FirstOccurrenceIff` | classes/responsetemplate.js:162-169 | the value found is the first occurrence, as the comment says, exactly if at most one query returned a row with the field |
| `Response.LaterQueryOverrides` | classes/responsetemplate.js:162-169 | two queries that both return the field: the later one wins |
| `ResponseSchemas.StatusTellsSuccess` | classes/responsetemplate.js:143-151 | for every action and every error: the status is 2xx exactly if there is no error |
| `ResponseSchemas.ErrorIsAnswered` | classes/responsetemplate.js:143-151 | the status of every error that the pipeline raises, for every action: which of them 404, 409, 403, 400, 422 and 500 are for |
| `ResponseSchemas.SecurityErrorIsAnswered` | classes/responsetemplate.js:143-151 | and of the errors with which a caller is not let in |
| `GeneralPipe.APIRespond` | classes/pipeline.js:149-169 | the status and the body that are sent |
| `GeneralPipe.Validate` | pipeline.js:108-122 | security, then validation of the gathered object with the account id added; that this is the caller of the token and the fields that were sent is said by the rows of `Asked` |
| `GeneralPipe.Upload` | pipeline.js:122-134 | the media fields are added unless nothing was uploaded |
| `GeneralPipe.Execute` | pipeline.js:101-173 | the stages in their order on one server and one response object; what comes of them is said by the rows of `EndToEnd` and of the exact answers |
| `Requests.UploadsInOrder` | pipeline.js:126-134 | whatever the order of completion, the store stage gets what was validated and the uploads in the order of the items |
| `Requests.OrderDoesNotMatter` | pipeline.js:126-137 | two orders of completion lead to the same store stage or the same error |
| `Requests.ReadyBuilds` | pipeline.js:101-137 | a request that reaches the store stage never fails with QueryConstructionError |
| `Requests.AnsweredOnce` | pipeline.js:166-172 | a request is answered exactly once, unless its uploads do not settle or an exception from one of their callbacks ends the process |
| `Requests.AnsweredExactly` | pipeline.js:126-134 | when no callback is outstanding any more, a request has settled exactly unless the first of its uploads to fail did so without a result and nobody caught the exception |
| `Requests.StatusTellsEffect` | pipeline.js:137-172 | a 2xx status: every stage succeeded and the database ran the whole plan; any other: the database is unchanged, unless the error is EmptyResponseError and the plan ran |
| `Requests.EarlyFailureTouchesNothing` | pipeline.js:116-137 | a failure of security, validation or upload leaves the database untouched, and an upload failure means that some upload failed |
| `Requests.LoginStoresNothing` | schemas/sql-templates.js:66-83 | no login ever stores a device token: the field is called deviceToken when validated and device_token in the template |
| `Requests.MessagesCarryNoUploads` | schemas/request-schemas.js:457-476 | the media of a message are never uploaded: the field is mediaContent, and only media is looked for |
| `EndToEnd.CreateAccountEndToEnd` | pipeline.js:101-173 | a successful create-account request has added exactly the account that the body says under a new id, with the password hashed, with its address, and with the upload of its picture as its one media row; nothing else has changed; the answer is 201 and success |
| `EndToEnd.CloseAccountEndToEnd` | pipeline.js:101-173 | a successful close-account request: the caller, who is the account of the token if there is one, is deleted; every listing with that contributor, and every conversation with that receiver or about such a listing, has the date of the request; every other row is unchanged; the answer is 200 and success |
| `CreateAccount.AccountCreated` | schemas/sql-templates.js:11-43 | a stored create-account has added the account, its address and its picture, each attached to the new id, and returns only that id |
| `EndToEnd.CreateListingEndToEnd` | pipeline.js:101-173 | a successful create-listing request: the contributor is the account of the token, title, description, condition, category and address are those of the body, media row i is the upload of item i of the body, nothing else has changed but for a new address, and the answer is 201 with the new id |
| `EndToEnd.ModifyListingEndToEnd` | pipeline.js:101-173 | a successful modify-listing request: on an open listing of the caller of the token the columns that the body says, the uploads in order or untouched media, and nothing else but for a new address; on any other listing exactly a new address; and the answer is 200 and success |
| `EndToEnd.CloseListingEndToEnd` | pipeline.js:101-173 | a successful close-listing request has closed that open listing of the caller of the token, in favour of the receiver of the body, and exactly the conversations about it; the answer is 200 and success |
| `EndToEnd.ConversationEndToEnd` | schemas/sql-templates.js:415-423 | a successful create-conversation request: open, between the caller of the token and the contributor of an open listing who is someone else, under its old id if it existed, nothing else changed, and the answer is 201 with that id |
| `EndToEnd.MessageEndToEnd` | schemas/sql-templates.js:435-453 | a successful create-message request: the caller of the token is the receiver of the open conversation or the contributor of its listing, one message of the caller with the text of the body is appended, nothing else changed, and the answer is 201 with its id |
| `EndToEnd.CloseConversationEndToEnd` | schemas/sql-templates.js:425-433 | a successful close-conversation request: the caller of the token is the receiver of the open conversation or the contributor of its listing, it is closed with the date of the request, and nothing else has changed |
| `Effects.ConversationClosed` | schemas/sql-templates.js:425-433 | a successful close-conversation: an open conversation is closed by its receiver or by the contributor of its listing, and nothing else changes |
| `Effects.ListingSaved` | schemas/sql-templates.js:180-188 | a successful save: an open listing that was not saved is, and nothing else changes |
| `Effects.ForgettingUndoesSaving` | schemas/sql-templates.js:180-198 | saving and then forgetting a listing leaves the tables as they were |
| `EndToEnd.SearchEndToEnd` | schemas/sql-templates.js:253-264 | a successful search-listing request changes nothing and answers 200 with the page that the path and the query say of the open listings that match them, possibly empty |
| `Answers.SecurityAnswered` | pipeline.js:116-122 | a caller who is not let in is told so, 401 or 403, and nothing has changed |
| `Answers.FaultAnswered` | classes/pipeline.js:46-63 | a request with a field that is missing or not as it should be is answered 400 or 422 for the first one, and nothing has changed |
| `Answers.UploadedWhen` | pipeline.js:122-134 | when no callback is outstanding and every upload has succeeded, the request reaches the store stage |
| `Outcomes.CreateConversationExactly` | schemas/sql-templates.js:415-423 | on a database that does not fail: a conversation is begun, or reopened under the id it has, exactly if the listing is open and someone else's and the account exists; otherwise nothing changes |
| `Answers.ConversationAnswered` | schemas/sql-templates.js:415-423 | the same from the request to the response: 201 with the old id if this receiver has a conversation about this listing already, 201 with a fresh one if not, and 404 otherwise |
| `Answers.CloseConversationAnswered` | schemas/sql-templates.js:425-433 | on a database that does not fail: the receiver, and the contributor of the listing, can close the conversation while it is open; for everybody and everything else 404 is answered and nothing changes |
| `Answers.MessageAnswered` | schemas/sql-templates.js:435-453 | both of them can send a message while it is open, and nobody else: 201 or 404 |
| `Answers.SaveAnswered` | schemas/sql-templates.js:180-188 | a listing is saved exactly if it is open, not saved yet, and the account exists; else 404, or 409 if it is saved already |
| `Answers.ForgetAnswered` | schemas/sql-templates.js:190-198 | a listing is forgotten exactly if it was saved |
| `Answers.CloseAccountAnswered` | schemas/sql-templates.js:45-64 | 200 exactly for an account that is there and not deleted, else 404; and what is left in both cases, on the columns |
| `Answers.CloseListingAnswered` | schemas/sql-templates.js:398-413 | a listing is closed, and exactly the conversations about it, exactly if it is an open one of the caller and the receiver, if one is said, has an account; else 404 and nothing changes |
| `Answers.SearchAnswered` | schemas/sql-templates.js:253-264 | a search whose numbers can be read succeeds, with its page |
| `ListingOutcomes.CreateListingExactly` | schemas/sql-templates.js:266-308 | on a database that does not fail: create-listing succeeds exactly if the columns are not NULL, the account exists, the category is NULL or exists, the location is a full address or the id of an address whose user is the caller, and no upload is without a url; if only what is referred to is not there, that is the error; and every refusal leaves the tables alone |
| `ListingAnswers.CreateListingAnswered` | classes/pipeline.js:94-106 | the same from the request to the response: 201 with the new id, or 404 for a category that does not exist and for an address that is missing or someone else's, with the tables as they were |
| `ListingAnswers.CreatedListingIsSent` | pipeline.js:101-173 | and what was created then is what was sent |
| `ModifyOutcomes.ModifyListingExactly` | schemas/sql-templates.js:310-396 | on a database that does not fail: exactly when modify-listing succeeds, for an open listing of the caller and for any other; nothing to change, a missing reference and a missing listing have their own errors; and every refusal leaves the tables alone |
| `ListingAnswers.ModifyListingAnswered` | classes/pipeline.js:94-106 | the same from the request to the response: 200, 400 for nothing to change, or 404 for a category that does not exist, an address that is missing or someone else's, and a listing that is not an open one of the caller; with the tables as they were |
| `AccountOutcomes.CreateAccountExactly` | schemas/sql-templates.js:11-43 | on a database that does not fail: an account is created exactly if nothing of it is NULL and no account has its email address; and what is left |
| `AccountAnswers.CreateAccountAnswered` | pipeline.js:101-173 | the same from the request to the response: 201, 409, or 500 if the email address is taken and an address or a picture came along |
| `ModifyAccount.ModifyAccountExactly` | schemas/sql-templates.js:85-130 | on a database that does not fail: exactly when an account is changed, and to what, column by column; a deleted account can only get a new picture |
| `AccountAnswers.ModifyAccountAnswered` | schemas/sql-templates.js:85-130 | the same from the request to the response: 200, 400 for nothing to change, 403 for an account that is missing or deleted, 409 for the email address of another account |
| `Grants.PageOfJoins` | schemas/sql-templates.js:253-264 | that page is cut out of the joined rows, whatever the order in which the server scanned the tables |

## Left out

- Express routing, HTTP objects, logging, setup scripts and the documentation site.
- `jsonwebtoken`, `bcrypt`, `express-validator`, `nodemailer`, `cloudinary` and `pg`: libraries that this code calls.
- classes/email.js and push notifications: every pipeline is constructed without them in app.js.
- The login and regenerate-token pipelines beyond the plan that login stores: they consist of calls into those
  libraries.
- SQL as text: each write statement and search-listing is an operation written by hand; the other SELECTs return
  arbitrary rows or fail, and change nothing.
- The push-token table: no request writes to it (`Requests.LoginStoresNothing`).
- Dates beyond being NULL or set; the width of integers; text columns hold the parameter they were given, so the checks
  of `passtype`, `mimetype` and `itemCondition` can only show up as refusals.
- Serial ids: a rolled-back insert gives its id back, where PostgreSQL leaves a gap; only freshness is used.
- Properties inherited through JavaScript's prototype chain, as in `'constructor' in inputObject`.
- Fractional numbers in requests: `Number.parseFloat` is applied to integers, strings and lists only.
- The type checks of the three template constructors that are one branch each.
- PostgreSQL's isolation anomalies between concurrent transactions.
- Rows changed in place: a statement yields the next tables, and the server object replaces its state by them.
- The views row by row: they run SELECTs whose rows are left to the server; what is answered for any rows is
  `Response.ValuesOfResponse`.
- Ids that pass validation but do not read as integers, such as fractions in text: the server refuses them, and the
  exact answers are stated for ids that do.
- The further notations for integers that recent PostgreSQL versions read, such as hexadecimal ones.
- What the end of the process does to the other requests that it was serving.
