# tracker-backend in Dafny

A model of the core of tracker-backend, a service that records support cases
and the SQL queries run while working on them. It covers:

- **The domain layer.** The validating factories `CaseQuery.create` and
  `SupportCase.create`, `add_query`, and the three status mutators. Beside
  them sits the separate transition table `CaseStatus.can_transition_to`;
  where the two disagree both are stated as written.
- **The persistence scaffolding.**
  - The Unit of Work is a class over a connection pool and a store. The store
    keeps committed tables plus one pending buffer per open transaction.
  - The two repositories are insert-only writes and ordered reads over
    in-memory tables of rows.
- **The three use cases.** Create a case with its queries in one
  transaction; list a page of cases with their query counts; fetch one case
  with its queries.
- **The API layer.** The request's field constraints (the creator-email
  regex written as a predicate) and the mapping of a case to its response.

Python's `str.strip()` is modelled with the character set of Python's `str.isspace` (`Text`).
`datetime.utcnow` is a clock supply `clock: nat -> Timestamp` read in call
order (`CreateCase.Clock`), or a single `now` reading for an operation that
reads it once. `uuid4` is an id supply `ids: nat -> Uuid`. A server failure
at commit or rollback is a `fault` parameter.

Case creation saves the case row before its query loop, and each
`add_query` in that loop stamps `updated_at` afresh. So the case `execute`
returns carries the last stamp, while the committed row keeps the
`updated_at` of the case as first built (`GetCaseById.ReadBackIsUnstamped`,
`GetCaseById.OneQueryShowsTheDifference`). The queries are read back in
`executed_at` order, a rearrangement of the created ones. That is input
order when the queries' `executed_at` readings strictly increase
(`GetCaseById.CreatedCaseReadsBackInOrder`), whatever order the server gives
rows of equal time (`QueryRepository.OnlyOrdering`).

Modules follow the source.
- `Primitives`, `Errors`: option, result and outcome types, and the error
  taxonomy. Each `DomainValidationError` message is one `ValidationFailure`.
- `Text`: `strip` and the blank test.
- `ValueObjects` (app/domain/value_objects/case_status.py): the enums.
- `Entities` (app/domain/entities/case.py).
- `Storage`: rows, tables, the store and the pool. This is what asyncpg and
  PostgreSQL provide.
- `UnitOfWork` (app/infrastructure/database/unit_of_work.py).
- `CaseRepository`, `QueryRepository`: the two repository implementations.
- `CreateCase`, `GetCaseById`, `GetCases`: the use cases.
- `Schemas` (app/api/v1/schemas/cases.py, queries.py).

Each state-changing method is proved against a function. `BodyOutcome` is
the result of the `async with` block of case creation. `CaseWithQueries` is
what fetching a case yields. `QueriesOf` is the `WHERE … ORDER BY` of
`get_by_case_id`. The lemmas beside each function prove what the source
promises about it.

## Model

| member | source | states |
|---|---|---|
| Text.TrimStartSpec | app/domain/entities/case.py:37-44 | the left strip removes exactly a whitespace prefix and leaves a result not starting with whitespace |
| Text.TrimEndSpec | app/domain/entities/case.py:37-44 | the right strip removes exactly a whitespace suffix and leaves a result not ending with whitespace |
| Text.StripShape | app/domain/entities/case.py:51-53 | `strip()` yields a contiguous piece of the input with only whitespace cut from either side, and the piece neither starts nor ends with whitespace |
| Text.BlankIffStripsToEmpty | app/domain/entities/case.py:37-44 | the factories' test `not s or len(s.strip()) == 0` holds exactly when every character is whitespace |
| Text.StripShrinks | app/domain/entities/case.py:95 | stripping never lengthens a string |
| Text.StripYieldsTrimmed | app/domain/entities/case.py:51-53 | a non-blank string strips to a non-empty string with no whitespace at either end |
| Text.TrimmedIsFixed | app/domain/entities/case.py:51-53 | a string already trimmed is left unchanged by `strip()` |
| Text.StripIdempotent | app/domain/entities/case.py:51-53 | stripping twice is stripping once |
| ValueObjects.ParseStatus | app/infrastructure/database/repositories/case_repository_impl.py:88 | `CaseStatus(s)` yields the status whose value is `s`, and fails exactly for strings outside the four values |
| ValueObjects.ParseCaseType | app/application/use_cases/create_case.py:48 | `CaseType(s)` yields the type whose value is `s`, and fails exactly outside support/requirement/investigation |
| ValueObjects.ParsePriority | app/application/use_cases/create_case.py:49 | `CasePriority(s)` yields the priority whose value is `s`, and fails exactly outside low/medium/high/critical |
| ValueObjects.CaseStatus.CanTransitionTo | app/domain/value_objects/case_status.py:10-18 | the transition table of `can_transition_to`; `TransitionTable` states it entry by entry |
| ValueObjects.ValuesRoundTrip | app/domain/value_objects/case_status.py:5-8 | every enum value parses back to its own member, and the four status values are distinct |
| ValueObjects.ClosedIsTerminal | app/domain/value_objects/case_status.py:16-18 | CLOSED permits no successor |
| ValueObjects.NoSelfTransition | app/domain/value_objects/case_status.py:12-18 | no status may transition to itself |
| ValueObjects.TransitionTable | app/domain/value_objects/case_status.py:12-18 | OPEN goes exactly to IN_PROGRESS or CLOSED; IN_PROGRESS exactly to RESOLVED or CLOSED; RESOLVED only to CLOSED |
| ValueObjects.TransitionsMoveForward | app/domain/value_objects/case_status.py:12-18 | every permitted transition strictly increases the position in open < in_progress < resolved < closed |
| ValueObjects.PathRankIncreases | app/domain/value_objects/case_status.py:12-18 | along any chain of permitted transitions the position strictly increases |
| ValueObjects.TransitionsAcyclic | app/domain/value_objects/case_status.py:12-18 | no chain of permitted transitions returns to its start |
| Entities.CreateQueryChecks | app/domain/entities/case.py:26-57 | `CaseQuery.create` fails with the first of: blank database name, blank schema name, blank query text, executor without `@`; it succeeds exactly when none applies, with the three texts stripped, the executor untouched, the given case id and the given reading as `executed_at` |
| Entities.CreateQuery | app/domain/entities/case.py:25-57 | `CaseQuery.create` on values: the four checks in source order, then the record built with stripped texts and the `executed_at` reading; its contract is `CreateQueryChecks` |
| Entities.CreatedQueryIsWellFormed | app/domain/entities/case.py:37-57 | every accepted query has three non-empty trimmed texts and an executor containing `@` |
| Entities.RecreateQuery | app/domain/entities/case.py:37-57 | a well-formed query passes `create` again unchanged |
| Entities.CreateCaseHeaderChecks | app/domain/entities/case.py:71-101 | `SupportCase.create` fails with the first of: blank title, raw title over 200 characters, creator without `@`; it succeeds exactly when none applies, with the stripped title, status OPEN, description unchecked, and `created_at` and `updated_at` the two readings of their own default factories |
| Entities.CreateCaseHeader | app/domain/entities/case.py:71-101 | `SupportCase.create` on values: the three checks in source order, then the case's scalar fields; its contract is `CreateCaseHeaderChecks` |
| Entities.StoredTitleFits | app/domain/entities/case.py:85-95 | a title that passes the checks is stored trimmed, non-empty and within 200 characters |
| Entities.CreatedCaseIsWellFormed | app/domain/entities/case.py:85-101 | every created case is well formed and OPEN |
| Entities.LengthIsCheckedBeforeStripping | app/domain/entities/case.py:88 | a title of 200 characters plus a trailing space is refused as too long, although its stripped form would fit |
| Entities.CloseIsStricterThanTable | app/domain/entities/case.py:126-132 | whatever `close()` accepts the table permits, but the table also permits open→closed and in_progress→closed, which `close()` refuses |
| Entities.MarkInProgressIsLooserThanTable | app/domain/entities/case.py:110-116 | whatever the table lets reach IN_PROGRESS `mark_as_in_progress` accepts, but it also accepts resolved and in_progress, which the table forbids |
| Entities.MarkResolvedIsLooserThanTable | app/domain/entities/case.py:118-124 | whatever the table lets reach RESOLVED `mark_as_resolved` accepts, but it also accepts open, which the table forbids |
| Entities.SupportCase.constructor | app/domain/entities/case.py:60-73 | the dataclass constructor sets every field as given |
| Entities.SupportCase.Create | app/domain/entities/case.py:75-101 | the factory's error, or a fresh case with the validated fields and no queries |
| Entities.SupportCase.AddQuery | app/domain/entities/case.py:103-108 | a query of another case is refused and nothing changes; otherwise exactly that query is appended, `updated_at` is set and nothing else changes; ownership of all queries is preserved |
| Entities.SupportCase.MarkAsInProgress | app/domain/entities/case.py:110-116 | refused only from CLOSED, with nothing changed; otherwise status IN_PROGRESS and `updated_at` set, nothing else changed |
| Entities.SupportCase.MarkAsResolved | app/domain/entities/case.py:118-124 | accepted only from OPEN or IN_PROGRESS; otherwise nothing changes |
| Entities.SupportCase.Close | app/domain/entities/case.py:126-132 | accepted only from RESOLVED; otherwise nothing changes |
| Storage.Store.Write | app/infrastructure/database/connection.py:62-74 | a write inside a transaction goes to that transaction's buffer, otherwise to the committed tables; what the writer sees grows by exactly the rows written |
| Storage.Store.InsertQueryRow | app/infrastructure/database/repositories/query_repository_impl.py:17-55 | the single-row INSERT is logged as such; a present id writes nothing, otherwise exactly the row is added where the writer sees it and no other transaction is touched |
| Storage.Store.InsertCaseRow | app/infrastructure/database/repositories/case_repository_impl.py:22-28 | the INSERT is logged; a duplicate id is a unique violation that writes nothing, otherwise exactly the row is added where the writer sees it and no other transaction is touched |
| Storage.Store.InsertQueryRows | app/infrastructure/database/repositories/query_repository_impl.py:62-91 | the batch INSERT is logged; an id already present or repeated in the batch writes nothing, otherwise exactly the batch is added in order |
| Storage.Store.Begin | app/infrastructure/database/unit_of_work.py:25-26 | starting a transaction opens an empty buffer for the connection |
| Storage.Store.Commit | app/infrastructure/database/unit_of_work.py:49-52 | commit on no active transaction fails and changes nothing; otherwise it closes the buffer and appends it to the committed tables unless the server fails |
| Storage.Store.Rollback | app/infrastructure/database/unit_of_work.py:54-57 | rollback on no active transaction fails; otherwise it discards the buffer and leaves the committed tables as they were |
| Storage.Store.Reset | app/infrastructure/database/unit_of_work.py:45 | releasing a connection drops any buffer it still holds and nothing else |
| Storage.AppendCaseThenQueries | app/application/use_cases/create_case.py:54-72 | writing the case row and then the query batch adds the same rows as writing both at once |
| Storage.RemoveChanged | app/infrastructure/database/unit_of_work.py:41-47 | closing one connection's buffer leaves the other buffers as they were |
| Storage.Pool.constructor | app/infrastructure/database/connection.py:12-29 | a pool starts with nothing borrowed, initialised or not |
| Storage.Pool.Acquire | app/infrastructure/database/unit_of_work.py:24 | acquiring hands out a connection not already borrowed and moves it from free to borrowed |
| Storage.Pool.Release | app/infrastructure/database/unit_of_work.py:45 | releasing moves the connection back to free and drops its open buffer |
| UnitOfWork.PostgreSQLUnitOfWork.constructor | app/infrastructure/database/unit_of_work.py:13-16 | a new Unit of Work holds no connection and no transaction |
| UnitOfWork.PostgreSQLUnitOfWork.GetConnection | app/infrastructure/database/unit_of_work.py:59-63 | the held connection, or "no active transaction" when none is held |
| UnitOfWork.PostgreSQLUnitOfWork.Enter | app/infrastructure/database/unit_of_work.py:18-28 | without a pool it fails and changes nothing; otherwise it borrows a fresh connection, sets both fields and begins an empty transaction |
| UnitOfWork.PostgreSQLUnitOfWork.Commit | app/infrastructure/database/unit_of_work.py:49-52 | a no-op without a transaction; otherwise the store's commit on the held connection |
| UnitOfWork.PostgreSQLUnitOfWork.Rollback | app/infrastructure/database/unit_of_work.py:54-57 | a no-op without a transaction; otherwise the store's rollback on the held connection |
| UnitOfWork.PostgreSQLUnitOfWork.Exit | app/infrastructure/database/unit_of_work.py:30-47 | exactly one of rollback (scope raised) or commit (it did not); the connection is always released and both fields cleared, even when commit or rollback fails; that failure is the result |
| CaseRepository.CaseToRow | app/infrastructure/database/repositories/case_repository_impl.py:32-43 | the nine columns, enums as their `.value`, read back by the row mapping as the same case |
| CaseRepository.CaseFromRow | app/infrastructure/database/repositories/case_repository_impl.py:80-92 | `_map_to_entity` fails on the first column (type, priority, status) that is not an enum value, succeeds exactly otherwise, and copies every other column |
| CaseRepository.RowRoundTrip | app/infrastructure/database/repositories/case_repository_impl.py:80-92 | a row that maps to a case is written back as the same row |
| CaseRepository.FindCase | app/infrastructure/database/repositories/case_repository_impl.py:62-76 | `WHERE id = $1` finds a row with that id exactly when one exists |
| CaseRepository.CaseIdsAppend | app/infrastructure/database/repositories/case_repository_impl.py:20-28 | inserting a row adds exactly its id to the table's ids |
| CaseRepository.SavedCaseIsFound | app/infrastructure/database/repositories/case_repository_impl.py:20-92 | a case saved under a new id is found by `get_by_id` and maps back to the same case |
| CaseRepository.CaseRepositoryImpl.constructor | app/infrastructure/database/repositories/case_repository_impl.py:16-18 | the repository keeps its pool and its optional transaction connection |
| CaseRepository.CaseRepositoryImpl.Save | app/infrastructure/database/repositories/case_repository_impl.py:20-58 | without a connection or pool it fails and writes nothing; otherwise exactly one INSERT; a duplicate id fails, else exactly the case's row is added where the repository writes, and other transactions are untouched |
| CaseRepository.CaseRepositoryImpl.GetById | app/infrastructure/database/repositories/case_repository_impl.py:60-78 | the pool failure, `None` when no row has the id, the mapping's error, or a fresh case equal to the row with no queries |
| CaseRepository.CaseRepositoryImpl.MapToEntity | app/infrastructure/database/repositories/case_repository_impl.py:80-92 | the mapping's error or a fresh case with the row's fields and no queries |
| QueryRepository.QueryToRow | app/infrastructure/database/repositories/query_repository_impl.py:19-54 | the nine values `save` binds, in column order; `QueryMappingRoundTrip` proves it inverse to the row mapping |
| QueryRepository.QueryFromRow | app/infrastructure/database/repositories/query_repository_impl.py:113-125 | `_map_to_entity`: every column copied, nothing parsed; `QueryMappingRoundTrip` proves it inverse to the column mapping |
| QueryRepository.QueryMappingRoundTrip | app/infrastructure/database/repositories/query_repository_impl.py:113-125 | query-to-row and row-to-query are inverse to each other |
| QueryRepository.QueryRows | app/infrastructure/database/repositories/query_repository_impl.py:71-84 | the `values` list: one row per query, in list order, with the column mapping of `save`; `RowsRoundTrip` proves it loses nothing |
| QueryRepository.QueriesFromRows | app/infrastructure/database/repositories/query_repository_impl.py:111 | the list comprehension: one query per row, in row order; `RowsRoundTrip` and `QueriesFromPermutedRows` state what it preserves |
| QueryRepository.RowsRoundTrip | app/infrastructure/database/repositories/query_repository_impl.py:71-125 | saved queries map back to the same list |
| QueryRepository.QueriesFromRowsAppend | app/infrastructure/database/repositories/query_repository_impl.py:111 | reading rows back commutes with concatenation |
| QueryRepository.QueriesFromPermutedRows | app/infrastructure/database/repositories/query_repository_impl.py:111 | rows that are a rearrangement of each other read back as queries that are a rearrangement of each other |
| QueryRepository.FilterByCase | app/infrastructure/database/repositories/query_repository_impl.py:102 | `WHERE case_id = $1` keeps every row of the case and only such rows |
| QueryRepository.FilterAppend | app/infrastructure/database/repositories/query_repository_impl.py:102 | filtering distributes over concatenated tables |
| QueryRepository.FilterKeepsOwn | app/infrastructure/database/repositories/query_repository_impl.py:102 | rows all of the case pass the filter unchanged |
| QueryRepository.FilterDropsOthers | app/infrastructure/database/repositories/query_repository_impl.py:102 | rows none of the case filter to nothing |
| QueryRepository.InsertByExecutedAt | app/infrastructure/database/repositories/query_repository_impl.py:103 | inserting into an `executed_at`-ordered list keeps it ordered and adds exactly the row |
| QueryRepository.BoundedByLast | app/infrastructure/database/repositories/query_repository_impl.py:103 | a permutation of rows bounded in time is bounded by the same time |
| QueryRepository.SortByExecutedAt | app/infrastructure/database/repositories/query_repository_impl.py:103 | `ORDER BY executed_at ASC` yields an ordered permutation of its input |
| QueryRepository.SortKeepsSorted | app/infrastructure/database/repositories/query_repository_impl.py:103 | already ordered rows keep their order: the model's stable tie-break, which PostgreSQL does not promise |
| QueryRepository.OnlyOrdering | app/infrastructure/database/repositories/query_repository_impl.py:103 | rows with strictly increasing times have one `executed_at` ordering: every ordered rearrangement of them is them, however ties are broken |
| QueryRepository.FirstOfOrdering | app/infrastructure/database/repositories/query_repository_impl.py:103 | an ordered rearrangement of strictly ordered rows starts with the same row |
| QueryRepository.OrderedTails | app/infrastructure/database/repositories/query_repository_impl.py:103 | dropping the first row keeps an order and a strict order |
| QueryRepository.QueriesOf | app/infrastructure/database/repositories/query_repository_impl.py:97-104 | the rows `get_by_case_id` fetches: the case's rows ordered by `executed_at`; `QueriesOfAreTheCasesRows` states it |
| QueryRepository.QueriesOfAreTheCasesRows | app/infrastructure/database/repositories/query_repository_impl.py:97-104 | `get_by_case_id` returns exactly the case's rows, ordered by `executed_at` |
| QueryRepository.FilterCounts | app/infrastructure/database/repositories/query_repository_impl.py:102 | the filter keeps one row per row of the case |
| QueryRepository.QueriesOfCount | app/application/use_cases/get_cases.py:55-56 | the number of queries read back is the number of the case's rows |
| QueryRepository.SavedQueriesReadBack | app/infrastructure/database/repositories/query_repository_impl.py:57-111 | a batch of one case with strictly increasing times, saved beside rows of other cases, reads back as exactly that batch, independent of the tie-break |
| QueryRepository.SavedQueriesReadBackSorted | app/infrastructure/database/repositories/query_repository_impl.py:57-111 | any batch of one case, saved beside rows of other cases, reads back as that batch ordered by `executed_at` |
| QueryRepository.SavedQueriesReadBackPermuted | app/infrastructure/database/repositories/query_repository_impl.py:57-111 | the queries of such a batch read back as a time-ordered rearrangement of them |
| QueryRepository.SavedQueriesReadBackInOrder | app/infrastructure/database/repositories/query_repository_impl.py:57-111 | queries created at strictly increasing times read back exactly as written |
| QueryRepository.UnknownCaseHasNoQueries | app/infrastructure/database/repositories/query_repository_impl.py:95-111 | an id with no rows reads back an empty list |
| QueryRepository.BatchAddsToCount | app/infrastructure/database/repositories/query_repository_impl.py:57-111 | saving N rows of a case makes `get_by_case_id` return N more queries for it |
| QueryRepository.QueryRepositoryImpl.constructor | app/infrastructure/database/repositories/query_repository_impl.py:13-15 | the repository keeps its pool and its optional transaction connection |
| QueryRepository.QueryRepositoryImpl.Save | app/infrastructure/database/repositories/query_repository_impl.py:17-55 | the pool failure; otherwise one INSERT of the query's row, refused on a duplicate id, else exactly that row added where the repository writes; inside a transaction the committed tables are untouched, and no other transaction's buffer ever changes |
| QueryRepository.QueryRepositoryImpl.SaveMany | app/infrastructure/database/repositories/query_repository_impl.py:57-93 | an empty list returns before anything, the pool check included; otherwise the pool failure, or one batch INSERT of all rows in order, refused whole on any duplicate id |
| QueryRepository.QueryRepositoryImpl.GetByCaseId | app/infrastructure/database/repositories/query_repository_impl.py:95-111 | the pool failure, or the queries of the case's visible rows ordered by `executed_at` |
| CreateCase.CollectAllSpec | app/application/use_cases/create_case.py:58-67 | building a list of attempts yields every value in order, or the first failure with all earlier attempts succeeded |
| CreateCase.StopsAtFirstFailure | app/application/use_cases/create_case.py:59-66 | the loop raises the error of its first failing `CaseQuery.create` |
| CreateCase.AllSucceed | app/application/use_cases/create_case.py:58-67 | when every attempt succeeds, the list is exactly their values in order |
| CreateCase.CollectAllSucceedsIffAll | app/application/use_cases/create_case.py:58-67 | the loop finishes exactly when every attempt succeeds |
| CreateCase.QueryAttempts | app/application/use_cases/create_case.py:59-66 | one `create` attempt per input dict |
| CreateCase.QueryAttemptsAt | app/application/use_cases/create_case.py:60-66 | the k-th attempt builds the k-th input under the case's id with the creator as executor |
| CreateCase.QueryFor | app/application/use_cases/create_case.py:58-66 | the k-th iteration's `CaseQuery.create`: the k-th input under the case's id, the creator as executor, the k-th query's id and `executed_at` reading; `QueryForShape` states it |
| CreateCase.BuildQueries | app/application/use_cases/create_case.py:57-68 | the loop on values: the run of its attempts, up to the first failure; `CollectAllSpec`, `StopsAtFirstFailure` and `AllSucceed` state it |
| CreateCase.Stamped | app/domain/entities/case.py:103-108 | the header after `add_query` has stamped n queries: unchanged but for `updated_at`, the last stamp |
| CreateCase.QueryForShape | app/application/use_cases/create_case.py:58-66 | a created query is well formed, carries the k-th query id, belongs to the case, is executed by the creator and stamped with its own `executed_at` reading |
| CreateCase.BuiltQueriesShape | app/application/use_cases/create_case.py:57-68 | one query per input, in order, each well formed, of the case, by the creator, with the id and `executed_at` reading of its position |
| CreateCase.CreatedCaseShape | app/application/use_cases/create_case.py:36-75 | a successful creation yields a well-formed OPEN case with a fresh id and its two creation readings, and one well-formed query per input, all of that case, by its creator, each with its own reading |
| CreateCase.PrepareCase | app/application/use_cases/create_case.py:45-51 | the type, then the priority, then `SupportCase.create` with the case id and the first two readings; its contract is `NewCase` and `CreatedCaseShape` |
| CreateCase.BodyOutcome | app/application/use_cases/create_case.py:36-75 | the `async with` body on values: the first error raised, or the case as built and its queries; `Body`, `CreatedCaseShape` and `CreatedCaseReadsBack` state it |
| CreateCase.PersistOutcome | app/application/use_cases/create_case.py:53-72 | a duplicate case id fails before any query is built; otherwise the queries' outcome |
| CreateCase.QueriesOutcome | app/application/use_cases/create_case.py:57-72 | the loop's validation failure, or a duplicate query id when the batch INSERT runs, or the queries |
| CreateCase.CreateCaseUseCase.constructor | app/application/use_cases/create_case.py:16-24 | the use case keeps its repositories and Unit of Work on one pool |
| CreateCase.CreateCaseUseCase.Execute | app/application/use_cases/create_case.py:26-75 | without a pool it fails and changes nothing; otherwise the connection is returned and, on any error, the committed tables are unchanged; on success the committed tables gain exactly one row of the case as built and its N query rows, in order, the returned case is that case stamped by its N `add_query` calls, and the server saw BEGIN, one case INSERT, one batch INSERT iff N > 0, and COMMIT |
| CreateCase.CreateCaseUseCase.Run | app/application/use_cases/create_case.py:36-75 | the block on a held connection followed by the exit: commit on success, rollback on error, and release either way; the case row committed is the case as built, the case returned the stamped one |
| CreateCase.CreateCaseUseCase.Body | app/application/use_cases/create_case.py:38-75 | the error of the block, or the case and its queries written to the transaction only, case before queries, with the stamped case returned |
| CreateCase.CreateCaseUseCase.Persist | app/application/use_cases/create_case.py:53-72 | the case saved once as it stands, then the queries built, attached and saved in one batch when there are any; the case ends stamped by each `add_query` |
| CreateCase.CreateCaseUseCase.SaveQueries | app/application/use_cases/create_case.py:57-72 | the queries built and attached, then `save_many` called exactly when there is at least one; the case ends stamped by each `add_query` |
| CreateCase.CreateCaseUseCase.NewCase | app/application/use_cases/create_case.py:45-51 | the type then the priority are parsed before any field is validated, then `SupportCase.create` |
| CreateCase.CreateCaseUseCase.AttachQueries | app/application/use_cases/create_case.py:57-68 | the loop's outcome is the collected attempts; on success the case's queries are exactly them and its header is the one it started with, with `updated_at` the last `add_query` stamp |
| GetCaseById.CaseWithQueriesShape | app/application/use_cases/get_case_by_id.py:20-34 | no case exactly when no row has the id; otherwise the case with that id and only its queries, time-ordered |
| GetCaseById.CaseWithQueries | app/application/use_cases/get_case_by_id.py:20-34 | `execute` on values: no case, the row mapping's error, or the case with its queries in `executed_at` order; `CaseWithQueriesShape` states it |
| GetCaseById.CreatedCaseReadsBack | app/application/use_cases/get_case_by_id.py:20-34 | after a creation commits, fetching the new case yields the case as built and a rearrangement of its queries into `executed_at` order |
| GetCaseById.CreatedCaseReadsBackInOrder | app/application/use_cases/get_case_by_id.py:20-34 | when the queries' `executed_at` readings strictly increase, the fetch yields exactly the case as built and its queries in input order |
| GetCaseById.ReadBackIsUnstamped | app/application/use_cases/create_case.py:54-68 | the fetched case is the returned one with `updated_at` set back to its creation reading, and differs from it whenever the last `add_query` stamp does |
| GetCaseById.OneQueryShowsTheDifference | app/domain/entities/case.py:108 | on a clock ticking once per reading, a case with one query is stored with `updated_at` 1 and returned with 3 |
| GetCaseById.GetCaseByIdUseCase.constructor | app/application/use_cases/get_case_by_id.py:12-18 | the use case keeps both repositories |
| GetCaseById.GetCaseByIdUseCase.Execute | app/application/use_cases/get_case_by_id.py:20-34 | `None` without asking for queries when no case is found; otherwise the found case with `queries` replaced by what `get_by_case_id` returns and every other field as read |
| GetCases.NoRowsNoCount | app/application/use_cases/get_cases.py:53-57 | a case without rows is counted with zero queries |
| GetCases.CreatedCaseCount | app/application/use_cases/get_cases.py:53-57 | a newly created case is counted with exactly as many queries as the request carried |
| GetCases.GetCasesUseCase.constructor | app/application/use_cases/get_cases.py:12-14 | the use case keeps the query repository |
| GetCases.GetCasesUseCase.Execute | app/application/use_cases/get_cases.py:16-75 | the listing is asked once with the arguments unchanged (the source's defaults when none are given) and its error or total is passed on; each case of the page, in order, is paired with the number of its queries; an empty page asks for no queries |
| GetCases.GetCasesUseCase.CountQueries | app/application/use_cases/get_cases.py:55-56 | `len(get_by_case_id(id))` is the number of rows of that case |
| Schemas.EmailPatternIsShape | app/api/v1/schemas/cases.py:15 | the address pattern accepts exactly the strings with one `@`, something before it, and a domain whose `.` is neither first nor last |
| Schemas.PatternGivesShape | app/api/v1/schemas/cases.py:15 | an address matching the pattern has that shape |
| Schemas.ShapeGivesPattern | app/api/v1/schemas/cases.py:15 | an address with that shape matches the pattern |
| Schemas.AcceptedEmailHasAt | app/api/v1/schemas/cases.py:15 | every address the request accepts passes the domain's `@` check |
| Schemas.ValidRequest | app/api/v1/schemas/cases.py:9-15 | the request's field constraints; `AcceptedRequestPrepares` and `BlankTitlePassesSchema` state what they let through |
| Schemas.ToCaseInput | app/api/v1/routers/cases.py:28-35 | the router's `execute` call: title, description, type, priority and creator passed on as sent, each query request dumped to its three keys, in order |
| Schemas.AcceptedRequestPrepares | app/api/v1/schemas/cases.py:9-15 | an accepted request gets through the type and priority parse and the title-length and creator checks; it still fails exactly when the title is blank |
| Schemas.BlankTitlePassesSchema | app/api/v1/schemas/cases.py:10 | a one-space title passes the request's length rule and is refused by `SupportCase.create` |
| Schemas.QueryResponseFrom | app/api/v1/schemas/queries.py:20-32 | `QueryResponse.from_entity`: every field copied |
| Schemas.FromEntity | app/api/v1/schemas/cases.py:32-45 | `CaseResponse.from_entity`; `ResponseRoundTrip` proves it loses nothing |
| Schemas.ResponseRoundTrip | app/api/v1/schemas/cases.py:32-45 | the response keeps every field of the case, renders type, priority and status as their values, and keeps the queries' number and order: the case is read back from it unchanged |

## Left out

- async/await and concurrency: every operation runs to completion alone, in program order.
- Pool sizing (`min_size`, `max_size`) and suspension when the pool is exhausted: `Acquire` always yields a connection, and a new one when none is free.
- A pool that fails to start, and `transaction.start()` failing, are not modelled.
- Query connections borrowed per statement by `DatabaseConnection.fetch`/`execute` are not tracked; only the "pool not initialized" guard is modelled.
- app/infrastructure/database/connection.py is folded into `Storage.Pool` and `Storage.Store`.
- `datetime.utcnow()` is a clock supply read in the order `execute` calls it: the case's `created_at` and `updated_at` (readings 0 and 1), then per query k its `executed_at` (2k + 2) and its `add_query` stamp (2k + 3). The mutators outside creation take one `now`. `uuid4()` is the id supply `ids`, with `ids(0)` for the case and `ids(k + 1)` for its k-th query.
- CreateCase.CreateCaseUseCase.Execute: does not promise that the returned case equals the stored one, because the source saves the case before `add_query` stamps it; `GetCaseById.ReadBackIsUnstamped` states the difference, which is in `updated_at` only.
- GetCaseById.CreatedCaseReadsBack: promises input order only through `CreatedCaseReadsBackInOrder`, when the queries' `executed_at` readings strictly increase, because the read orders by `executed_at` and queries of equal time may come back in either order.
- Ties in `ORDER BY executed_at` are returned in insertion order (a stable sort). PostgreSQL leaves their order unspecified, so no read-back lemma depends on it: those that promise an exact order require strictly increasing times.
- `Storage.Store` stands for the PostgreSQL server and its tables; its constructor has no counterpart in the source.
- PostgreSQL's aborted-transaction state is not modelled: a failed statement inside a transaction writes nothing and the transaction goes on.
- The foreign key of `case_queries` is not enforced by the store. A table state that respects it is a precondition of `GetCaseById.CreatedCaseReadsBack` and `GetCases.CreatedCaseCount`.
- GetCases.GetCasesUseCase.Execute: the case listing `get_all` has no implementation in the repository, so it is a function parameter. The use case therefore holds only the query repository.
- app/domain/value_objects/case_type.py and case_priority.py are not part of this model. Their values are those the request patterns allow.
- `KeyError` on a query dict without one of the three keys cannot happen in the model: `QueryInput` always has them.
- `ValueError` from an enum parse is `Errors.Error.UnknownEnumValue`, and `DomainValidationError` is `Errors.Error.Validation`. The HTTP status codes the router maps them to are not modelled.
- Logging, the FastAPI app, its router plumbing and dependency wiring are not modelled.
- The repository and Unit of Work interfaces are represented by their single implementations as classes.
- Schemas.EmailPatternIsShape: the pattern's `$` is read as the end of the string.
- app/api/v1/schemas/queries.py is modelled only as the field copy `QueryResponseFrom` used in the case response.
- Schemas.ResponseRoundTrip: timestamps and UUIDs are integers, so their serialisation is not modelled.
