# Chorus import execution, schema repair, timeseries and search list — a Dafny model

This project models four parts of Chorus, a web application that catalogues
datasets and workspaces across database back ends and copies tables between
them:

- **The import executor** (module `ImportExecution`, with `PipeNaming` and
  `Decimal`). It takes one import record through its lifecycle: `run`,
  the class-level `ImportExecutor.run(id)` and `cancel(force_success, message)`.
  - An import is finalised at most once. It gets `success`, `finished_at`,
    the destination dataset, exactly one success or failure event and one
    notification.
  - The copier strategy is chosen from the source and destination topology.
  - Deleted sources and workspaces fail the import with fixed messages.
  - The authorised stream URL, the `<created_at>_<id>` pipe name, and the
    `pipe%_<stem>_w` / `pipe%_<stem>_r` kill patterns are built here.
  - `cancel` removes the pipe files from the data directory.
  - The import record is a class (`Import`). The executor, a class holding the
    event and notification logs, the copier starts, the kills and the data
    directory, changes it.
- **The duplicate-schema validator** (module `DuplicateSchemaValidator`).
  - `run` checks that no two schemas share a (name, parent id, parent type)
    key unless the unique index exists.
  - `run_and_fix` keeps the first schema of each key and merges the datasets
    of the others into it by name. Datasets of a schema that has no
    duplicate stay as they are, because a schema never holds two datasets of
    one name. It then re-points every schema reference
    (workfile execution schemas, workspace sandboxes) and every dataset
    reference (activities, event targets, bound datasets, import schedules,
    imports).
  - The tables are the fields of a class. The repair is proved against a
    specification function on the whole catalog.
- **The timeseries visualization** (module `Timeseries`): `post_initialize`,
  the row bound and reshaping of `complete_fetch`, the display pattern of each
  time interval, and the string parts of the row query (the `date_trunc`
  expression, the projection and the `AND`-joined filters).
- **The workspace list in search results** (module `SearchWorkspaceList`):
  - which comments are shown at once and which sit behind the "more" toggle;
  - whether more results exist than are listed.

The executor and the validator are specified here by their behavioural test
files, `spec/services/import_executor_spec.rb` and
`spec/lib/duplicate_schema_validator_spec.rb`. Their implementation files are
not part of this model. Three choices follow from what those tests expect:

- The instance `run` on an import that already has a verdict still
  constructs and starts the copier and re-raises its error. It only records
  nothing. The tests of lines 42-58, used from lines 97 and 184, finalise a
  settled import and expect nothing recorded, not a refusal to run. The
  class-level `run` skips such an import entirely.
- `run` raises the copier's error to its caller after recording it. The
  tests of lines 248-256 expect the error to reach the caller.
- `run` clears the stream key on every exit, success or failure. The one
  exception is a missing `public_url`: that check comes before any key is
  generated, so an existing key is left as it was. The key authorises a
  single upload (lines 347-383 build the stream URL from it and expect it
  erased after the run), so no finished run leaves a usable key behind.

The outside world is an input to each operation. That covers:

- whether the source or workspace was deleted;
- the configured public URL and port;
- the generated key;
- the copier's outcome and the refreshed table list;
- which pipe processes are running;
- the clock.

## Model

| member | source | states |
|---|---|---|
| Decimal.ParseRender | spec/services/import_executor_spec.rb:237-240 | the decimal numeral of the `created_at` epoch or the id in a pipe name reads back as the same number |
| Decimal.Render | spec/services/import_executor_spec.rb:237-240 | the numeral of a number is non-empty, all digits, and has no leading zero except for 0 itself |
| Decimal.RenderInjective | spec/services/import_executor_spec.rb:237-240 | distinct numbers render to distinct numerals |
| PipeNaming.PipeStem | spec/services/import_executor_spec.rb:237-240 | the pipe name `<created_at epoch>_<id>` is a non-trivial string of two numerals |
| PipeNaming.PipeStemInjective | spec/services/import_executor_spec.rb:237-240 | two imports share a pipe name only when they share both creation time and id |
| PipeNaming.KillPattern | spec/services/import_executor_spec.rb:412-413 | the kill pattern is `pipe%_`, then the stem, then `_w` for the write end or `_r` for the read end |
| PipeNaming.PipeFileName | spec/services/import_executor_spec.rb:421-427 | every file named `pipe<anything>_<stem>` is recognised as a pipe file of that stem |
| PipeNaming.PipeFileShape | spec/services/import_executor_spec.rb:421-427 | a name is a pipe file of a stem exactly when it is `pipe`, some decoration, `_` and the stem; this characterises the predicate `IsPipeFileOf` used by `cancel` |
| PipeNaming.LastSegment | spec/services/import_executor_spec.rb:424 | the underscore-free segment after the last `_` of a name, and what precedes it, are determined by the name |
| PipeNaming.PipeFileIsolation | spec/services/import_executor_spec.rb:421-427 | a pipe file made for one import is recognised as belonging to another exactly when both have the same creation time and id, so cancelling one import never removes another's pipe |
| ImportExecution.ChooseCopier | spec/services/import_executor_spec.rb:319-345 | the Oracle copier exactly for an Oracle source; the cross-database copier exactly for a Greenplum source in another database; the plain table copier exactly for a source in the destination database |
| ImportExecution.GoneCheck | spec/services/import_executor_spec.rb:259-317 | a deleted source fails with `Original source dataset <name> has been deleted` (checked first); a deleted destination workspace fails with `Destination workspace <name> has been deleted`; no failure exactly when neither holds |
| ImportExecution.Launch | spec/services/import_executor_spec.rb:347-378 | a copier is started exactly when nothing was deleted and, for an Oracle source, a public URL is set; it is the copier the topology calls for, with pipe name `<created_at>_<id>`; the Oracle copier gets a stream URL with the dataset id, the row limit, the host, the port and the generated key; the others get none |
| ImportExecution.RunVerdict | spec/services/import_executor_spec.rb:244-257 | the run passes exactly when a copier was started and the copy succeeded; otherwise it fails with the deletion message, `Please set public_url in chorus.properties`, or the copier's own message |
| ImportExecution.ResolveDestination | spec/services/import_executor_spec.rb:118-153 | no destination dataset exactly when the refresh raised or no refreshed table has the destination name; otherwise the id of a table with that name |
| ImportExecution.CreatedReference | spec/services/import_executor_spec.rb:99-116 | the created event of an import made by a schedule is found through the schedule, any other through the import itself |
| ImportExecution.LinkCreatedEvent | spec/services/import_executor_spec.rb:90-116 | the event log keeps its length and every event not created for this import or its schedule; when such an event exists, one of them now carries the destination dataset |
| ImportExecution.Settle | spec/services/import_executor_spec.rb:60-186 | an import with a verdict is left as it is; otherwise it gets the verdict and `finished_at`; a pass sets the destination dataset, links the created event and appends one success event and a passed notification (a success event with no dataset when the refresh failed or the table is missing); a failure appends one failure event and notification carrying the message |
| ImportExecution.TerminalEventsAppend | spec/services/import_executor_spec.rb:31-40 | the count of success and failure events of an import is additive over concatenated logs |
| ImportExecution.TerminalEventsUnchanged | spec/services/import_executor_spec.rb:90-95 | linking the created event does not change the count of success and failure events |
| ImportExecution.SettleAddsOneTerminalEvent | spec/services/import_executor_spec.rb:31-58 | finalising adds exactly one success or failure event for a pending import and none for an import that already has a verdict |
| ImportExecution.SettleIdempotent | spec/services/import_executor_spec.rb:42-58 | a second finalisation, whatever its verdict, changes nothing |
| ImportExecution.Import.constructor | spec/services/import_executor_spec.rb:24-29 | a new import has no verdict, no timestamps, no destination dataset and no stream key |
| ImportExecution.ImportExecutor.constructor | spec/services/import_executor_spec.rb:403 | an executor starts from the given logs and data directory with no copier started and no kills sent |
| ImportExecution.ImportExecutor.Finalize | spec/services/import_executor_spec.rb:60-97 | the import's status and the logs become `Settle` of their old values; nothing else changes |
| ImportExecution.ImportExecutor.Run | spec/services/import_executor_spec.rb:204-396 | the result is the verdict's error or completion; status and logs are `Settle` of the old ones with `RunVerdict`; exactly the copier of `Launch` is started; `started_at` is set exactly when nothing was deleted; the stream key is cleared on every exit but a missing `public_url`; kills and data directory unchanged |
| ImportExecution.ImportExecutor.RunIfPending | spec/services/import_executor_spec.rb:188-202 | an import that has a verdict is skipped with nothing changed; a pending import is run exactly as `Run` runs it: the same result, settled status and logs, copier started, `started_at` and stream key, with kills and data directory unchanged |
| ImportExecution.ImportExecutor.Cancel | spec/services/import_executor_spec.rb:400-446 | sends `pipe%_<stem>_w` to a running source connection and `pipe%_<stem>_r` to a running destination connection; removes exactly the data-directory files of this import's pipe; settles as passed (`force_success`) or failed with the message |
| DuplicateSchemaValidator.NoDuplicates | spec/lib/duplicate_schema_validator_spec.rb:29-64 | true exactly when no two schemas share name, parent id and parent type |
| DuplicateSchemaValidator.Check | spec/lib/duplicate_schema_validator_spec.rb:18-65 | `run` is true exactly when the unique index exists or no two schemas share a key |
| DuplicateSchemaValidator.Survivors | spec/lib/duplicate_schema_validator_spec.rb:125-135 | the kept schemas are no more than the original rows |
| DuplicateSchemaValidator.SurvivorsSound | spec/lib/duplicate_schema_validator_spec.rb:125-135 | after dedup no two schemas share a key, every survivor is an original row, and every key of the original table survives, soft-deleted rows included |
| DuplicateSchemaValidator.SurvivorIsFirst | spec/lib/duplicate_schema_validator_spec.rb:125-135 | the first row of each key in table order is the one kept |
| DuplicateSchemaValidator.IndexOfSchemaId | spec/lib/duplicate_schema_validator_spec.rb:137-165 | finds a schema row with the id, or reports that there is none |
| DuplicateSchemaValidator.IndexOfKey | spec/lib/duplicate_schema_validator_spec.rb:137-165 | finds a schema row with the key, or reports that there is none |
| DuplicateSchemaValidator.RedirectSchema | spec/lib/duplicate_schema_validator_spec.rb:137-165 | an id that is not a schema row is left as it is; any other is redirected to itself or to a kept schema |
| DuplicateSchemaValidator.RedirectToUnique | spec/lib/duplicate_schema_validator_spec.rb:137-165 | a schema with no duplicate keeps its references, and no other schema is redirected to it |
| DuplicateSchemaValidator.RedirectSchemaSound | spec/lib/duplicate_schema_validator_spec.rb:137-165 | a reference to any schema row is redirected to a survivor with the same key |
| DuplicateSchemaValidator.FindDataset | spec/lib/duplicate_schema_validator_spec.rb:167-174 | finds a kept dataset of the given name in the given schema, or reports that there is none |
| DuplicateSchemaValidator.MergeDatasets | spec/lib/duplicate_schema_validator_spec.rb:167-183 | the merge keeps no more datasets than there were, and its replacement map covers exactly the original dataset ids |
| DuplicateSchemaValidator.NoNamesake | spec/lib/duplicate_schema_validator_spec.rb:167-174 | when no dataset of an unduplicated schema has a name, no kept dataset of that schema has it |
| DuplicateSchemaValidator.MergeKeepsUnduplicated | spec/lib/duplicate_schema_validator_spec.rb:167-183 | every dataset of a schema without duplicates is kept as it is and replaces itself |
| DuplicateSchemaValidator.MergeNamesDistinct | spec/lib/duplicate_schema_validator_spec.rb:167-174 | after the merge no schema holds two datasets of one name |
| DuplicateSchemaValidator.MergeKeepsOriginals | spec/lib/duplicate_schema_validator_spec.rb:176-183 | every kept dataset is an original dataset moved into the survivor of its schema, so differently named datasets of the duplicates all end up under the survivor |
| DuplicateSchemaValidator.MergeReplacementSound | spec/lib/duplicate_schema_validator_spec.rb:185-290 | every original dataset is replaced by a kept dataset of the same name in the survivor of its schema, and the replacement covers exactly the original ids |
| DuplicateSchemaValidator.MergeIdsDistinct | spec/lib/duplicate_schema_validator_spec.rb:167-183 | kept datasets have distinct ids |
| DuplicateSchemaValidator.DatasetIds | spec/lib/duplicate_schema_validator_spec.rb:185-290 | every dataset's id is among the ids of the table |
| DuplicateSchemaValidator.SchemaKeyOf | spec/lib/duplicate_schema_validator_spec.rb:137-165 | a schema id has a key exactly when a schema row has that id |
| DuplicateSchemaValidator.SchemaKeyOfRow | spec/lib/duplicate_schema_validator_spec.rb:137-165 | with distinct ids, the key of a row's id is that row's key |
| DuplicateSchemaValidator.SurvivorIdsDistinct | spec/lib/duplicate_schema_validator_spec.rb:125-135 | the survivors keep distinct ids |
| DuplicateSchemaValidator.RedirectKeepsKey | spec/lib/duplicate_schema_validator_spec.rb:137-165 | a redirected schema reference names a surviving schema of the same key as before |
| DuplicateSchemaValidator.Repaired | spec/lib/duplicate_schema_validator_spec.rb:125-290 | the repair keeps the unique-index flag, does not grow the schema or dataset tables, and drops no schema or dataset reference (the reference tables keep their length) |
| DuplicateSchemaValidator.RepairedSound | spec/lib/duplicate_schema_validator_spec.rb:125-290 | the repaired catalog has one schema per key, every key kept, distinct ids; each schema reference keeps kind and owner and names a schema of the same key; each dataset reference keeps kind and owner and names a kept dataset of the same name in a schema of the same key |
| DuplicateSchemaValidator.KeepFirstPerKey | spec/lib/duplicate_schema_validator_spec.rb:125-135 | the loop keeps exactly the survivors |
| DuplicateSchemaValidator.MoveDatasets | spec/lib/duplicate_schema_validator_spec.rb:167-183 | the loop computes exactly the dataset merge |
| DuplicateSchemaValidator.RepointSchemaRefs | spec/lib/duplicate_schema_validator_spec.rb:137-165 | the loop re-points every schema reference at the survivor of its schema |
| DuplicateSchemaValidator.RepointDatasetRefs | spec/lib/duplicate_schema_validator_spec.rb:185-290 | the loop re-points every dataset reference at the dataset that replaces it |
| DuplicateSchemaValidator.SchemaCatalog.RunAndFix | spec/lib/duplicate_schema_validator_spec.rb:69-112 | answers true in every case; leaves a catalog that passes the check unchanged; otherwise the tables become the repaired catalog, which is well formed with one schema per key |
| Timeseries.Pattern | app/models/visualization/timeseries.rb:35-47 | `yyyy-MM-dd` for day and week, `yyyy-MM` for month, `yyyy` for year, `yyyy-MM-dd hh:mm:ss` for any other interval; always a prefix of the last |
| Timeseries.PatternCoarsening | app/models/visualization/timeseries.rb:35-47 | year's pattern is a proper prefix of month's, month's of day's (equal to week's), day's of any other interval's |
| Timeseries.DateTrunc | app/models/visualization/timeseries.rb:24 | the expression is `date_trunc('`, the interval, `' ,"`, the time column, `")` |
| Timeseries.Join | app/models/visualization/timeseries.rb:30 | no filters join to the empty string; otherwise the conjunction starts with the first filter and ends with the last |
| Timeseries.StartShift | app/models/visualization/timeseries.rb:30 | dropping the first filter shifts every later position back by that filter and one separator |
| Timeseries.JoinLength | app/models/visualization/timeseries.rb:30 | the joined filters end with the last filter |
| Timeseries.JoinPart | app/models/visualization/timeseries.rb:30 | every filter appears, in order, at its position in the conjunction |
| Timeseries.JoinSeparator | app/models/visualization/timeseries.rb:30 | between consecutive filters stands exactly ` AND ` |
| Timeseries.WhereClause | app/models/visualization/timeseries.rb:30 | a where clause exists exactly when filters are present and not empty; one filter is the clause itself |
| Timeseries.Reshape | app/models/visualization/timeseries.rb:18 | one point per result row, in order, with the value from column 0 and the time from column 1 |
| Timeseries.Timeseries.constructor | app/models/visualization/timeseries.rb:5-12 | a new timeseries holds the attributes as `post_initialize` sets them and no rows |
| Timeseries.Timeseries.PostInitialize | app/models/visualization/timeseries.rb:5-12 | the x axis becomes the time column, the y axis the value column; type, interval, aggregation and filters are copied; rows untouched |
| Timeseries.Timeseries.BuildRowQuery | app/models/visualization/timeseries.rb:23-33 | grouping and ordering use the same `date_trunc` expression that `to_char` formats with the interval's pattern; the projection starts with the aggregate of the quoted value column; the where clause is that of the filters |
| Timeseries.Timeseries.CompleteFetch | app/models/visualization/timeseries.rb:14-19 | more than 1000 rows is refused with rows unchanged; otherwise rows become the reshaped result |
| SearchWorkspaceList.AllFields | public/js/views/search/search_workspace_list_view.js:33-35 | each comment becomes its attributes when it is a model, itself otherwise, keeping count and order |
| SearchWorkspaceList.CommentsContext | public/js/views/search/search_workspace_list_view.js:32-43 | shown and hidden comments together are all comments in order; at most 3 shown, and 3 whenever any is hidden; the hidden count is max(0, n - 3) and the hidden list's length; no comments give empty lists and 0 |
| SearchWorkspaceList.AdditionalContext | public/js/views/search/search_workspace_list_view.js:24-30 | `moreResults` exactly when a total is given and the listed count is below it |

## Left out

- Moving the data is not modelled: the table copiers, the named pipes as operating-system objects and the database processes. The model keeps only their outcome as an input. Pipe files that the copiers themselves remove at the end of `run` belong to the copier and are not modelled.
- Kill matching: each connection decides which processes a kill pattern matches, so the model records only the pattern sent. In SQL `LIKE`, `_` is also a one-character wildcard, so `pipe%_<stem>_w` may match more than the literal name. That matching is the database's and is not part of this model.
- Concurrency between `run` and `cancel` is not modelled. The model keeps the terminal-state guard and proves `ImportExecution.SettleIdempotent`.
- The logger, the `error_message` column of an import, and the event and notification objects beyond their kind, import and message or dataset are not modelled.
- `ImportExecution.ImportExecutor.Cancel`: a missing cancel message is modelled as a string argument. The `cancel` of the tests always gives one when the import fails.
- `ImportExecution.ImportExecutor.Run`: `started_at` and `finished_at` take the clock value given as input, and epoch seconds before 1970 are not modelled. Creation times are natural numbers.
- `DuplicateSchemaValidator.SchemaCatalog.RunAndFix`:
  - It requires the catalog's own integrity: distinct row ids, distinct keys when the unique index exists, and at most one dataset of each name in each schema. The database guarantees all three. Without the last, the merge would also fold together same-named datasets of a schema that has no duplicate.
  - Logging the destroyed schemas (spec/lib/duplicate_schema_validator_spec.rb:49-58, 115-123) is not modelled.
  - Creating the unique index after the repair is not modelled, because the tests do not show it.
  - Soft deletion is not modelled: schema rows carry no deletion mark, and soft-deleted rows are grouped like all the others.
- Chorus views are modelled as datasets. Their schema link is re-pointed through the dataset merge rather than as a separate schema reference.
- `Timeseries.Reshape`: the value keeps the raw text of column 0. Converting it to a float rounded to three places is floating point and is left out.
- `Timeseries.Timeseries.BuildRowQuery`: the relation, Arel's rendering of the final SQL and the query execution with its cancel check are library and database calls. Only the string parts are modelled. An absent string attribute is modelled as the empty string, which it interpolates to.
- The search list's DOM toggles (public/js/views/search/search_workspace_list_view.js:10-22), and the show and icon URLs of `collectionModelContext`, are view code and are not modelled.
