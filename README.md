# Data-source controllers: materialized columns and data-source rules

A Dafny model of the business rules in the back end's data-source controller
(`packages/back-end/src/controllers/datasources.ts`):

- the validators that guard every materialized-column request
  (`sanitizeMatColumnInput`, `sanitizeMatColumnSourceField`,
  `sanitizeMatColumnName`), with their regular expressions stated character by
  character, the case-insensitive reserved-name check, and the fixed set of
  SQL keywords;
- the three materialized-column controllers (`postMaterializedColumn`,
  `updateMaterializedColumn`, `deleteMaterializedColumn`): their guards, the
  column list each stores, the DDL request each hands to the DDL service
  (`columnsToAdd`, `columnsToDelete`, `columnsToRename`), and the order of their
  effects — DDL call, then settings write, then a column refresh of each fact
  table for add and update;
- `updateExposureQuery` (merge a partial update onto the first exposure query
  with the id), `getQueries` (answers in request order, None for unknown ids),
  `putDataSource` (guards, refusal of a type change, the partial `updates`
  object), `deleteDataSource` (its guard chain and the information-schema
  clean-up), and the event defaults of `postDataSources`.

Files and modules:

| file | module | contents |
|---|---|---|
| `wrappers.dfy` | `Wrappers` | `Option`, `Result` |
| `seqs.dfy` | `Seqs` | `findIndex`, and the slice-and-spread list edits |
| `types.dfy` | `DataSourceTypes` | data sources, settings, columns, DDL requests, errors, effects |
| `sanitize.dfy` | `Sanitize` | the three validators and their properties |
| `columns.dfy` | `MatColumns` | the column controllers' guards and DDL requests, as pure plans |
| `rules.dfy` | `DataSourceRules` | exposure-query merge, `putDataSource`, `deleteDataSource`, `postDataSources` |
| `queries.dfy` | `GetQueries` | `ids.split(",")`, the id index, the ordered answer |
| `controllers.dfy` | `Controllers` | class `Backend`: the store of data sources and the effect trace, one method per controller |

The pure parts of the source (validators, list building with spreads and
slices, the `Map` lookup of `getQueries`) are functions. The controllers, which
check guards one by one, write to storage, and refresh fact tables in a `for`
loop, are methods of `Controllers.Backend`; the DDL call and settings write that
all three column controllers end with, plus the refresh for add and update,
are one method,
`ReconcileColumns`. The class's `datasources` field is the
data-source store and its `trace` field records the external effects in
order. Each method is proved against a pure plan: for the column controllers,
`ColumnOutcome` of `PlanAdd`, `PlanUpdate` or `PlanDelete`; for the others,
`PlanExposureUpdate`, `PlanPut` and `PlanDeleteDataSource`.

Answers of collaborators this model cannot see become parameters:

- the permission policy is a boolean per check;
- the user lookup, the connection test, and the success of the DDL call are
  booleans;
- the re-encrypted merged params are a string;
- the counts of dependent metrics, segments and dimensions are numbers;
- the fact tables on a source are a list of ids;
- the reserved column names (`getReservedColumnNames`) are a set;
- the allowed column datatypes (`factTableColumnTypes`) are a list.

`services/clickhouse` and `routers/fact-table/fact-table.validators` are not
part of this model.

The field `datatype` of a materialized column is called `dataType` here,
because `datatype` is a Dafny keyword.

Behaviour of the code that the model keeps:

- Add has no duplicate-name check. A valid column whose name is already
  declared is appended a second time (`MatColumns.AddKeepsDuplicateNames`).
- Update has no check that the new name clashes with another declared column
  (`MatColumns.UpdateKeepsNameClash`).
- Update refuses the path's own name whether or not the datatype or source
  field change, so a redefine that keeps the name is refused too
  (`MatColumns.UpdateSameNameRefused`).
- Validation of the input runs before the data source is looked up, so an
  invalid input on a non-ClickHouse source is a validation error, not an
  unsupported-operation error (`MatColumns.ValidationPrecedesLookup`).
- The SQL keyword set has 41 words.

## Model

| member | source | states |
|---|---|---|
| `Seqs.FindIndex` | packages/back-end/src/controllers/datasources.ts:1018-1023 | `findIndex`: the first index whose element satisfies the predicate, None exactly when none does |
| `Seqs.RemoveAt` | packages/back-end/src/controllers/datasources.ts:1122-1125 | dropping one position keeps the order of the rest, shortens the list by one, and removes exactly that element from the multiset |
| `Seqs.ReplaceAt` | packages/back-end/src/controllers/datasources.ts:1026-1030 | the slice-and-spread rebuild is the list with one position replaced |
| `Sanitize.MatchesSourceFieldChars` | packages/back-end/src/controllers/datasources.ts:1178 | `^[a-zA-Z0-9 _-]*$` matches exactly when every character is in the class |
| `Sanitize.ContainsLetter` | packages/back-end/src/controllers/datasources.ts:1184 | the unanchored `[a-zA-Z]` matches exactly when some character is an ASCII letter |
| `Sanitize.MatchesIdentTail` | packages/back-end/src/controllers/datasources.ts:1200 | the tail `[a-zA-Z0-9_]*$` of the identifier pattern matches exactly when every character is an identifier character |
| `Sanitize.MatchesIdentifier` | packages/back-end/src/controllers/datasources.ts:1200 | `^[a-zA-Z_][a-zA-Z0-9_]*$` matches exactly the non-empty strings that start with a letter or underscore and go on with letters, digits or underscores |
| `Sanitize.Lower` | packages/back-end/src/controllers/datasources.ts:1206 | `toLowerCase` on ASCII: same length, no upper-case letter left, other characters kept, each upper-case letter replaced by its lower-case partner |
| `Sanitize.SanitizeSourceField` | packages/back-end/src/controllers/datasources.ts:1176-1197 | accepts exactly the fields of allowed characters with at least one letter and no leading or trailing space, returns them unchanged, and reports the first rule broken |
| `Sanitize.SanitizeColumnName` | packages/back-end/src/controllers/datasources.ts:1199-1268 | accepts exactly the identifiers whose lower-case form is neither reserved nor a SQL keyword, returns them unchanged, and reports the first rule broken |
| `Sanitize.SanitizeInput` | packages/back-end/src/controllers/datasources.ts:1163-1174 | checks the datatype, then the source field, then the name; on success returns the same datatype, source field and name |
| `Sanitize.ColumnNameCaseInsensitive` | packages/back-end/src/controllers/datasources.ts:1206-1264 | two names with the same ASCII lower-case form are accepted or refused together |
| `Sanitize.KeywordRefusedInAnyCase` | packages/back-end/src/controllers/datasources.ts:1218-1264 | a name whose lower-case form is a SQL keyword is refused |
| `Sanitize.SelectRefused` | packages/back-end/src/controllers/datasources.ts:1218-1264 | "SELECT" and "Select" are both refused |
| `MatColumns.FindColumn` | packages/back-end/src/controllers/datasources.ts:1016-1023 | the first column with the name, None exactly when no column has it |
| `MatColumns.ManagedDataSource` | packages/back-end/src/controllers/datasources.ts:925-938 | the column controllers go on only for an existing, permitted, managed ClickHouse source; otherwise the first failing check is reported: not found, then permission denied, then not ClickHouse |
| `MatColumns.PlanAdd` | packages/back-end/src/controllers/datasources.ts:914-959 | add goes ahead exactly when the input is valid and the source is a permitted managed ClickHouse source; validation errors come first, then lookup errors; the request adds only the new column and stores the old list followed by it |
| `MatColumns.PlanUpdate` | packages/back-end/src/controllers/datasources.ts:985-1065 | update goes ahead exactly when the input is valid, the source is managed and permitted, the new name differs from the path's name and some column has the path's name; otherwise the first failing check is reported, the same-name refusal before the not-found one; the stored list keeps its length and holds the new column |
| `MatColumns.PlanDelete` | packages/back-end/src/controllers/datasources.ts:1092-1130 | delete goes ahead exactly when the source is managed and permitted and some column has the name; the request drops only that name and stores a list one shorter |
| `MatColumns.ValidationPrecedesLookup` | packages/back-end/src/controllers/datasources.ts:923-925 | invalid input is refused with its validation error whatever the data source and permission |
| `MatColumns.AddAppends` | packages/back-end/src/controllers/datasources.ts:940-959 | add stores the original list followed by the new column (length plus one) and asks the DDL service to add just that column |
| `MatColumns.AddKeepsDuplicateNames` | packages/back-end/src/controllers/datasources.ts:940-941 | add does not refuse a name already declared; the list then holds it twice |
| `MatColumns.UpdateSameNameRefused` | packages/back-end/src/controllers/datasources.ts:1010-1014 | update to the path's own name is refused, whatever else changes, before the list is searched |
| `MatColumns.UpdateMissingRefused` | packages/back-end/src/controllers/datasources.ts:1018-1023 | update of a name no column has is refused |
| `MatColumns.UpdateReplacesFirstMatch` | packages/back-end/src/controllers/datasources.ts:1016-1030 | update stores the new column at the first matching index, same length, every other entry unchanged |
| `MatColumns.UpdateDdlChoice` | packages/back-end/src/controllers/datasources.ts:1039-1065 | a single rename when datatype and source field are unchanged, otherwise drop the old name and add the new column |
| `MatColumns.UpdateKeepsNameClash` | packages/back-end/src/controllers/datasources.ts:1016-1030 | update does not refuse a new name held by another column |
| `MatColumns.DeleteRemovesFirstMatch` | packages/back-end/src/controllers/datasources.ts:1114-1143 | delete stores the list without the first matching entry, the rest in order, and asks the DDL service to drop only that name |
| `MatColumns.DeleteMissingRefused` | packages/back-end/src/controllers/datasources.ts:1116-1121 | delete of a name no column has is refused |
| `Controllers.ColumnEffectsOrder` | packages/back-end/src/controllers/datasources.ts:951-965 | the DDL call comes first and once, the settings write only after a successful DDL call, fact-table refreshes after the write and never for delete |
| `Controllers.ColumnEffects` | packages/back-end/src/controllers/datasources.ts:951-965 | the DDL call first; after a successful one, the settings write, then one refresh per fact table in order unless the operation is delete |
| `Controllers.ColumnOutcome` | packages/back-end/src/controllers/datasources.ts:940-972 | a refused plan changes nothing; otherwise the effects are those of `ColumnEffects` for the planned request and settings update, the controller succeeds exactly when the DDL call does, a failed DDL call leaves the store as it was, and a successful one stores the source with the planned column list under its id and leaves every other source |
| `Controllers.FailedDdlWritesNothing` | packages/back-end/src/controllers/datasources.ts:1131-1152 | a failed DDL call leaves the store unchanged and is the only effect |
| `Controllers.AddThenList` | packages/back-end/src/controllers/datasources.ts:940-965 | after add the stored list is the old one plus the new column, other sources are unchanged, and the answer is what was stored |
| `Controllers.DeleteThenList` | packages/back-end/src/controllers/datasources.ts:1114-1143 | delete removes exactly one column with the name, so a name declared once is absent afterwards |
| `Controllers.UpdateThenList` | packages/back-end/src/controllers/datasources.ts:1016-1072 | after update the new column is stored, one column with the old name is gone, and a name declared once is absent |
| `Controllers.Backend.RefreshFactTables` | packages/back-end/src/controllers/datasources.ts:961-965 | the loop refreshes every fact table of the source in order and touches no data source |
| `Controllers.Backend.ReconcileColumns` | packages/back-end/src/controllers/datasources.ts:1032-1072 | the DDL call, then the settings write only if it succeeded, then the fact-table refresh for add and update, as `ColumnOutcome` says |
| `Controllers.Backend.PostMaterializedColumn` | packages/back-end/src/controllers/datasources.ts:914-978 | the controller answers, stores and acts as `ColumnOutcome` of `PlanAdd` says, keeping the store keyed by id |
| `Controllers.Backend.UpdateMaterializedColumn` | packages/back-end/src/controllers/datasources.ts:985-1087 | the controller answers, stores and acts as `ColumnOutcome` of `PlanUpdate` says |
| `Controllers.Backend.DeleteMaterializedColumn` | packages/back-end/src/controllers/datasources.ts:1092-1161 | the controller answers, stores and acts as `ColumnOutcome` of `PlanDelete` says, with no fact-table refresh |
| `Controllers.Backend.UpdateExposureQuery` | packages/back-end/src/controllers/datasources.ts:554-619 | refused without a change, or one settings write of the merged exposure list |
| `Controllers.Backend.PutDataSource` | packages/back-end/src/controllers/datasources.ts:386-552 | refused without a change, or one write of the `updates` object, answering the updated source |
| `Controllers.Backend.DeleteDataSource` | packages/back-end/src/controllers/datasources.ts:70-138 | refused without a change, or the source removed from the store followed by the information-schema clean-up |
| `DataSourceRules.FindExposure` | packages/back-end/src/controllers/datasources.ts:581-583 | the first exposure query with the id, None exactly when there is none |
| `DataSourceRules.MergeExposure` | packages/back-end/src/controllers/datasources.ts:596-599 | for each of the six keys, a key present in the update wins and an absent key keeps the current value, and the merge changes nothing exactly when every present key already holds the current value |
| `DataSourceRules.UpdateExposureList` | packages/back-end/src/controllers/datasources.ts:581-599 | 404 exactly when the list is missing or has no such id; otherwise only the first match changes, to the merge of the update onto it, and the length is kept |
| `DataSourceRules.MergeExposureLaws` | packages/back-end/src/controllers/datasources.ts:596-599 | the merge is a partial overwrite: an empty update changes nothing, a full one replaces everything, merging twice is merging once |
| `DataSourceRules.WithExposureQueries` | packages/back-end/src/controllers/datasources.ts:596-607 | storing the merged list changes no other part of the settings |
| `DataSourceRules.PlanExposureUpdate` | packages/back-end/src/controllers/datasources.ts:554-599 | not found, then permission, then a 404 for an exposure query that is not there; on success the settings hold the merged exposure list and nothing else in them changes |
| `DataSourceRules.ApplyUpdates` | packages/back-end/src/controllers/datasources.ts:536-539 | the spread of updates onto a source keeps its id and its type |
| `DataSourceRules.BuildUpdates` | packages/back-end/src/controllers/datasources.ts:494-532 | the `updates` object holds a name only when the request's name is non-empty, the description whenever its key is present, the re-encrypted params exactly when params were given, and settings and projects as given |
| `DataSourceRules.PlanPut` | packages/back-end/src/controllers/datasources.ts:386-510 | the request is accepted exactly when the user is found, the source exists, every needed permission is granted, no other type is named, and the connection test passes when params change; the user and source lookups come first, then a refused permission check reports permission denied, then a type other than the stored one reports a type change, and a failed connection test, reached only when every earlier check passes, reports a connection failure |
| `DataSourceRules.PutKeepsType` | packages/back-end/src/controllers/datasources.ts:475-482 | a request naming another type is refused, and an accepted request leaves the type as it was |
| `DataSourceRules.PutFieldRules` | packages/back-end/src/controllers/datasources.ts:494-532 | name is stored only when truthy, description whenever its key is present, settings, projects and params when given; everything else is kept |
| `DataSourceRules.ApplyUpdatesIdempotent` | packages/back-end/src/controllers/datasources.ts:534-539 | writing the same updates twice is writing them once |
| `DataSourceRules.PlanDeleteDataSource` | packages/back-end/src/controllers/datasources.ts:78-121 | deletion goes ahead exactly when the source exists, deletion is permitted, it is not the default, and nothing depends on it; otherwise the error of the first failing guard is reported, in the order not found, permission, default, metrics, segments, dimensions |
| `DataSourceRules.DeleteGuardOrder` | packages/back-end/src/controllers/datasources.ts:78-121 | the default source is refused as the default whatever depends on it, and each dependency error implies the earlier guards passed |
| `DataSourceRules.DeleteEffects` | packages/back-end/src/controllers/datasources.ts:122-133 | the source is deleted first; when it has an information schema, the schema and then its tables are removed, and nothing else follows |
| `DataSourceRules.WithDefaultEvents` | packages/back-end/src/controllers/datasources.ts:219-232 | the stored settings always carry the experiment event, experiment id property and variation id property; with no settings given they are the defaults and nothing else is set |
| `DataSourceRules.PlanPostDataSource` | packages/back-end/src/controllers/datasources.ts:216-232 | refused exactly when creation is not permitted; otherwise the settings with the event defaults filled in |
| `DataSourceRules.DefaultEventsRules` | packages/back-end/src/controllers/datasources.ts:219-232 | caller-supplied event fields win over the defaults, defaults fill the rest, other settings are kept, and filling twice is filling once |
| `GetQueries.Split` | packages/back-end/src/controllers/datasources.ts:660 | `split(",")` gives at least one piece, no piece holds a comma, and joining the pieces gives the input back |
| `GetQueries.SplitJoin` | packages/back-end/src/controllers/datasources.ts:660 | splitting what was joined gives the pieces back when none holds a comma |
| `GetQueries.LastById` | packages/back-end/src/controllers/datasources.ts:665 | the last run with the id, None exactly when no run has it |
| `GetQueries.IndexById` | packages/back-end/src/controllers/datasources.ts:665 | the id map holds, for each id, the last run with that id, and no key that no run has |
| `GetQueries.Answer` | packages/back-end/src/controllers/datasources.ts:667-669 | one entry per requested id in request order, None exactly when no run has that id, otherwise the last run with it |
| `GetQueries.GetQueriesResponse` | packages/back-end/src/controllers/datasources.ts:654-670 | as many entries as comma-separated pieces, each found run carrying the id of its piece |

## Left out

- Transport: request and response objects, status codes and message texts, logging and `getContextFromReq`. Outcomes are `Result` values and error kinds.
- Permission checks are boolean inputs. A permission error throws in the source; here it is the error `PermissionDenied`.
- Storage other than the data-source store: metrics, segments, dimensions, fact tables, the information schema and query runs. Their answers are inputs and their writes are effects in the trace.
- `updateMaterializedColumns` (DDL generation and execution), `runRefreshColumnsQuery` and `getReservedColumnNames` belong to services and jobs that are not part of this model. Only the request the controller builds and the order of the calls are modelled.
- Failures of collaborators are modelled only for the DDL call and for the connection test of `putDataSource` (`ConnectionFailed`). A failing settings write, fact-table refresh, storage call or `updateDataSource` in `updateExposureQuery` and `putDataSource` is not modelled.
- `dateUpdated` and other clock values are left out of the update records.
- `getDataSources`, `getDataSource`, `getDataSourceWithParams`, `getDataSourceMetrics`, `getDataSourceQueries`: read paths that pass storage and integration results through. Redacting params is done by the integration, which is not part of this model.
- `testLimitedQuery` and `runQuery`: they pass the results of `testQuery` and `runFreeFormQuery` through, and those are not part of this model.
- `postDimensionSlices`, `cancelDimensionSlices`, `getDimensionSlices`, `getLatestDimensionSlicesForDatasource`: their state lives in a runner that is not part of this model. The model has no default of 30 lookback days: `Number(lookbackDays) ?? 30` never takes its fallback, since `Number` never returns null or undefined.
- `postInbuiltDataSource` (constant settings, a super-admin check and external user provisioning), `postGoogleOauthRedirect`, the OAuth token exchange inside `putDataSource`, and `fetchBigQueryDatasets`: network calls and constant data.
- `queueCreateAutoGeneratedMetrics` in `putDataSource`: a background job queue.
- `postDataSources` stops at the settings it passes to `createDataSource`, in `DataSourceRules.PlanPostDataSource`. Creating the record and generating its id belong to storage.
- `mergeParams`, `encryptParams` and `testConnection` in `putDataSource`: encryption and network. The connection test result and the re-encrypted params are inputs.
- `Sanitize.SanitizeColumnName`: lowers only ASCII letters, where `toLowerCase` lowers all of Unicode. This is exact for every name that reaches the comparison, because those have already matched the ASCII identifier pattern.
- Record fields the rules do not read are left out of the data types, for example other query kinds, `userIdTypes`, `hasNameCol` and the organization id. The data-source spreads carry them unchanged.
- `DataSourceRules.MergeExposure`: the update is typed `Partial<ExposureQuery>`, so it can also overwrite fields left out of the data types, such as `hasNameCol`. Updates to those fields are not represented.
- Concurrency: two controllers running at once on one source can interleave. The model runs each controller to completion.
