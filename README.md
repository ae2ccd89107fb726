# Lab-monitoring dashboard: a verified model of its core

This project models, in Dafny, the core of a laboratory-monitoring
dashboard: a Next.js web application with a Prisma database, plus a
Python poller. The model covers the following parts.

- **Sensor logging.** The Python poller (`fetch_proteus_data.py`) appends the newest
  reading of a sensor channel to one CSV file per device and never logs an
  entry id twice. The TypeScript logger (`sensorDataLogger.tsx`) does the
  same into one shared file.
- **Activity log.** The activity-log table (`page.tsx`) has a stable sort,
  a four-part filter and pagination.
- **Threshold forms.** Two forms edit thresholds:
  - the default-threshold form (`settingsform.tsx`), with row-by-row
    validation, a normalised submission and a change log;
  - the per-channel threshold form (`thresholdform.tsx`), with custom-over-default
    initialisation, validation of partly filled rows, and reset.
- **API routes.**
  - per-channel thresholds (`settings/route.ts`): validate, delete the missing, upsert;
  - granting and revoking channel access (`user_access`, `remove_access`);
  - creating an alert, which allocates the channel's next entry id in one transaction;
  - registering a channel with its API key;
  - the user administration endpoints: deactivate, list and change roles, sign up, update profile.
- **Authentication.** The credentials sign-in (`authorize`), and the `jwt` and
  `session` callbacks that carry the user into the session.
- **Client guards and navigation.**
  - the role-based sidebar filter;
  - the `AuthGuard`, `HideAuthGuard` and `GuestGuard` components;
  - the `withAuth` wrapper;
  - the request middleware;
  - the dashboard's time-range menu.

The model has one module per source file, plus two shared modules:

- `Common` holds the JSON values a handler receives, written out with
  JavaScript's semantics: truthiness, `||`, `??`, `Number()`, `parseInt()`.
  It also holds the string helpers.
- `Store` holds the database. It is one `Database` object whose fields are
  the tables (users, channels, feeds, alerts, API keys, labs, thresholds,
  access grants, usage history).

Each state-changing route is a method on the database. The method is proved
equal to a function of the old tables, and the properties are lemmas about
that function. Component state (`useState`) becomes a class whose methods
are the handlers.

The model applies one rule to database access throughout. A request value
used as a lookup key or in a `where` must have the key's type (an integer
id, a string key). Otherwise the database client throws and the route
answers 500. Columns that are only copied from the request are stored as
the JSON value received.

Two properties of the middleware are proved rather than assumed:

- it compares the session user's `role` with `"OWNER"`, but no session has a
  `role` member and no such role exists, so an `/admin` path is always
  redirected to `/unauthorized` (`Middleware.AdminAlwaysRefused`);
- its matcher covers only `/dashboard/` and `/profile/` paths, where it only
  checks for a session (`Middleware.MatchedPathsNeedSession`).

Where the documentation and the code disagree, the model follows the code:

- The poller re-reads its CSV file on every cycle (`fetch_proteus_data.py:70`), so the set of known ids
  is re-grown from the file each time, not loaded once.
- The poller calls `initialize_csv` before it checks for feeds, so a cycle whose response has no
  feeds can still create the header-only file.
- The time-range menu's button starts as "Today" (`Actions.tsx:27`); a test expects "All Data".
- A profile update does not check that the caller owns the profile; any user id in the body is updated.

## Model

| member | source | states |
|---|---|---|
| ProteusPoller.CsvFileName | fetch_proteus_data.py:13-16 | the file name ends in the fixed suffix and holds no space, double quote or single quote |
| ProteusPoller.CleanNameIsPerCharacter | fetch_proteus_data.py:13-16 | the three chained replacements equal a character-by-character cleaning (reference definition) |
| ProteusPoller.CleanNameIdempotent | fetch_proteus_data.py:13-16 | cleaning an already cleaned name changes nothing |
| ProteusPoller.QuotesNeverMatter | fetch_proteus_data.py:13-16 | inserting a quote character anywhere in a device name gives the same file |
| ProteusPoller.QuotedNameCollides | fetch_proteus_data.py:13-16 | a quoted and an unquoted device name share one file |
| ProteusPoller.EnsureFile | fetch_proteus_data.py:18-26 | a missing file is created holding only the header; an existing file and every other file stay as they were |
| ProteusPoller.HeaderOnce | fetch_proteus_data.py:18-26 | initialising a file any number of times has the effect of initialising it once |
| ProteusPoller.ParseStamp | fetch_proteus_data.py:30 | a match of the pattern `%Y-%m-%dT%H:%M:%SZ` yields fields in the directives' ranges: a four-digit year, month 1-12, day 1-31, hour to 23, minute to 59, second to 61 |
| ProteusPoller.ParseFields | fetch_proteus_data.py:30 | each directive after the year reads one field, ending at its literal, whose value lies in the directive's range; nothing may follow the last literal |
| ProteusPoller.ParseAt | fetch_proteus_data.py:30 | a text with the layout, fields of one or two digits (a space and a digit for the day) and separators in either letter case is read field by field |
| ProteusPoller.FormatDate | fetch_proteus_data.py:28-31 | succeeds exactly when the pattern matches and the fields form a real date and time (leap years, second below 60); the result is the fields written zero-padded as `YYYY-MM-DD HH:MM:SS UTC` |
| ProteusPoller.FormatDateNormalises | fetch_proteus_data.py:28-31 | the stored text, put back in the origin layout, reads to the same fields and formats to the same text |
| ProteusPoller.ParseOriginText | fetch_proteus_data.py:30 | the canonical origin text of any stamp with a four-digit year reads back to that stamp |
| ProteusPoller.FormatDateRoundTrip | fetch_proteus_data.py:28-31 | a valid stamp written in the origin layout is accepted and stored as its canonical text, which converts back to the origin text |
| ProteusPoller.FormatDateExample | fetch_proteus_data.py:28-31 | `2024-03-05T10:15:30Z` becomes `2024-03-05 10:15:30 UTC` |
| ProteusPoller.FormatDateLenient | fetch_proteus_data.py:28-31 | single-digit fields and lower-case `t` and `z` are accepted: `2024-3-5t1:2:3z` becomes `2024-03-05 01:02:03 UTC` |
| ProteusPoller.FormatDateRejectsBadDay | fetch_proteus_data.py:28-31 | 29 February of a non-leap year matches the pattern but is rejected |
| ProteusPoller.FormatDateRejectsLeapSecond | fetch_proteus_data.py:28-31 | a second of 60 matches the pattern but is rejected |
| ProteusPoller.Load | fetch_proteus_data.py:33-53 | the files stay as they are; the device's set becomes exactly its old ids plus the ids of the data rows of its file, if any; every other device's set is unchanged |
| ProteusPoller.EntryIdsAppend | fetch_proteus_data.py:45-53 | appending a row to a file with a header adds exactly that row's id to the ids read back |
| ProteusPoller.ReloadIsStable | fetch_proteus_data.py:33-53 | loading a device a second time learns nothing new |
| ProteusPoller.CycleAppendsAtMostOneRow | fetch_proteus_data.py:55-103 | a cycle only appends, at most one row per file, and leaves every earlier row unchanged |
| ProteusPoller.CycleKeepsIds | fetch_proteus_data.py:55-103 | known ids are never forgotten |
| ProteusPoller.OnlyFirstFeedMatters | fetch_proteus_data.py:72-74 | feeds after the first never influence a cycle |
| ProteusPoller.EmptyFeedsAddNoRow | fetch_proteus_data.py:66-73 | a response without feeds succeeds and adds no data row |
| ProteusPoller.FailedFetchChangesNothing | fetch_proteus_data.py:57-103 | a failed fetch reports failure and changes no state |
| ProteusPoller.CycleOfNewId | fetch_proteus_data.py:73-93 | with an unseen id the new state is the loaded state with the row appended to the device's file and the id added to its set |
| ProteusPoller.CycleOfKnownId | fetch_proteus_data.py:73-78 | an id already known succeeds without writing: the state is the one after loading the file |
| ProteusPoller.CycleWithoutRow | fetch_proteus_data.py:63-103 | once the device name is read, every cycle that does not append ends in the loaded state |
| ProteusPoller.ReloadAfterAppend | fetch_proteus_data.py:43-53 | after an append, loading the file again learns nothing new |
| ProteusPoller.AppendedIsStable | fetch_proteus_data.py:43-53 | loading the device after its row was appended and its id recorded learns nothing new |
| ProteusPoller.AppendedKeepsUnique | fetch_proteus_data.py:78-93 | appending a row whose id the loaded set lacks keeps every file's data-row ids distinct |
| ProteusPoller.MissingChannelFails | fetch_proteus_data.py:63 | a response without `channel` fails and changes nothing |
| ProteusPoller.MissingNameFails | fetch_proteus_data.py:64 | a channel without `name` fails before the file is created |
| ProteusPoller.MissingEntryIdFails | fetch_proteus_data.py:75 | a newest feed without `entry_id` fails after the file is created and read, writing no row |
| ProteusPoller.MissingDateFails | fetch_proteus_data.py:79 | an unseen entry without `created_at` fails before the write: no row and no recorded id |
| ProteusPoller.BadDateWritesNothing | fetch_proteus_data.py:79 | an unseen entry whose timestamp does not parse fails before the write: no row and no recorded id |
| ProteusPoller.MissingTemperatureFails | fetch_proteus_data.py:80 | an unseen entry without `field1` fails before the write |
| ProteusPoller.MissingChannelIdFails | fetch_proteus_data.py:83-91 | an unseen entry on a channel without `id` fails while the row is built, so nothing is written |
| ProteusPoller.CycleIdempotent | fetch_proteus_data.py:55-103 | polling the same response twice has the effect of polling it once |
| ProteusPoller.CyclePreservesUniqueIds | fetch_proteus_data.py:55-103 | data rows of every file keep distinct entry ids across a cycle |
| ProteusPoller.NoDuplicateAfterRestart | fetch_proteus_data.py:33-53 | a restarted process with no ids in memory still does not log an id the file holds |
| ProteusPoller.FailedCycleAddsNoRow | fetch_proteus_data.py:57-103 | a cycle that fails at any point adds no data row: every existing file keeps its rows, and a file it created holds the header only |
| ProteusPoller.ErrorIsolation | fetch_proteus_data.py:106-118 | a failed fetch leaves no trace for the cycles after it |
| ProteusPoller.Poller.constructor | fetch_proteus_data.py:10-11 | a fresh process knows no device |
| ProteusPoller.Poller.InitializeCsv | fetch_proteus_data.py:18-26 | returns the device's file name and ensures the file exists |
| ProteusPoller.Poller.LoadExistingEntries | fetch_proteus_data.py:33-53 | the state after loading is `Load` of the old state, and the returned set is the device's |
| ProteusPoller.Poller.FetchAndSaveData | fetch_proteus_data.py:55-103 | the result and new state are `Cycle` of the old state |
| ProteusPoller.Poller.Run | fetch_proteus_data.py:106-118 | the driver loop runs one cycle per response and carries on after a failure |
| SensorLogger.ReplaceFirstAt | src/components/pages/dashboard/reports/sensorDataLogger.tsx:40-43 | `replace` with a one-character pattern replaces only the first occurrence |
| SensorLogger.FormatDate | src/components/pages/dashboard/reports/sensorDataLogger.tsx:40-43 | fails exactly when the date is invalid |
| SensorLogger.FormatIsoLayout | src/components/pages/dashboard/reports/sensorDataLogger.tsx:40-43 | an ISO text becomes date, space, time with milliseconds, " UTC" |
| SensorLogger.FormatIsoRoundTrip | src/components/pages/dashboard/reports/sensorDataLogger.tsx:40-43 | the logged date reads back to the ISO text |
| SensorLogger.Line | src/components/pages/dashboard/reports/sensorDataLogger.tsx:60 | a feed line ends with a newline |
| SensorLogger.LineContainsId | src/components/pages/dashboard/reports/sensorDataLogger.tsx:60 | a line contains the id it was built for |
| SensorLogger.StepText | src/components/pages/dashboard/reports/sensorDataLogger.tsx:57-67 | one iteration throws exactly on an invalid date, a missing channel or a missing id |
| SensorLogger.StepQueuesIffAbsent | src/components/pages/dashboard/reports/sensorDataLogger.tsx:57-67 | a line is queued exactly when the file text does not contain its id |
| SensorLogger.QueuedCoversIds | src/components/pages/dashboard/reports/sensorDataLogger.tsx:57-72 | after a batch, every feed id occurs in the file text followed by the batch |
| SensorLogger.QueuedNothingWhenKnown | src/components/pages/dashboard/reports/sensorDataLogger.tsx:57-72 | when every id is already in the text, nothing is queued |
| SensorLogger.Update | src/components/pages/dashboard/reports/sensorDataLogger.tsx:46-79 | an existing file is only ever extended |
| SensorLogger.UpdateIdempotent | src/components/pages/dashboard/reports/sensorDataLogger.tsx:46-79 | running the same response twice equals running it once |
| SensorLogger.QueuedStepsSucceed | src/components/pages/dashboard/reports/sensorDataLogger.tsx:57-72 | in a batch that did not throw, no step threw |
| SensorLogger.QueuedAbortStays | src/components/pages/dashboard/reports/sensorDataLogger.tsx:57-79 | once a step throws, the whole batch throws |
| SensorLogger.DuplicateWithinBatch | src/components/pages/dashboard/reports/sensorDataLogger.tsx:57-72 | two feeds of one batch with the same new id are both queued |
| SensorLogger.BadDateChangesNothing | src/components/pages/dashboard/reports/sensorDataLogger.tsx:46-79 | an invalid date anywhere in the batch leaves the file unchanged |
| SensorLogger.Logger.constructor | src/components/pages/dashboard/reports/sensorDataLogger.tsx:19 | the logger starts from the file as it is on disk |
| SensorLogger.Logger.InitializeCsv | src/components/pages/dashboard/reports/sensorDataLogger.tsx:30-37 | the header is written only into a missing file |
| SensorLogger.Logger.FetchAndUpdateData | src/components/pages/dashboard/reports/sensorDataLogger.tsx:46-79 | the new file is `Update` of the old one |
| ActivityLog.DescendingComparator | page.tsx:178-186 | -1, 1 or 0 exactly when the first row's cell is greater than, less than or equal to the second's |
| ActivityLog.GetComparator | page.tsx:188-192 | the returned comparator is the descending one, or its negation for ascending order |
| ActivityLog.CompareMeaning | page.tsx:188-192 | ascending puts the smaller cell first, descending the greater; the comparator is antisymmetric |
| ActivityLog.StableSortCorrect | page.tsx:194-208 | the result is a permutation of the input, ordered by the comparator, with ties kept in input order |
| ActivityLog.StripSort | page.tsx:194-208 | sorting the tagged rows keeps the multiset of rows |
| ActivityLog.FormatDateOfLayout | page.tsx:363-367 | `dd/mm/yyyy hh:mm` becomes `yyyy-mm-dd` |
| ActivityLog.FilterRows | page.tsx:369-379 | the kept rows are input rows that match every non-empty filter |
| ActivityLog.FilterRowsComplete | page.tsx:369-379 | every matching row is kept |
| ActivityLog.FilterRowsAppend | page.tsx:369-379 | filtering keeps input order |
| ActivityLog.NoFiltersKeepAll | page.tsx:369-379 | with all filters empty every row is kept |
| ActivityLog.Slice | page.tsx:445-446 | a slice holds exactly the rows of the requested range that exist, in order: as many as lie between the start and the smaller of the end and the length |
| ActivityLog.PageIsFilled | page.tsx:445-446 | a page holds at most `rowsPerPage` rows, and is full unless it is the last |
| ActivityLog.EmptyRows | page.tsx:408 | the padding is zero or the shortfall of the page |
| ActivityLog.DisplayedPage | page.tsx:474 | the pager shows the current page or page 0 |
| ActivityLog.DisplayedPageInRange | page.tsx:474 | the pager falls back to page 0 exactly when a later page starts beyond the data |
| ActivityLog.NextSort | page.tsx:389-393 | the clicked column becomes the order column; descending exactly after an ascending click on the same column |
| ActivityLog.SortToggles | page.tsx:389-393 | clicking one column repeatedly alternates its direction |
| ActivityLog.Table.constructor | page.tsx:350-360 | ascending by timestamp, page 0, six rows per page, no filters |
| ActivityLog.Table.HandleRequestSort | page.tsx:389-393 | the order state becomes `NextSort` of the old state |
| ActivityLog.Table.HandleChangePage | page.tsx:395-397 | the page becomes the requested page |
| ActivityLog.Table.HandleChangeRowsPerPage | page.tsx:399-402 | a new page size restarts at page 0 |
| ActivityLog.Table.SetFilters | page.tsx:404-406 | a filter change restarts at page 0 |
| SettingsForm.SetKey | src/components/pages/controls/settingsform.tsx:50-58 | changing one key of a row leaves its other keys |
| SettingsForm.RemoveAt | src/components/pages/controls/settingsform.tsx:67-70 | removing a row shifts the later rows down by one; an index out of range removes nothing |
| SettingsForm.FieldError | src/components/pages/controls/settingsform.tsx:107-115 | a row passes exactly when it has a name and bounds that are not the empty text and whose `Number` is a number, with min below max; otherwise the message of the first failing check, in the order blank name, bad min, bad max, min not below max |
| SettingsForm.MessageNumbersFromOne | src/components/pages/controls/settingsform.tsx:111-114 | the message's row number is the one-based row number and reads back to it |
| SettingsForm.ValidateFields | src/components/pages/controls/settingsform.tsx:105-117 | no error exactly when every row passes; otherwise the error of the first failing row |
| SettingsForm.NormalUnit | src/components/pages/controls/settingsform.tsx:230 | the unit is null or its non-empty trimmed text |
| SettingsForm.Submission | src/components/pages/controls/settingsform.tsx:226-231 | each submitted row has the trimmed non-empty name, the bounds' `Number` values with min below max, and the normalised unit |
| SettingsForm.Put | src/components/pages/controls/settingsform.tsx:133-134 | assigning a key keeps other keys' values and key uniqueness |
| SettingsForm.FromPairs | src/components/pages/controls/settingsform.tsx:133-134 | `Object.fromEntries` yields unique keys |
| SettingsForm.FromPairsAbsent | src/components/pages/controls/settingsform.tsx:133-134 | a key is absent from `Object.fromEntries` exactly when no pair carries it |
| SettingsForm.FromPairsLast | src/components/pages/controls/settingsform.tsx:133-134 | a present key has the value of the last pair that carries it |
| SettingsForm.SetChangesMembers | src/components/pages/controls/settingsform.tsx:139-160 | a set line is logged for a key exactly when its new entry is new or differs from the original |
| SettingsForm.DeleteChangesMembers | src/components/pages/controls/settingsform.tsx:163-169 | a deleted line is logged for a key exactly when it was an original key and is gone from the submission |
| SettingsForm.FromEntriesLookup | src/components/pages/controls/settingsform.tsx:133-134 | a lower-cased name maps to the last row carrying it, and is absent when no row does |
| SettingsForm.ChangesCharacterized | src/components/pages/controls/settingsform.tsx:139-169 | a "set" line for exactly the new or altered keys and a "deleted" line for exactly the vanished keys |
| SettingsForm.UnchangedLogsNothing | src/components/pages/controls/settingsform.tsx:133-169 | comparing a list of thresholds with itself logs nothing |
| SettingsForm.UntouchedSaveLogsNothing | src/components/pages/controls/settingsform.tsx:91-93 | saving valid fetched rows without edits, when they are stored with numeric bounds, trimmed names and a null or trimmed non-empty unit, submits exactly the originals and logs nothing |
| SettingsForm.CollectSetChanges | src/components/pages/controls/settingsform.tsx:139-160 | the first loop builds the set lines of the specification |
| SettingsForm.CollectDeleteChanges | src/components/pages/controls/settingsform.tsx:163-169 | the second loop builds the deleted lines of the specification |
| SettingsForm.BuildChanges | src/components/pages/controls/settingsform.tsx:133-169 | the change log is `Changes` of the originals and the submission |
| SettingsForm.Originals | src/components/pages/controls/settingsform.tsx:91-93 | one original entry per fetched row, with its name and bounds as fetched and a null unit kept as `null` |
| SettingsForm.Form.constructor | src/components/pages/controls/settingsform.tsx:83-103 | the fetched rows are both the editable rows and the originals |
| SettingsForm.Form.HandleFieldChange | src/components/pages/controls/settingsform.tsx:50-58 | only the addressed row changes, by `SetKey` |
| SettingsForm.Form.HandleAddField | src/components/pages/controls/settingsform.tsx:60-65 | an empty row is appended |
| SettingsForm.Form.HandleRemoveField | src/components/pages/controls/settingsform.tsx:67-70 | the rows become `RemoveAt` of the old rows |
| SettingsForm.Form.HandleSubmit | src/components/pages/controls/settingsform.tsx:208-235 | an invalid form shows the error `validateFields` returns (that of the first failing row) and no dialog; a valid one clears the error and opens the dialog on the submission |
| SettingsForm.Form.SaveThresholds | src/components/pages/controls/settingsform.tsx:119-206 | the save is posted; a failed request shows "Failed to save thresholds" and sends no change log; a successful one keeps the error and sends the change log only when a session user exists |
| SettingsForm.Form.HandleConfirmationClose | src/components/pages/controls/settingsform.tsx:76-81 | saves only on proceed, showing the save error when that request fails; the dialog always closes and drops its rows |
| ThresholdForm.Find | src/components/pages/controls/thresholdform.tsx:57-62 | the first threshold with the name, or none when no threshold has it |
| ThresholdForm.Pick | src/components/pages/controls/thresholdform.tsx:64-71 | the first non-empty of the custom and default bound, else blank |
| ThresholdForm.Initialize | src/components/pages/controls/thresholdform.tsx:56-75 | one row per channel field, in channel-field order |
| ThresholdForm.InitializePrecedence | src/components/pages/controls/thresholdform.tsx:56-75 | a custom bound wins over a default bound, which wins over blank |
| ThresholdForm.ResetFields | src/components/pages/controls/thresholdform.tsx:183-192 | reset rows hold the default bounds only |
| ThresholdForm.ResetIsInitializeWithoutCustom | src/components/pages/controls/thresholdform.tsx:183-192 | reset equals initialisation without custom thresholds |
| ThresholdForm.InvalidMeaning | src/components/pages/controls/thresholdform.tsx:102-113 | a blank row is never invalid; a touched row is invalid exactly when one bound is blank or not numeric or min is not below max |
| ThresholdForm.InvalidFields | src/components/pages/controls/thresholdform.tsx:102-113 | exactly the touched invalid rows are reported |
| ThresholdForm.Filled | src/components/pages/controls/thresholdform.tsx:126-127 | exactly the rows with both bounds are kept |
| ThresholdForm.FilledAppend | src/components/pages/controls/thresholdform.tsx:126-127 | filtering keeps the form's order |
| ThresholdForm.Submission | src/components/pages/controls/thresholdform.tsx:126-132 | one submitted row per filled row |
| ThresholdForm.SubmissionMeaning | src/components/pages/controls/thresholdform.tsx:96-132 | with no invalid row, each posted row carries the parsed bounds of a filled row, in order, min below max |
| ThresholdForm.Form.constructor | src/components/pages/controls/thresholdform.tsx:36-38 | no rows, no error, not loading |
| ThresholdForm.Form.Open | src/components/pages/controls/thresholdform.tsx:41-88 | a successful fetch initialises the rows; a failed one shows the load error |
| ThresholdForm.Form.HandleFieldChange | src/components/pages/controls/thresholdform.tsx:90-94 | only the addressed key of the addressed row changes |
| ThresholdForm.Form.HandleSubmit | src/components/pages/controls/thresholdform.tsx:96-155 | invalid rows block the post and are all named; otherwise the filled rows are posted and the form closes or shows the failure |
| ThresholdForm.Form.HandleResetToDefault | src/components/pages/controls/thresholdform.tsx:157-204 | unless declined, posts an empty list and on success rebuilds the rows from the defaults |
| SettingsApi.ChannelThresholds | src/app/api/controls/settings/route.ts:68-78 | exactly the requested channel's thresholds |
| SettingsApi.Get | src/app/api/controls/settings/route.ts:57-95 | 400 for a missing or non-numeric id, 500 for a non-integer, else the channel's thresholds |
| SettingsApi.Names | src/app/api/controls/settings/route.ts:141 | the submitted string field names |
| SettingsApi.DeleteMissing | src/app/api/controls/settings/route.ts:143-160 | removes exactly the channel's thresholds whose name was not submitted |
| SettingsApi.AnyInvalid | src/app/api/controls/settings/route.ts:116-133 | true exactly when some threshold fails validation |
| SettingsApi.UpsertAll | src/app/api/controls/settings/route.ts:162-188 | the table becomes the upserts in order; success exactly when each threshold is well typed |
| SettingsApi.Post | src/app/api/controls/settings/route.ts:97-204 | 400 or 500 with no change on a bad request; otherwise the table is reconciled, 200 unless an upsert is refused |
| SettingsApi.ReconciledNames | src/app/api/controls/settings/route.ts:135-188 | after a successful POST the channel's names are exactly the submitted names |
| SettingsApi.ReconciledValues | src/app/api/controls/settings/route.ts:162-186 | each submitted field stores its last occurrence's bounds, min below max, null unit when falsy |
| SettingsApi.ReconciledOthers | src/app/api/controls/settings/route.ts:143-186 | other channels' thresholds are untouched |
| SettingsApi.EmptyDeletesAll | src/app/api/controls/settings/route.ts:143-160 | posting an empty list deletes all of the channel's thresholds |
| AccessApi.Classify | src/app/api/access/remove_access/route.ts:64-84 | every entry goes to exactly one list; valid ids name users and carry their lower-cased email |
| AccessApi.ClassifyMembers | src/app/api/access/remove_access/route.ts:68-84 | a parsing id of a known user is valid, any other entry invalid |
| AccessApi.ClassifyAppend | src/app/api/access/remove_access/route.ts:68-84 | classifying a request split in two gives the lists of the first part followed by those of the second: request order is kept in every list |
| AccessApi.ClassifyUsers | src/app/api/access/remove_access/route.ts:64-84 | the loop computes `Classify` |
| AccessApi.Holders | src/app/api/access/remove_access/route.ts:97-106 | the valid users that hold a grant on the channel |
| AccessApi.NoAccess | src/app/api/access/remove_access/route.ts:107-109 | the valid users without a grant |
| AccessApi.Revoke | src/app/api/access/remove_access/route.ts:123-128 | exactly the holders' grants on the channel go |
| AccessApi.Granter | src/app/api/access/remove_access/route.ts:13-32 | a granter is always a known user |
| AccessApi.RemoveRefusedChangesNothing | src/app/api/access/remove_access/route.ts:13-115 | a refusal is 400, 401 or 404 and changes no grant and no log |
| AccessApi.RemoveSuccessGrants | src/app/api/access/remove_access/route.ts:113-128 | success removes at least one grant, only on the channel, and keeps the rest |
| AccessApi.RemoveSuccessLog | src/app/api/access/remove_access/route.ts:130-148 | success appends one log row naming every valid user's email |
| AccessApi.RemoveAccess | src/app/api/access/remove_access/route.ts:7-174 | the reply, grants and log are `Remove` of the old tables |
| AccessApi.Schedule | src/app/api/access/user_access/route.ts:36-67 | a successful pass puts every requested entry in exactly one of the two lists |
| AccessApi.ScheduleMeaning | src/app/api/access/user_access/route.ts:36-67 | fails exactly when some id does not parse, naming the first such entry; otherwise the users to create hold no grant on the channel and the already granted ones do |
| AccessApi.ScheduleCovers | src/app/api/access/user_access/route.ts:39-67 | every requested user already holds the grant or is scheduled |
| AccessApi.ScheduleLoop | src/app/api/access/user_access/route.ts:39-67 | the loop, with its early return, computes `Schedule` |
| AccessApi.ScheduleFailurePersists | src/app/api/access/user_access/route.ts:41-46 | once a prefix of the request fails, the whole request fails on the same entry |
| AccessApi.ScheduleFresh | src/app/api/access/user_access/route.ts:48-66 | every user scheduled for creation holds no grant on the channel |
| AccessApi.Create | src/app/api/access/user_access/route.ts:80-86 | the new table holds the old rows plus a row per scheduled user on the channel; the new rows record the granter and every other row keeps its value |
| AccessApi.HasRepeat | src/app/api/access/user_access/route.ts:80-86 | detects a batch that violates the `(userId, channelId)` unique key |
| AccessApi.GrantCovers | src/app/api/access/user_access/route.ts:39-100 | after a 201 every requested user holds the grant on the channel: the row it held before, or a new row recording the granter |
| AccessApi.GrantCreates | src/app/api/access/user_access/route.ts:70-100 | a 201 reply comes with exactly the rows `Create` adds for the scheduled users |
| AccessApi.GrantKeepsGrants | src/app/api/access/user_access/route.ts:48-86 | after a 201 every grant that existed before is present with its old value |
| AccessApi.CreateKeeps | src/app/api/access/user_access/route.ts:80-86 | creating rows only for users without a grant keeps every existing row |
| AccessApi.GrantNamesBadEntry | src/app/api/access/user_access/route.ts:39-46 | the first entry that does not parse is named in a 400 reply `Invalid userId: <entry>` and nothing is created |
| AccessApi.RepeatedUserConflicts | src/app/api/access/user_access/route.ts:80-111 | repeating an ungranted user gives 409 and creates nothing |
| AccessApi.GrantAccess | src/app/api/access/user_access/route.ts:6-122 | the reply and grants are `Grant` of the old grants |
| AlertsApi.FeedValue | src/app/api/controls/alerts/route.ts:132-139 | a feed column is never undefined; it keeps a present, non-null member of an object `feedData`, and is null when `feedData` is not an object |
| AlertsApi.FeedValues | src/app/api/controls/alerts/route.ts:132-139 | the eight feed columns in order |
| AlertsApi.CreateOutcome | src/app/api/controls/alerts/route.ts:103-171 | 400/500/404 change nothing; 201 exactly when the next entry id is free, creating the feed, advancing the counter, appending the alert with defaults |
| AlertsApi.CreateKeepsAlertsLinked | src/app/api/controls/alerts/route.ts:126-158 | every alert stays linked to an existing feed, the new one to the channel's feed |
| AlertsApi.SuccessiveAlertsConsecutive | src/app/api/controls/alerts/route.ts:114-145 | two successful alerts on one channel get consecutive entry ids |
| AlertsApi.TakenEntryIdRefused | src/app/api/controls/alerts/route.ts:126-170 | a taken next entry id rolls back to 500 with nothing written |
| AlertsApi.Post | src/app/api/controls/alerts/route.ts:103-171 | the reply and tables are `Create` of the old tables |
| ChannelsApi.FieldValue | src/app/api/controls/add_channels/route.ts:89-96 | a field column is a truthy request value or null |
| ChannelsApi.FieldValues | src/app/api/controls/add_channels/route.ts:89-96 | the eight field columns in order |
| ChannelsApi.Status | src/app/api/controls/add_channels/route.ts:8-117 | 201 only for a signed-in POST passing every check, with a free id and key, a known lab and valid timestamps; an `Invalid Date` timestamp never gives 201 |
| ChannelsApi.InvalidDateFails | src/app/api/controls/add_channels/route.ts:80-113 | a request accepted but for an `Invalid Date` in `createdAt` or `updatedAt` gets 500 and creates nothing |
| ChannelsApi.AddChannel | src/app/api/controls/add_channels/route.ts:8-117 | the status and tables are `Add` of the old tables |
| ChannelsApi.AddOnlyAdds | src/app/api/controls/add_channels/route.ts:53-107 | a refusal changes nothing; success adds exactly one channel and one key and overwrites nothing |
| ChannelsApi.AddStoresRequest | src/app/api/controls/add_channels/route.ts:80-105 | the new channel holds the submitted values and its key points at it |
| ChannelsApi.AddKeepsKeysResolving | src/app/api/controls/add_channels/route.ts:70-105 | every API key keeps naming a registered channel and a known lab |
| ChannelsApi.AddTwiceConflicts | src/app/api/controls/add_channels/route.ts:54-60 | repeating an accepted request gives 409 |
| AuthApi.Ids | src/pages/api/auth/deactivate.ts:23 | fails exactly when an id does not parse; otherwise the set of parsed ids |
| AuthApi.UpdateMany | src/pages/api/auth/deactivate.ts:25-28 | listed existing users are updated, every other user is kept |
| AuthApi.DeactivateUsers | src/pages/api/auth/deactivate.ts:6-41 | the status and table are `Deactivate` of the old table |
| AuthApi.DeactivateOutcome | src/pages/api/auth/deactivate.ts:23-36 | 404 exactly when no listed id exists; on success exactly the listed users become inactive, nothing else changes |
| AuthApi.DeactivateIdempotent | src/pages/api/auth/deactivate.ts:6-41 | deactivating twice equals deactivating once |
| AuthApi.Summaries | src/pages/api/auth/users.ts:7-22 | every user, with the selected columns |
| AuthApi.HandleUsers | src/pages/api/auth/users.ts:6-62 | GET lists users without change, POST is `UpdateRoles`, other methods 405 |
| AuthApi.UpdateRolesOutcome | src/pages/api/auth/users.ts:29-57 | roles stay valid; on success each listed user gets the whitelisted role; otherwise nothing changes |
| AuthApi.UpdateManyKeepsEmails | src/pages/api/auth/users.ts:43-46 | an update that keeps emails keeps them unique |
| AuthApi.HandleSignUp | src/pages/api/auth/signup.ts:11-63 | the reply and table are `SignUp` of the old table |
| AuthApi.SignUpOutcome | src/pages/api/auth/signup.ts:19-58 | 201 exactly for a complete POST with a free email, creating an active standard user with the default avatar; unique emails and valid roles kept |
| AuthApi.SignUpTwiceRefused | src/pages/api/auth/signup.ts:36-42 | signing up twice with one email is refused the second time |
| AuthApi.Updates | src/pages/api/auth/updateProfile.ts:30-42 | exactly the profile columns present in the body, with their values |
| AuthApi.HandleUpdateProfile | src/pages/api/auth/updateProfile.ts:4-54 | the status and table are `UpdateProfile` of the old table |
| AuthApi.UpdateProfileOutcome | src/pages/api/auth/updateProfile.ts:25-53 | only the addressed user and only the present columns change; role, status and password never; emails stay unique |
| AuthOptions.FindByEmail | src/lib/authOptions.ts:39-41 | finds the user holding the email, or none when no user does |
| AuthOptions.HandleAuthorize | src/lib/authOptions.ts:34-70 | the result and usage log are `Authorize` of the old log |
| AuthOptions.AuthorizeOutcome | src/lib/authOptions.ts:34-70 | sign-in succeeds exactly for an active user with the given password; success logs one row and returns the user's id and role |
| AuthOptions.UnknownEmailRefused | src/lib/authOptions.ts:39-43 | an email no user holds never signs in |
| AuthOptions.DeactivatedUserRefused | src/lib/authOptions.ts:43-46 | after a deactivation no listed user can sign in |
| AuthOptions.SessionUser | src/lib/authOptions.ts:101-111 | the session user holds exactly the copied members, each from the token |
| AuthOptions.JwtFields | src/lib/authOptions.ts:83-99 | the token takes the user's members, null for absent optional ones, keeps the old role and status when absent, and keeps its other members |
| AuthOptions.SessionOfSignIn | src/lib/authOptions.ts:83-111 | the session after a sign-in holds exactly the signed-in user |
| AuthOptions.SessionRoleValid | src/lib/authOptions.ts:58-67 | a signed-in session's role is one of the four roles |
| SidebarFilter.KeepPagesMembers | src/components/sidebar/Sidebar.tsx:117-131 | a page is kept exactly when the role keeps its title |
| SidebarFilter.KeepPagesIdempotent | src/components/sidebar/Sidebar.tsx:117-131 | narrowing twice equals narrowing once |
| SidebarFilter.Narrowed | src/components/sidebar/Sidebar.tsx:117-131 | only the Admin section is narrowed |
| SidebarFilter.UserAndAccount | src/components/sidebar/Sidebar.tsx:108-112 | exactly the User and Account sections |
| SidebarFilter.FilterTitles | src/components/sidebar/Sidebar.tsx:108-112 | the filter over section objects gives the User and Account sections |
| SidebarFilter.NarrowAdmin | src/components/sidebar/Sidebar.tsx:117-131 | each Admin section object is narrowed once, the others untouched |
| SidebarFilter.FilterItems | src/components/sidebar/Sidebar.tsx:100-143 | shows the role's view of the sections, and leaves the Admin section objects narrowed for super and standard users |
| SidebarFilter.VisibleByRole | src/components/sidebar/Sidebar.tsx:100-143 | the view per role: all, User and Account, Admin without Manage Access, or Admin with Alerts only |
| SidebarFilter.StaleAdminView | src/components/sidebar/Sidebar.tsx:119-128 | an admin rendering after a standard user misses Admin pages |
| Guards.AuthGuard.constructor | src/components/guards/AuthGuard.tsx:16 | the guard starts loading |
| Guards.AuthGuard.Render | src/components/guards/AuthGuard.tsx:44-54 | the page shows exactly when the session and guard are loaded |
| Guards.AuthGuard.Effect | src/components/guards/AuthGuard.tsx:23-42 | waits while loading, sends guests to sign-in and disallowed roles to the unauthorised page, else stops loading |
| Guards.RefusedNeverRenders | src/components/guards/AuthGuard.tsx:23-54 | a refused session never sees the page |
| Guards.HideAuthGuard | src/components/guards/HideAuthGuard.tsx:11-32 | the element shows exactly for a signed-in user with an allowed role |
| Guards.UseAuth | src/hooks/useAuth.ts:48-58 | the hook's result has `isAuthenticated` exactly for a session and passes `status` on; it has no `isInitialized` member |
| Guards.UseAuthCorrected | src/hooks/useAuth.ts:48-58 | with `isInitialized` added: it is truthy exactly once the session has stopped loading |
| Guards.GuestGuard.constructor | src/components/guards/GuestGuard.tsx:16 | not redirecting at first |
| Guards.GuestGuard.Render | src/components/guards/GuestGuard.tsx:14-38 | the guest page shows exactly when the hook's `isInitialized` is truthy and the guard is not redirecting |
| Guards.GuestGuard.Effect | src/components/guards/GuestGuard.tsx:14-24 | when both `isInitialized` and `isAuthenticated` are truthy the visitor is sent to the lab dashboard and the guard redirects; otherwise nothing changes |
| Guards.MountGuestGuard | src/components/guards/GuestGuard.tsx:13-38 | after the first effect the visitor is redirected exactly when both members are truthy, and sees the guest page exactly when initialised but not authenticated |
| Guards.SignedInSeesSpinner | src/components/guards/GuestGuard.tsx:18-38 | a signed-in, initialised visitor never sees the guest page |
| Guards.GuestGuardAsWritten | src/components/guards/GuestGuard.tsx:14-38 | as written, every visitor, signed in or not, stays on the spinner and is never redirected |
| Guards.GuestGuardCorrected | src/components/guards/GuestGuard.tsx:14-38 | with `isInitialized` supplied, a guest sees the page exactly once the session has loaded, and a signed-in visitor is sent to the lab dashboard |
| Guards.WithAuthEffect | src/lib/withAuth.js:11-26 | waits while loading, sends guests to sign-in, and sends to unauthorised exactly the sessions whose role is not allowed |
| Guards.WithAuthRender | src/lib/withAuth.js:28-40 | the page renders exactly for a session whose role is allowed |
| Guards.ListedRoleLockedOut | src/lib/withAuth.js:22-35 | as written, a signed-in user whose role is listed is sent away and never sees the page |
| Guards.RoleKeyCorrected | src/lib/withAuth.js:11-40 | reading `userRole`, the page renders for exactly the listed roles |
| Middleware.Handle | middleware.ts:12-50 | public paths pass; others need a session; `/admin` paths redirect to unauthorised exactly for a session whose role is not OWNER |
| Middleware.MatchedPathsNeedSession | middleware.ts:53-60 | on every matched path the middleware only checks for a session |
| Middleware.AdminAlwaysRefused | middleware.ts:31-40 | no signed-in session passes an `/admin` path |
| ActionsMenu.QueryFor | src/components/pages/dashboard/default/Actions.tsx:38-52 | a query exactly for the five options |
| ActionsMenu.QueryRoundTrip | src/components/pages/dashboard/default/Actions.tsx:38-52 | the option reads back from its query, which covers the option's number of days |
| ActionsMenu.Actions.constructor | src/components/pages/dashboard/default/Actions.tsx:27 | the button starts as "Today" with the menu closed |
| ActionsMenu.Actions.HandleClick | src/components/pages/dashboard/default/Actions.tsx:29-31 | opens the menu |
| ActionsMenu.Actions.HandleClose | src/components/pages/dashboard/default/Actions.tsx:33-35 | closes the menu |
| ActionsMenu.Actions.HandleSelect | src/components/pages/dashboard/default/Actions.tsx:38-52 | an option sets its query; the button shows the text; the menu closes |
| ActionsMenu.ButtonMatchesQuery | src/components/pages/dashboard/default/Actions.tsx:38-52 | after a choice the button names the range the dashboard shows |

## Left out

- Network I/O (HTTP fetches, `axios`, `requests`), timers and sleeps, and console output. A poll cycle or a handler takes the parsed response or request as input. The success of a form's save request is a boolean input.
- The `while True` driver is modelled as a finite run over a sequence of responses. Interrupting it with a keyboard interrupt is left out.
- File-system details and CSV quoting. A file is a row sequence (Python) or a text (TypeScript), read back exactly as written.
- JavaScript number syntax beyond plain decimals: exponents, hexadecimal and `Infinity`. `parseInt` of arrays and objects. String ordering by UTF-16 code units; characters are compared as Dafny characters.
- `new Date(...).toISOString()` is a function parameter, with `None` for an invalid date. In the add-channel request a timestamp is given as what `new Date` makes of it (absent, valid or `Invalid Date`). Timestamps (`createdAt`, `updatedAt`, `alertDate`) are not stored.
- The jsPDF export and the rendering, styling and charts of every component.
- `Promise.all` upserts run one after another in array order. With a repeated field name the last one wins.
- SQL details: unique-key semantics for nulls, foreign keys other than the ones the model states, and the 32-bit range of integer ids.
- Type checks on columns that are only copied from the request are not modelled; they are stored as the JSON value given.
- Common.JsString: a number is written by its integer part; JavaScript writes fractions, exponents, `NaN` and `Infinity` as well. It is used only for the entry named in the 400 reply of the grant route.
- Common.NumberOf: an array is not a number here; JavaScript's `Number` turns `[]` into 0 and a one-element array into the number of its element (`[5]` into 5). SettingsApi.Post and ChannelsApi.BadTypes, which call it, inherit this.
- Common.IsSpace: only the ASCII white-space characters count as space; JavaScript's `trim` and `Number` also strip U+00A0, U+FEFF, U+2028, U+2029 and the other Unicode space separators. `Common.Trim` and `Common.StringToNumber` inherit this.
- Common.Lower: lower-cases the ASCII letters `A`-`Z` only; JavaScript's `toLowerCase` also maps other Unicode letters (`É` to `é`) and can change a string's length.
- ActivityLog.FilterRows: the case-insensitive match uses `Common.Lower`, so it is stated for ASCII case folding only.
- SettingsForm.FromEntriesLookup: the change-log keys use `Common.Lower`, so two names that differ only in a non-ASCII letter's case get two keys here but one in the source.
- AccessApi.Classify: the logged emails are lower-cased by `Common.Lower`, ASCII letters only.
- ProteusPoller.FormatDate: a year below 1000 is written with four digits; how `strftime` pads such a year depends on the C library.
- ProteusPoller.ParseStamp: `\d` in `strptime`'s patterns also matches non-ASCII decimal digits; only `0`-`9` are modelled.
- AuthApi.SignUp: the id the database assigns to a new user is the parameter `newId`, required to be free.
- AuthOptions.Authorize: missing credentials are modelled as the empty string.
- The CORS middleware of sign-up is not modelled.
- The session lookup of the add-channel route is the flag `signedIn`.
- Middleware.Matched: the matcher patterns are approximated by the prefixes `/dashboard/` and `/profile/`.
- SettingsForm.Change: the change-log line is recorded as its key and entry. Its rendered text is not.
- SettingsForm.Form.constructor: the form starts from fetched rows. As written its `GET` carries no `channelId` and reads `data.fields`, while the route answers such a request with 400 (SettingsApi.Get, src/app/api/controls/settings/route.ts:63-66) and sends `thresholds`; the failed load is not modelled.
- SettingsForm.Form.SaveThresholds: the outcome of the `POST` is the input `requestOk`. As written the body is `{fields}` without `channelId`, which the route answers with 400 (SettingsApi.Post, src/app/api/controls/settings/route.ts:100-105), so the change log is only reached with a different route.
- SettingsApi.Post: threshold array elements that are not objects are not modelled.
- The unused `handleSnackbarClose` and the snackbar state of the settings form are not modelled.
- The sign-up page's form, the navigation bar and the other dashboard pages are not modelled.

## Findings

| source | as written | input that shows it | evidently intended | confidence | as-written member | corrected member |
|---|---|---|---|---|---|---|
| src/lib/withAuth.js:22-35 | the role is read from `session.user.user_role`, but the session callback sets `userRole` (src/lib/authOptions.ts:108), so every role-restricted page treats every user as unauthorised | a session from a sign-in with role `ADMIN`, a page requiring `["ADMIN"]` | read `session.user.userRole` | high, not executed | Guards.ListedRoleLockedOut | Guards.RoleKeyCorrected |
| src/components/guards/GuestGuard.tsx:14 | GuestGuard reads `isInitialized` from `useAuth()`, which returns no such member (src/hooks/useAuth.ts:48-58), so the guard's condition is never met | any session state, for example no session with status `unauthenticated` | have `useAuth` return `isInitialized: status !== "loading"` | high, not executed | Guards.GuestGuardAsWritten | Guards.GuestGuardCorrected |
| src/components/sidebar/Sidebar.tsx:119-128 | the super-user and standard-user branches assign `item.pages` on the shared section objects, so the narrowing persists into later renders of the same page instance | an Admin section with a "Manage Access" page; render for `STANDARD_USER`, then for `ADMIN` in the same loaded page (a role change without a full reload; sign-out navigates with a reload, which restores `items`) | filter into new objects and leave `items` untouched | medium, not executed | SidebarFilter.StaleAdminView | SidebarFilter.VisibleByRole |
