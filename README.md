# open-mes core, modelled in Dafny

open-mes is a manufacturing execution system. A Django REST backend keeps
the master data (items, suppliers, warehouses), the inventory, purchase and
sales orders, production plans with their work progress and material
allocations, quality inspection items and results, and the per-model display
and CSV-import settings. A React frontend has desktop pages and mobile
scanner pages that resolve a scanned QR code into a page action.

This project models the decision logic of that system and proves what it
promises:

- **QR action resolution.** The server evaluates the active rules in order,
  scripts before regular expressions: the first non-None result wins, an
  invalid pattern skips its rule, any other error ends in 500, and no match
  is 404. The three mobile pages then dispatch the outcome onto their state.
  Each has its own fallback path.
- **Inventory and production bookkeeping.** This covers available and
  remaining quantities, stock moves and purchase-order receipts (quantities
  conserved, one movement row per change), all-or-nothing material
  allocation, and the progress state machine with its finished-goods
  adjustments. It also covers the CSV import row pipeline and the
  reconciliation of inspection details.
- **Field-configuration lists.** The settings pages merge model fields with
  saved settings and renumber on drag as 10, 20, 30, …; a drag is a
  permutation. Bulk saves replace all settings of a data type, and the
  dynamic admin list display is built from them.
- **Form rules and small decisions.** This covers the modals' defaults and
  validation, query strings, pagination windows and counters, status and
  movement-type filters, error flattening, the shelf QR text with its reader,
  the mobile/desktop redirect, password expiry, and the serializers'
  uniqueness and date-order validators.

There is one module per source file. A page or a store whose fields are
updated in place is a `class` with `modifies` frames. Pure rules are
functions, and the properties relating several calls are lemmas. The shared
modules are:

- `Common`: strings, JavaScript `parseInt`/`String`, Python `int`/`split`;
- `Json`: request values;
- `ListOps`: splice moves, renumbering, `Map.set` semantics;
- `DrfFields`: the REST framework's `CharField`;
- `PageLinks`: the page number read from a pagination link;
- `SettingsColumns`: the column pipeline shared by the list pages.

The network, the clock, the database's answers, Python `exec`, `re.match`,
password hashing, e-mail normalisation and `authenticate` enter as parameters.

## Model

| member | source | states |
|---|---|---|
| AppShell.MobileAgentIgnoresCase | frontend/src/App.tsx:50 | the `/…/i` agent test gives the same answer for an agent and for its lower-cased form |
| AppShell.IPhoneIsMobile | frontend/src/App.tsx:50 | an agent containing "iphone" in any ASCII case is judged mobile |
| AppShell.Redirect | frontend/src/App.tsx:49-73 | a mobile agent goes from `/login` to `/mobile/login` and from any other non-mobile path to `/mobile`; a desktop agent goes from any `/mobile…` path to `/`; every other case stays |
| AppShell.RedirectSeparatesScreens | frontend/src/App.tsx:55-72 | after the redirect, the path is under `/mobile` exactly when the agent is mobile |
| AppShell.RedirectSettles | frontend/src/App.tsx:49-73 | a redirect target never needs a second redirect |
| AppShell.StaffRouteOutcome | frontend/src/App.tsx:137-143 | the seven staff routes send a user who is not staff to `/` and render for everyone else; all other routes render |
| AppShell.SessionInfoFor | backend/src/users/rest.py:102-120 | the session endpoint always answers; an anonymous session is neither staff nor superuser |
| AppShell.Shell.constructor | frontend/src/App.tsx:79-83 | the first render is signed in exactly when a non-empty access token is stored, is not staff, has menu and version dialog closed, and is loading |
| AppShell.Shell.HandleLogout | frontend/src/App.tsx:85-90 | both tokens are removed and the user is signed out and not staff |
| AppShell.Shell.CheckAuth | frontend/src/App.tsx:92-116 | no token: signed out, not staff, no request; a session answer sets signed-in and staff = isStaff or isSuperuser; a non-OK answer or a thrown error logs out; loading always ends |
| AppShell.Shell.ToggleMenu | frontend/src/App.tsx:127 | the menu flag flips |
| AppShell.Shell.CloseMenu | frontend/src/App.tsx:128 | the menu is closed |
| AppShell.LogoutClosesStaffRoutes | frontend/src/App.tsx:137-143 | once not staff, every staff route redirects to `/` |
| AppShell.AnonymousSessionNotStaff | backend/src/users/rest.py:119-120 | an anonymous session leaves the shell signed out and not staff |
| AppShell.SuperuserReachesStaffRoutes | frontend/src/App.tsx:106 | a superuser who is not marked staff still reaches the staff routes |
| BaseAdmin.Selected | backend/src/base/admin.py:16-20 | the settings chosen are exactly those of the data type with the flag set, sorted by display order |
| BaseAdmin.DynamicSettings | backend/src/base/admin.py:12-23 | without a data type nothing is configured; with one, the result is missing exactly when no setting has the flag, and otherwise lists the field names of the chosen settings in display order |
| BaseAdmin.DynamicSettingsOrdered | backend/src/base/admin.py:19 | a field listed before another has a display order not above it |
| BaseAdmin.AppendMissingMeaning | backend/src/base/admin.py:31-33 | the configured list stays in front, in its order; the result holds exactly the configured and the editable fields |
| BaseAdmin.AppendMissingNoDuplicates | backend/src/base/admin.py:31-33 | no field is listed twice when the configured list has no repeats |
| BaseAdmin.AppendMissingNothingMissing | backend/src/base/admin.py:31-33 | a configured list that already holds every editable field is returned unchanged |
| BaseAdmin.ListDisplayAsWritten | backend/src/base/admin.py:25-35 | as written, configured list columns always end in the `AttributeError` of `get_list_editable`; without them the admin's own list is shown |
| BaseAdmin.ConfiguredCsvMappingAdminRaises | backend/src/base/admin.py:25-35 | one list-display setting for the CSV mappings makes the CSV-mapping admin's list raise |
| BaseAdmin.GetListDisplay | backend/src/base/admin.py:25-35 | corrected, see ## Findings: without configured list columns the admin's own list is shown; otherwise the configured columns completed by the missing editable fields |
| BaseAdmin.ListDisplayCoversEditable | backend/src/base/admin.py:25-35 | corrected, see ## Findings: with configured columns every editable field is shown, after the configured ones, which keep their order |
| BaseAdmin.DynamicOr | backend/src/base/admin.py:37-47 | search fields and list filters are the configured ones when any exist, else the admin's own |
| BaseAdmin.CsvMappingAdminShowsEditable | backend/src/base/admin.py:59-66 | corrected, see ## Findings: once any column is configured, the CSV-mapping admin still shows its three editable columns |
| BaseApi.QrStatus | backend/src/base/api.py:293-358 | the execute endpoint answers 200, 400, 404 or 500, and 200 exactly for a matched rule |
| BaseApi.ExecuteAction | backend/src/base/api.py:286-358 | the loop over the rules answers exactly what the first-match specification of the endpoint gives |
| BaseApi.RuleStepAnswers | backend/src/base/api.py:300-353 | a single rule never answers 400 or 404, and any answer it gives names that rule |
| BaseApi.ResolveFirstStop | backend/src/base/api.py:300-353 | the first rule that does not pass decides the answer; the rules after it are never looked at |
| BaseApi.ResolveNotFoundIff | backend/src/base/api.py:355-358 | the answer is 404 exactly when every active rule passes |
| BaseApi.ResolveAlwaysBadRequest | backend/src/base/api.py:294-295 | the rules never answer 400: that belongs to the `qr_data` check alone |
| BaseApi.SuccessComesFromRule | backend/src/base/api.py:317-339 | a 200 names a rule whose script compiled and returned that non-None result, and a regex rule among them has a non-empty pattern that matched |
| BaseApi.ServerErrorComesFromRule | backend/src/base/api.py:345-353 | a 500 names a rule whose script did not compile or raised an error other than a regex error |
| BaseApi.ResolveAppend | backend/src/base/api.py:300-358 | rules added after a prefix that already decides change nothing; after a prefix where all pass, they decide |
| BaseApi.EvaluationOrderShape | backend/src/base/api.py:298 | only active rules are evaluated, every active rule is, and every script rule comes before every regex rule |
| BaseApi.InactiveRulesIgnored | backend/src/base/api.py:298 | dropping the inactive rules from the table changes no answer |
| BaseApi.CancelStatus | backend/src/base/api.py:207-224 | a cancel answers 200 exactly when the cancellation was requested |
| BaseApi.FindTask | backend/src/base/api.py:210 | a task is found exactly when a row has that id, and the row found has it |
| BaseApi.TaskTable.constructor | backend/src/base/models.py:232 | the import task table holds the given rows, whose ids are unique |
| BaseApi.TaskTable.CancelTask | backend/src/base/api.py:207-224 | an unknown id gives 404; only a PENDING or STARTED task is set to REVOKED, with nothing else changed; any other status is refused and the table stays |
| BaseApi.SaveStatus | backend/src/base/api.py:226-271 | a bulk save answers 200 exactly when it saved |
| BaseApi.RejectedEmptyIff | backend/src/base/api.py:244-261 | a body is accepted exactly when every row that is not skipped is valid |
| BaseApi.RejectedNamesRow | backend/src/base/api.py:253-255 | each error names a rejected row by its field name, or "index i" for the row at position i when it has none |
| BaseApi.StagedFromRows | backend/src/base/api.py:244-251 | every staged record is made from a row that is kept and valid |
| BaseApi.StagedAllKept | backend/src/base/api.py:244-251 | with nothing rejected, the staged records are the kept rows, one for one and in order |
| BaseApi.StagedEveryRow | backend/src/base/api.py:390-394 | with no row skipped and none rejected, the staged records are the rows, one for one |
| BaseApi.MappingRow | backend/src/base/models.py:69-106 | a saved mapping takes the requested data type and the trimmed header, order 0 when none is sent, and is active when sent active |
| BaseApi.StagedMappingsShape | backend/src/base/api.py:244-251 | every staged mapping is active, of the requested type, with a non-blank header and field name |
| BaseApi.MappingErrorsEmptyIff | backend/src/base/api.py:244-257 | a mapping body is rejected exactly when a kept row is invalid; skipped rows are never validated |
| BaseApi.StagedMappingsCount | backend/src/base/api.py:244-251 | with no error, one mapping is saved per kept row, in body order, built from that row |
| BaseApi.ReplaceMappingsEffect | backend/src/base/api.py:263-267 | after the replace the type's mappings are exactly the new ones and the other types' mappings are untouched |
| BaseApi.SettingRow | backend/src/base/models.py:112-156 | a saved setting takes the requested type and the trimmed field name; an absent display or search order is 10, an absent list flag true |
| BaseApi.StagedSettingsComplete | backend/src/base/api.py:390-394 | a display-setting body without errors is saved row for row, and a row that leaves out the search order is saved with 10 |
| BaseApi.CollectMappings | backend/src/base/api.py:241-255 | the loop stages exactly the kept valid mapping rows and collects exactly the errors of the kept invalid ones |
| BaseApi.CollectSettings | backend/src/base/api.py:387-398 | the loop stages exactly the valid setting rows and collects exactly the errors of the invalid ones |
| BaseApi.SettingsTables.constructor | backend/src/base/models.py:69-156 | the tables start with the given mappings and settings |
| BaseApi.SettingsTables.BulkSaveCsvMappings | backend/src/base/api.py:226-271 | a missing data type or a body that is not a list is refused; any rejected row gives 400; otherwise the type's mappings are replaced by the staged ones unless that breaks a unique constraint; nothing changes unless it saved |
| BaseApi.SettingsTables.BulkSaveDisplaySettings | backend/src/base/api.py:372-412 | the same replace-all for display settings, with no row skipped; nothing changes unless it saved |
| BaseModels.StockMovementHasNoModel | backend/src/base/models.py:7-39 | "stock_movement" can be chosen as a data type but has no model in the mapping, while every mapped type can be chosen |
| BaseModels.DefaultDisplaySetting | backend/src/base/models.py:125-148 | a new display setting has orders 10, no custom name, is listed, and is neither searched nor filtered |
| BaseModels.DefaultCsvMapping | backend/src/base/models.py:82-98 | a new CSV mapping has order 0, is not an update key, and is active |
| BaseModels.NewAsyncTask | backend/src/base/models.py:232-237 | a new task row is PENDING, with progress 0 of 100 and no result |
| BaseSerializers.ModelsToCheck | backend/src/base/serializers.py:78-84 | "goods_receipt" looks in purchase orders then receipts; any other type looks only in its own model, or nowhere when it has none |
| BaseSerializers.FirstVerbose | backend/src/base/serializers.py:87-95 | nothing is found exactly when no checked model has the field; otherwise the first model that has it answers with its verbose name, or the field name when that is empty |
| BaseSerializers.GoodsReceiptPrefersPurchaseOrder | backend/src/base/serializers.py:79-92 | for "goods_receipt" a purchase-order field wins over a receipt field of the same name |
| BaseSerializers.GoodsReceiptFallsToReceipt | backend/src/base/serializers.py:79-92 | a receipt field is found when the purchase-order model lacks it |
| BaseSerializers.OwnModelOnly | backend/src/base/serializers.py:83-92 | any other data type is labelled from its own model |
| BaseSerializers.VerboseNameFallbacks | backend/src/base/serializers.py:97-104 | when no checked model has the field, the two computed properties get their fixed labels and any other field its own name |
| BaseSerializers.StockMovementShowsFieldName | backend/src/base/serializers.py:84-104 | "stock_movement" has no model, so its settings always show the field name |
| BaseSerializers.VerboseNameNonEmpty | backend/src/base/serializers.py:71-104 | a non-empty field name never gets an empty verbose name |
| BaseSerializers.ResaveKeepsSettingsUnique | backend/src/base/serializers.py:69 | with the unique validators off, a bulk save of rows unique among themselves still leaves the table unique per data type and field |
| BaseTasks.InsertByOrder | backend/src/base/tasks.py:23 | inserting a mapping into the ordered list keeps every mapping and adds exactly that one |
| BaseTasks.SortByOrder | backend/src/base/tasks.py:23 | `order_by("order")` is a permutation of the mappings it sorts |
| BaseTasks.SortByOrderOrdered | backend/src/base/tasks.py:23 | the sorted mappings are in ascending `order` |
| BaseTasks.ActiveOf | backend/src/base/tasks.py:23 | a mapping is kept exactly when it belongs to the data type and is active |
| BaseTasks.ActiveMappings | backend/src/base/tasks.py:23 | the mappings used are exactly the active ones of the data type, in ascending `order` |
| BaseTasks.HeaderMap | backend/src/base/tasks.py:31 | the header dict has each header once, no more entries than mappings, every mapping's header present, and the last mapping's field wins for its header |
| BaseTasks.UpdateKeys | backend/src/base/tasks.py:32 | the update-key list is empty exactly when no mapping is marked as an update key |
| BaseTasks.FirstFormat | backend/src/base/tasks.py:72-85 | a found format is one of the list and parses the value; nothing is found exactly when no format parses it |
| BaseTasks.FindDateFormat | backend/src/base/tasks.py:71-86 | the loop over the six formats stops at the first that parses, as `FirstFormat` |
| BaseTasks.CellOf | backend/src/base/tasks.py:64-67 | a cell is stored as `None` exactly when it is present and blank after stripping |
| BaseTasks.CellMeaning | backend/src/base/tasks.py:64-97 | a missing cell raises on `strip`; only an unknown field or an overflowing integer raises otherwise; only dates and integers can be malformed; text is stored stripped, booleans are true exactly for the listed words in lower case, dates keep the first format that parsed them |
| BaseTasks.ConvertCell | backend/src/base/tasks.py:64-97 | the conversion with its format loop gives exactly the cell `CellOf` defines |
| BaseTasks.AddCell | backend/src/base/tasks.py:63-97 | a raising cell stops the row; a malformed cell adds one error and leaves the data; any other cell sets its field and adds no error |
| BaseTasks.ConvertSpec | backend/src/base/tasks.py:63-97 | a converted row has at most one error per header |
| BaseTasks.ConvertSpecAborts | backend/src/base/tasks.py:63-97 | a row's conversion raises exactly when one of its cells raises |
| BaseTasks.ConvertSpecErrs | backend/src/base/tasks.py:63-99 | a converted row has no errors exactly when none of its cells is malformed |
| BaseTasks.ConvertSpecCells | backend/src/base/tasks.py:63-99 | both of the above together |
| BaseTasks.ConvertAbortStays | backend/src/base/tasks.py:63-97 | once a cell has raised, the later headers change nothing |
| BaseTasks.ConvertRow | backend/src/base/tasks.py:60-97 | the loop over the header map gives exactly the fold `ConvertSpec` |
| BaseTasks.PopKeys | backend/src/base/tasks.py:103-107 | every popped key is an update key present with a non-null value, that value is popped, and the remaining data are exactly the other fields, unchanged |
| BaseTasks.PopKeysAll | backend/src/base/tasks.py:103-108 | all update keys are popped exactly when each is present, not null, and not repeated |
| BaseTasks.Defaults | backend/src/base/tasks.py:115 | the defaults are exactly the fields with a non-null value, with that value |
| BaseTasks.FieldErrorsText | backend/src/base/tasks.py:100 | a field-error message starts with the row's line label `行 {i+1}: ` |
| BaseTasks.MissingKeyText | backend/src/base/tasks.py:109-111 | a missing-key message starts with the row's line label |
| BaseTasks.UpsertOf | backend/src/base/tasks.py:103-112 | an upsert carries one lookup pair per update key and none of them among the defaults; no upsert means some key is absent, null or repeated |
| BaseTasks.RowStep | backend/src/base/tasks.py:60-112 | a row raises exactly when its conversion does, is upserted only when converted without errors, and a skipped row's message carries its line label |
| BaseTasks.BlankKeySkips | backend/src/base/tasks.py:103-112 | a clean row whose update key is absent or blank is skipped with the missing-key message |
| BaseTasks.Apply | backend/src/base/tasks.py:114-125 | every row that does not raise adds one to created, updated or errors; the progress becomes the row number only for an upsert; only successful upserts are kept |
| BaseTasks.Step | backend/src/base/tasks.py:53-58 | the revocation check comes first: a row stops the run as revoked exactly when revoked, and a stopped run keeps its tally |
| BaseTasks.EveryRowCountsOnce | backend/src/base/tasks.py:48-125 | after a run that went through, created + updated + errors is the number of rows, and created + updated the number of upserts kept |
| BaseTasks.ProgressIsLastUpsertedRow | backend/src/base/tasks.py:114-125 | the progress is the number of the last row that reached `update_or_create`, or its old value when none did |
| BaseTasks.StoppedStaysStopped | backend/src/base/tasks.py:52-58 | once the loop has stopped, later rows change nothing |
| BaseTasks.ConvertAndKey | backend/src/base/tasks.py:60-112 | the conversion and key extraction of one row give exactly `RowStep` |
| BaseTasks.ImportRows | backend/src/base/tasks.py:52-125 | the row loop gives exactly the fold of `Step` over the rows |
| BaseTasks.TimedOutRollsBack | backend/src/base/tasks.py:132-135 | a run the soft time limit cuts short commits nothing and records FAILURE with "タイムアウトしました。" and the progress reached |
| BaseTasks.SetupErrorMeaning | backend/src/base/tasks.py:23-35 | no active mapping fails with the data-type message; an unknown model fails on `split`; the checks pass only for a known model with an active update key |
| BaseTasks.ImportJob.constructor | backend/src/base/tasks.py:19 | the job starts from the import task row, nothing committed, the file present |
| BaseTasks.ImportJob.Run | backend/src/base/tasks.py:16-142 | the file is always removed; a failed check sets FAILURE with its message and commits nothing; an empty file leaves the row STARTED; otherwise the row loop's outcome, cut short where the soft time limit fires, is recorded as `Finished` states |
| BaseTasks.ImportJob.ImportAll | backend/src/base/tasks.py:41-135 | the row loop over the active mappings, cut short where the soft time limit fires, then its outcome recorded as `Finished` states |
| BaseTasks.ImportJob.Finish | backend/src/base/tasks.py:124-142 | a finished loop sets SUCCESS exactly when no row failed and commits the upserts; a revocation keeps its upserts and progress; an exception, the soft time limit included, rolls back and records its message (`タイムアウトしました。` for the time limit) |
| CsvMappingSettingsPage.MappingFor | frontend/src/pages/CsvMappingSettings.tsx:44 | no mapping is found exactly when none names the field; otherwise the first mapping naming it is found |
| CsvMappingSettingsPage.DisplaySettingFor | frontend/src/pages/CsvMappingSettings.tsx:45 | no display setting is found exactly when none names the field; otherwise the first one naming it is found |
| CsvMappingSettingsPage.RowFor | frontend/src/pages/CsvMappingSettings.tsx:43-61 | a row is active exactly when the field has a saved mapping; header and update key come from that mapping; the order is the mapping's unless it is 0, else (index + 1) × 10, so it is always positive; the custom name comes from the field's display setting, else empty |
| CsvMappingSettingsPage.FieldRows | frontend/src/pages/CsvMappingSettings.tsx:41-62 | one row per field other than `id`, the i-th built from the i-th such field at position i |
| CsvMappingSettingsPage.BuildRowsMeaning | frontend/src/pages/CsvMappingSettings.tsx:41-65 | the table is a reordering of the field rows, sorted by order, one per field other than `id`, every order positive, each row active exactly when a mapping names its field |
| CsvMappingSettingsPage.StoredZeroOrderReplaced | frontend/src/pages/CsvMappingSettings.tsx:58 | a saved mapping whose order is 0 shows its field's position default (i + 1) × 10, and its row is active |
| CsvMappingSettingsPage.ApplyEdit | frontend/src/pages/CsvMappingSettings.tsx:80-88 | an edit changes only the input it comes from: the active switch, the header or the update-key box; name, order and custom name stay |
| CsvMappingSettingsPage.DraggedMeaning | frontend/src/pages/CsvMappingSettings.tsx:123-139 | after a drag the moved row sits at the drop position, the orders are 10, 20, 30, … so sorting by order keeps the list, the rows are a permutation of the old ones and the other rows keep their relative order |
| CsvMappingSettingsPage.SaveInput | frontend/src/pages/CsvMappingSettings.tsx:94-101 | each row is sent with its field name, header, order, update key and active flag |
| CsvMappingSettingsPage.ServerKeepsActiveWithHeader | backend/src/base/api.py:244-245 | the server keeps a sent row exactly when it is active and its header is not blank after stripping |
| CsvMappingSettingsPage.SavedMappings | backend/src/base/api.py:226-271 | without validation errors, one mapping is saved per kept row, each of the chosen data type and active |
| CsvMappingSettingsPage.Screen.constructor | frontend/src/pages/CsvMappingSettings.tsx:16-20 | the page opens with no rows, the first data type selected, not loading, no error and the save status hidden |
| CsvMappingSettingsPage.Screen.FetchAllData | frontend/src/pages/CsvMappingSettings.tsx:22-72 | a successful fetch replaces the rows with the built rows and clears the error; a failure keeps the rows and shows its message; loading ends and the save status is hidden |
| CsvMappingSettingsPage.Screen.HandleInputChange | frontend/src/pages/CsvMappingSettings.tsx:80-88 | only the edited row changes, by that edit; the other rows, the selection and the statuses stay |
| CsvMappingSettingsPage.Screen.HandleDragEnd | frontend/src/pages/CsvMappingSettings.tsx:123-139 | a drop outside the list changes nothing; otherwise the rows become the dragged and renumbered list |
| CsvMappingSettingsPage.Screen.HandleSave | frontend/src/pages/CsvMappingSettings.tsx:90-107 | every row is sent, in table order, for the selected data type; loading starts and the status is hidden |
| CsvMappingSettingsPage.Screen.FinishSave | frontend/src/pages/CsvMappingSettings.tsx:108-120 | a success shows the server's message in green, a failure its message or a fixed text in red; loading ends and the rows stay |
| DataImportPage.FormFields | frontend/src/pages/DataImport.tsx:40-83 | a type has form fields exactly when it is one of the six known types |
| DataImportPage.TableConfigFor | frontend/src/pages/DataImport.tsx:85-115 | the id key of every table is `id` |
| DataImportPage.TableShape | frontend/src/pages/DataImport.tsx:85-115 | a known type has one header per row key plus the operations header last; any other type has no header and no row key |
| DataImportPage.ColumnsAreFormFields | frontend/src/pages/DataImport.tsx:44-110 | the three master tables and the parts-used table show exactly the fields of their forms, in form order |
| DataImportPage.PurchaseColumnsAddStatus | frontend/src/pages/DataImport.tsx:60-103 | the purchase-entry table shows its form's fields and then the read-only status |
| DataImportPage.EndpointFor | frontend/src/pages/DataImport.tsx:117-125 | a type has an endpoint entry exactly when it is a known type |
| DataImportPage.EndpointsShareOneCollection | frontend/src/pages/DataImport.tsx:117-125 | every type creates at its list URL and reads, updates and deletes records under that same URL |
| DataImportPage.RecordUrl | frontend/src/pages/DataImport.tsx:118-124 | a record URL is the collection URL followed by the id's text and `/` |
| DataImportPage.FindByCaption | frontend/src/pages/DataImport.tsx:215 | a found option carries the searched caption |
| DataImportPage.NormalizedSelect | frontend/src/pages/DataImport.tsx:213-225 | a value that is an option value is kept; a caption that is no option value becomes the value of the first option with that caption; anything else becomes "" |
| DataImportPage.NormalizedFitsSelect | frontend/src/pages/DataImport.tsx:213-225 | after loading, a select holds one of its option values or "" |
| DataImportPage.NormalizedSelectStable | frontend/src/pages/DataImport.tsx:213-225 | normalising a normalised value changes nothing |
| DataImportPage.Normalized | frontend/src/pages/DataImport.tsx:209-226 | `processedData` has the keys of the fetched record |
| DataImportPage.NormalizedUntouched | frontend/src/pages/DataImport.tsx:209-226 | a key no select field names, or whose fetched value is falsy, keeps its fetched value |
| DataImportPage.NormalizedBySelect | frontend/src/pages/DataImport.tsx:212-226 | a truthy fetched value is normalised by the options of the last select field with that name |
| DataImportPage.NormalizeSelects | frontend/src/pages/DataImport.tsx:209-226 | the `forEach` loop produces exactly the processed record `Normalized` describes |
| DataImportPage.ProvisionCaptionLoadsValue | frontend/src/pages/DataImport.tsx:212-226 | an item whose provision type arrives as the caption 有償支給 is loaded with the value `paid` |
| DataImportPage.SubmitRequest | frontend/src/pages/DataImport.tsx:250-260 | PUT exactly when the record id is truthy, to the record URL; otherwise POST to the create URL; the body is the form data |
| DataImportPage.EditTargetsListedRecord | frontend/src/pages/DataImport.tsx:253-254 | an edit is a PUT to the list URL followed by the id of the listed row |
| DataImportPage.RowsAfterDelete | frontend/src/pages/DataImport.tsx:287 | a delete never adds rows |
| DataImportPage.DeleteRemovesExactly | frontend/src/pages/DataImport.tsx:287 | a row survives a delete exactly when it was there and does not carry the deleted id |
| DataImportPage.DeleteKeepsOrder | frontend/src/pages/DataImport.tsx:287 | the delete filter acts on each part of the list separately, so the remaining rows keep their order |
| DataImportPage.DeleteIdempotent | frontend/src/pages/DataImport.tsx:287 | deleting the same id twice leaves what deleting once left |
| DataImportPage.DisplayName | frontend/src/pages/DataImport.tsx:522 | a truthy `name` names the row; failing that a truthy order number, failing that a truthy plan name; with none of them the row is named `ID: <id>` |
| DataImportPage.CsvDataTypesAreImportable | frontend/src/pages/DataImport.tsx:130-147 | every type the upload offers is one of the data types of backend/src/base/models.py:7-22 |
| DataImportPage.TemplateUrl | frontend/src/pages/DataImport.tsx:298-306 | the template link is empty exactly for the blank choice and otherwise is the template URL ending in the chosen type |
| DataImportPage.FilenameMatch | frontend/src/pages/DataImport.tsx:321 | a match of `filename="([^"]+)"` is a non-empty quote-free name |
| DataImportPage.FilenameMatchSkips | frontend/src/pages/DataImport.tsx:321 | the regex search passes over positions that cannot start `filename="` |
| DataImportPage.FilenameMatchAt | frontend/src/pages/DataImport.tsx:321 | `filename="name"` at a position with a quote-free name is a match of exactly that name |
| DataImportPage.DispositionName | frontend/src/pages/DataImport.tsx:321 | behind a prefix with no `f`, the quoted name of `filename="name"` is the match |
| DataImportPage.DownloadName | frontend/src/pages/DataImport.tsx:318-325 | an attachment disposition with a match saves under the matched name; every other answer saves as `template.csv` |
| DataImportPage.TemplateSavedUnderItsName | backend/src/base/api.py:159 | the disposition the template endpoint sends makes the page save the file as `<data_type>_template.csv` |
| DataImportPage.TerminalStatuses | frontend/src/pages/DataImport.tsx:348 | polling ends exactly on SUCCESS, FAILURE or REVOKED (backend/src/base/models.py:223-229); the 404 answer's `error` never ends it |
| DataImportPage.Percent | frontend/src/pages/DataImport.tsx:346 | the percentage is 0 when the total is 0, and otherwise `progress / total * 100` rounded to the nearest integer, halves up |
| DataImportPage.PercentFull | frontend/src/pages/DataImport.tsx:346 | progress equal to a positive total shows 100 |
| DataImportPage.PercentBounded | frontend/src/pages/DataImport.tsx:346 | the percentage stays within 0..100 while progress does not pass the total |
| DataImportPage.FinalResult | frontend/src/pages/DataImport.tsx:352-358 | the dialog is an error exactly for FAILURE; SUCCESS shows the created and updated counts; other statuses show the error prefix and the result's error ("undefined" if absent); the row errors come from the result or are empty |
| DataImportPage.RevokedShownAsNonError | frontend/src/pages/DataImport.tsx:355-356 | a revoked task shows an error message in a dialog not marked as an error |
| DataImportPage.UploadFailure | frontend/src/pages/DataImport.tsx:393-402 | a refused upload opens an error dialog with no row errors whose message starts with the upload-error prefix |
| DataImportPage.ListRows | frontend/src/pages/DataImport.tsx:180 | `results` is used when present (even empty), else `data`, else no row |
| DataImportPage.Screen.constructor | frontend/src/pages/DataImport.tsx:151-169 | the initial state of the page: every modal closed, nothing loading, empty form, no task |
| DataImportPage.Screen.FetchListData | frontend/src/pages/DataImport.tsx:171-188 | a blank type changes nothing; otherwise the list shows the table of the type with the answer's rows, or no row and the error; loading ends |
| DataImportPage.Screen.ShowRegisterModal | frontend/src/pages/DataImport.tsx:195-238 | the modal opens on the type with an empty form; with a record id, a successful answer loads the normalised record and a failure sets the error |
| DataImportPage.Screen.ShowListModal | frontend/src/pages/DataImport.tsx:240-248 | the list modal opens on the type and its name, with no record id, and requests the list |
| DataImportPage.Screen.HandleFieldChange | frontend/src/pages/DataImport.tsx:17-32 | an input sets its own key of the form data and keeps the others |
| DataImportPage.Screen.HandleFormSubmit | frontend/src/pages/DataImport.tsx:250-260 | the save request is `SubmitRequest` of the modal's type, record id and form data |
| DataImportPage.Screen.FinishFormSubmit | frontend/src/pages/DataImport.tsx:261-270 | an OK answer closes the modal and reloads an open list; a refusal or a thrown error changes nothing |
| DataImportPage.Screen.AskDelete | frontend/src/pages/DataImport.tsx:520-524 | the delete button opens the confirmation on the row's id, the list's type and the row's display name |
| DataImportPage.Screen.HandleDeleteConfirm | frontend/src/pages/DataImport.tsx:273-293 | nothing without a target; an OK answer closes the dialog and removes the rows with that id; other answers change nothing |
| DataImportPage.Screen.HandleTemplateDownload | frontend/src/pages/DataImport.tsx:308-338 | without a template link nothing is fetched; otherwise the link is fetched; a non-OK answer saves nothing and alerts the failure with its status code and text; an OK answer is saved under `DownloadName` |
| DataImportPage.Screen.HandleCsvDataTypeChange | frontend/src/pages/DataImport.tsx:298-306 | the chosen type is stored with its template link |
| DataImportPage.Screen.DropFiles | frontend/src/pages/DataImport.tsx:295 | the first accepted file becomes the chosen file, none when nothing was accepted |
| DataImportPage.Screen.StartCsvUpload | frontend/src/pages/DataImport.tsx:378-391 | without a file and a type nothing happens; otherwise the upload URL carries the type and the page waits with no task and 0 % |
| DataImportPage.Screen.FinishCsvUpload | frontend/src/pages/DataImport.tsx:392-406 | an accepted upload starts polling with status PENDING; anything else opens the upload-error dialog and stops loading; the chosen file is cleared either way |
| DataImportPage.Screen.PollTaskStatus | frontend/src/pages/DataImport.tsx:340-367 | the status and percentage are shown; a terminal status stops polling and loading and opens `FinalResult`; a 404 shows status `error` and keeps polling; a thrown error stops polling and loading |
| DataImportPage.Screen.CancelUpload | frontend/src/pages/DataImport.tsx:408-416 | a cancel request goes to the running task's cancel URL, none without a task; the page state is unchanged |
| DataImportPage.Screen.StatusUrl | frontend/src/pages/DataImport.tsx:369-376 | a status URL is polled exactly while a task runs |
| DrfFields.CharField | backend/src/users/serializers.py:24-25 | an absent value is an error only when required; null and blank (after trimming, if trimming) are errors; otherwise the value, trimmed when asked, which is never empty |
| DrfFields.ErrorsOf | backend/src/users/serializers.py:97-99 | an invalid field contributes exactly one error under its name; a valid or skipped one contributes none |
| GoodsIssuePage.ListShowsPendingOrders | frontend/src/pages/GoodsIssue.tsx:20 | the list request makes the server list exactly the sales orders whose status is `pending` (backend/src/inventory/rest_views.py:404-430) |
| GoodsIssuePage.DefaultIssueQuantity | frontend/src/pages/GoodsIssue.tsx:40 | the modal opens with a quantity exactly when the order has something left to ship |
| GoodsIssuePage.CheckIssue | frontend/src/pages/GoodsIssue.tsx:56-64 | a quantity is accepted exactly when it parses as an integer from 1 to the remaining quantity, and is then that integer; it is refused as not positive exactly when it does not parse or is ≤ 0 |
| GoodsIssuePage.DefaultIssuesRemaining | frontend/src/pages/GoodsIssue.tsx:38-64 | for an order with something left, submitting the opened quantity ships all that remains |
| GoodsIssuePage.DefaultRefusedWhenNothingLeft | frontend/src/pages/GoodsIssue.tsx:38-64 | for an order with nothing left, submitting the opened (blank) quantity is refused as not positive |
| GoodsIssuePage.OutcomeMessage | frontend/src/pages/GoodsIssue.tsx:75-89 | success shows the server's message or the fixed success text; a 400 shows the server's error or the generic error; any other answer the generic error; a network failure the network error |
| GoodsIssuePage.IssueNeverSucceeds | backend/src/inventory/rest_views.py:441-445 | the issue action answers 501 with no `error`, so every accepted submission ends in the generic error |
| GoodsIssuePage.Screen.constructor | frontend/src/pages/GoodsIssue.tsx:6-14 | the first render: no orders, loading, no error, and the modal closed and blank |
| GoodsIssuePage.Screen.FetchSalesOrders | frontend/src/pages/GoodsIssue.tsx:16-32 | the pending orders are requested; an OK answer replaces the list, a failure keeps it and shows the load error; loading ends |
| GoodsIssuePage.Screen.OpenModal | frontend/src/pages/GoodsIssue.tsx:38-43 | the modal opens on the order with its default quantity and no message |
| GoodsIssuePage.Screen.CloseModal | frontend/src/pages/GoodsIssue.tsx:45-50 | the modal closes with no order, no quantity and no message |
| GoodsIssuePage.Screen.HandleQuantityChange | frontend/src/pages/GoodsIssue.tsx:13 | the quantity input holds the typed text |
| GoodsIssuePage.Screen.HandleIssueSubmit | frontend/src/pages/GoodsIssue.tsx:52-73 | a refused quantity shows its danger message and sends nothing; an accepted one is posted with the order's id and that quantity |
| GoodsIssuePage.Screen.FinishIssue | frontend/src/pages/GoodsIssue.tsx:75-89 | the modal shows the outcome's message |
| GoodsReceiptPage.SetFilterMeaning | frontend/src/pages/GoodsReceipt.tsx:161-164 | a filter change keeps one value per key, puts the new value under its name and leaves every other filter as it was |
| GoodsReceiptPage.FilterQuery | frontend/src/pages/GoodsReceipt.tsx:46-53 | the query carries `search_<key>` for exactly the filters with a non-empty value and nothing else |
| GoodsReceiptPage.InitialQueryPending | frontend/src/pages/GoodsReceipt.tsx:22-25 | the first request asks only for `search_status=pending` |
| GoodsReceiptPage.SearchKeyInjective | frontend/src/pages/GoodsReceipt.tsx:50 | two filters get the same parameter name exactly when they have the same key |
| GoodsReceiptPage.BlankFilterNotSent | frontend/src/pages/GoodsReceipt.tsx:48-52 | a filter set to blank is no longer sent under its parameter name |
| GoodsReceiptPage.BlankStatusNotSent | frontend/src/pages/GoodsReceipt.tsx:347 | choosing the blank status option stops sending `search_status` |
| GoodsReceiptPage.FieldFor | frontend/src/pages/GoodsReceipt.tsx:107-108 | a name has no field exactly when no field in the map carries it; otherwise the field found carries that name |
| GoodsReceiptPage.FieldMapShape | frontend/src/pages/GoodsReceipt.tsx:78-90 | the merged field map has one entry per name and starts with the purchase-order fields as set one by one |
| GoodsReceiptPage.PurchaseOrderFieldWins | frontend/src/pages/GoodsReceipt.tsx:81-90 | a purchase-order field that no later purchase-order field renames is the one found for its name, whatever the goods-receipt fields |
| GoodsReceiptPage.GoodsReceiptFieldFillsGap | frontend/src/pages/GoodsReceipt.tsx:85-90 | the first goods-receipt field of a name no purchase-order field has is the one found for that name |
| GoodsReceiptPage.MergedSettingsShape | frontend/src/pages/GoodsReceipt.tsx:94-102 | the merged settings hold one setting per field, each from one of the two lists, and every field named by either list has one |
| GoodsReceiptPage.GoodsReceiptSettingWins | frontend/src/pages/GoodsReceipt.tsx:98-100 | a goods-receipt setting that no later one renames is kept over the purchase-order setting of its field |
| GoodsReceiptPage.PurchaseOrderSettingKept | frontend/src/pages/GoodsReceipt.tsx:95-97 | a purchase-order setting that no later setting of either list names is kept |
| GoodsReceiptPage.ColumnOf | frontend/src/pages/GoodsReceipt.tsx:105-109 | a column keeps its setting, and takes the verbose name and type of its field, or the field name and `Unknown` when the field is not in the map |
| GoodsReceiptPage.ColumnNamed | frontend/src/pages/GoodsReceipt.tsx:107-108 | a column whose field name is not blank never has a blank verbose name or type |
| GoodsReceiptPage.MergedColumns | frontend/src/pages/GoodsReceipt.tsx:105-109 | one column per merged setting, in the same order |
| GoodsReceiptPage.SearchInputs | frontend/src/pages/GoodsReceipt.tsx:332-333 | the search inputs are exactly the search fields other than `status` |
| GoodsReceiptPage.CellValue | frontend/src/pages/GoodsReceipt.tsx:282-306 | the remaining-quantity cell shows quantity minus received when both are numbers; a known status shows its label |
| GoodsReceiptPage.UnknownStatusShownRaw | frontend/src/pages/GoodsReceipt.tsx:291-306 | a status outside the four labels is shown as stored, and a missing one as `N/A` |
| GoodsReceiptPage.ReceiptForm | frontend/src/pages/GoodsReceipt.tsx:171-178 | the opened form holds exactly the quantity, the order's location and the order's warehouse, each blank when the order has none |
| GoodsReceiptPage.AcceptedQuantity | frontend/src/pages/GoodsReceipt.tsx:198-202 | a quantity is accepted exactly when it parses as a positive integer, and then is that integer |
| GoodsReceiptPage.EnabledOrderFormAccepted | frontend/src/pages/GoodsReceipt.tsx:171-202 | an order whose button is enabled opens with an accepted quantity equal to what remains |
| GoodsReceiptPage.NothingLeftFormRefused | frontend/src/pages/GoodsReceipt.tsx:171-202 | an order with nothing left opens with a blank quantity, which is refused |
| GoodsReceiptPage.NoUpperBound | frontend/src/pages/GoodsReceipt.tsx:198-202 | any positive quantity is accepted, also one above what remains |
| GoodsReceiptPage.SettingsFailureEmpties | frontend/src/pages/GoodsReceipt.tsx:121-126 | when either settings request fails the page has no columns and no search inputs |
| GoodsReceiptPage.Screen.constructor | frontend/src/pages/GoodsReceipt.tsx:8-29 | the first render: no orders, loading, no settings, the pending filter, and the modal closed with a blank form |
| GoodsReceiptPage.Screen.HandleFilterChange | frontend/src/pages/GoodsReceipt.tsx:161-164 | the filters become `SetFilter` of the old ones; nothing else changes |
| GoodsReceiptPage.Screen.FetchPurchaseOrders | frontend/src/pages/GoodsReceipt.tsx:32-146 | the list request is the page link or the filter query; the columns and search fields are rebuilt from the answers; an OK list replaces the orders and pagination, a failure sets the error and keeps them; loading ends |
| GoodsReceiptPage.Screen.BuildColumns | frontend/src/pages/GoodsReceipt.tsx:92-126 | the visible and searchable columns of the answers, or none when a settings request failed |
| GoodsReceiptPage.Screen.BuildFieldMap | frontend/src/pages/GoodsReceipt.tsx:78-90 | the two loops build exactly the merged field map |
| GoodsReceiptPage.Screen.MergeSettings | frontend/src/pages/GoodsReceipt.tsx:94-102 | the two loops build exactly the merged settings |
| GoodsReceiptPage.Screen.OpenReceiptModal | frontend/src/pages/GoodsReceipt.tsx:171-180 | the modal opens on the order with no messages and the form of that order |
| GoodsReceiptPage.Screen.CloseReceiptModal | frontend/src/pages/GoodsReceipt.tsx:182-185 | the modal closes with no order and no messages; the form stays |
| GoodsReceiptPage.Screen.HandleReceiptFormChange | frontend/src/pages/GoodsReceipt.tsx:188-191 | the form's entry under the input's name becomes the typed text; nothing else changes |
| GoodsReceiptPage.Screen.HandleReceiptSubmit | frontend/src/pages/GoodsReceipt.tsx:194-213 | a quantity that is not a positive integer is refused with its message; otherwise the order's id, the quantity and the trimmed location and warehouse are posted, or the communication error shows when the body cannot be built |
| GoodsReceiptPage.Screen.FinishReceipt | frontend/src/pages/GoodsReceipt.tsx:214-227 | success shows the order number in the success message; a failure shows the server's error or the fixed failure text; a network failure the communication error |
| InspectionResultForm.MeasurementKey | frontend/src/components/quality/InspectionResultModal.tsx:37 | a detail's key is `measurement_value_` followed by the detail id |
| InspectionResultForm.FieldEntry | frontend/src/components/quality/InspectionResultModal.tsx:33-35 | a field's initial entry is keyed by its name and holds null for a file input, a blank text otherwise |
| InspectionResultForm.DetailEntry | frontend/src/components/quality/InspectionResultModal.tsx:36-38 | a detail's initial entry is its measurement key with a blank text |
| InspectionResultForm.BuildInitialForm | frontend/src/components/quality/InspectionResultModal.tsx:32-38 | the two `forEach` loops build the initial form `InitialForm` describes (object assignment: a repeated key keeps its first place and takes the last value) |
| InspectionResultForm.InitialFormLayout | frontend/src/components/quality/InspectionResultModal.tsx:32-38 | with no repeated key, the initial form is the fields' entries then the details' entries, each once and in order |
| InspectionResultForm.MeasurementKeyInjective | frontend/src/components/quality/InspectionResultModal.tsx:37 | different details have different keys |
| InspectionResultForm.ServerFieldInitials | backend/src/quality/rest_views.py:18-24 | the four server field names are distinct and none starts like a measurement key |
| InspectionResultForm.ServerInitialForm | backend/src/quality/rest_views.py:18-24 | with the server's fields and details of distinct ids, the initial form is one entry per field then one per detail |
| InspectionResultForm.InputValue | frontend/src/components/quality/InspectionResultModal.tsx:58-61 | a text input gives its text; a file input gives its first file, or `undefined` when none is chosen |
| InspectionResultForm.DetailIdOf | frontend/src/components/quality/InspectionResultModal.tsx:73 | dropping the prefix of a measurement key gives back the id that key was made from |
| InspectionResultForm.DetailIdRoundTrip | frontend/src/components/quality/InspectionResultModal.tsx:37-73 | the id read from a detail's key is the detail's id |
| InspectionResultForm.JsonMember | frontend/src/components/quality/InspectionResultModal.tsx:83 | inside `JSON.stringify`, a text stays a string, null stays null, and `undefined` drops the member |
| InspectionResultForm.PayloadEntry | frontend/src/components/quality/InspectionResultModal.tsx:74-77 | a payload object carries the detail id taken from the key, and a `value` member exactly when the value survives `JSON.stringify` |
| InspectionResultForm.FieldPart | frontend/src/components/quality/InspectionResultModal.tsx:79 | a form part keeps its key; a text is sent as text, a file as a file, `undefined` as the text "undefined" |
| InspectionResultForm.Submission | frontend/src/components/quality/InspectionResultModal.tsx:68-83 | the last part of the post is the JSON payload of the measured values |
| InspectionResultForm.BuildSubmission | frontend/src/components/quality/InspectionResultModal.tsx:68-83 | the `for…in` loop and the final append build exactly `Submission` |
| InspectionResultForm.SubmissionPartition | frontend/src/components/quality/InspectionResultModal.tsx:71-81 | every measured value goes to the payload and every non-null other entry to its own part; the payload and the parts hold nothing else |
| InspectionResultForm.PayloadAsServerReadsIt | backend/src/quality/rest_views.py:134-137 | a measured value reaches the server under its detail's id with its text as the value |
| InspectionResultForm.UntouchedParts | frontend/src/components/quality/InspectionResultModal.tsx:71-81 | posting the form as loaded sends the lot number, equipment and remarks blank and no attachment |
| InspectionResultForm.UntouchedMeasurements | frontend/src/components/quality/InspectionResultModal.tsx:71-77 | the measured values of the form as loaded are the details' blank entries in order |
| InspectionResultForm.BlankPayloadEntry | frontend/src/components/quality/InspectionResultModal.tsx:74-77 | a blank entry becomes `{measurement_detail_id: id, value: ""}` |
| InspectionResultForm.UntouchedPayload | frontend/src/components/quality/InspectionResultModal.tsx:69-83 | posting the form as loaded sends one blank value per detail, in order, under the detail's id |
| InspectionResultForm.ServerFieldsFiltered | backend/src/quality/rest_views.py:18-24 | no server field is a measured value, and every server field except the file is sent |
| InspectionResultForm.BlankValueStoredAsNull | backend/src/quality/rest_views.py:145-149 | a blank measured value is stored as null whichever the detail's measurement type |
| InspectionResultForm.EmptiedFileSentAsText | frontend/src/components/quality/InspectionResultModal.tsx:78-79 | a file input emptied after a choice holds `undefined`, which is not null and is sent as the text "undefined" |
| InspectionResultForm.LoadFailure | frontend/src/components/quality/InspectionResultModal.tsx:20-27 | a non-OK answer gives the HTTP status and body; a refusal gives its message or the fallback; a thrown error gives its message |
| InspectionResultForm.FlatValues | frontend/src/components/quality/InspectionResultModal.tsx:102 | with only text values, `flat()` keeps one element per value |
| InspectionResultForm.Chars | frontend/src/components/quality/InspectionResultModal.tsx:102 | `Object.values` of a string is its characters, one per element |
| InspectionResultForm.ErrorDetailsAsWritten | frontend/src/components/quality/InspectionResultModal.tsx:101-103 | as written, a string `errors` is shown as its characters joined by "; " |
| InspectionResultForm.ErrorDetails | frontend/src/components/quality/InspectionResultModal.tsx:101-103 | as intended, a string `errors` is shown as it is and an object's messages as written |
| InspectionResultForm.JoinCharsLength | frontend/src/components/quality/InspectionResultModal.tsx:102 | joining n ≥ 1 single characters with "; " writes 3n − 2 characters |
| InspectionResultForm.TextErrorsSpelledOut | backend/src/quality/rest_views.py:176-180 | a text error of two or more characters (the `str(e)` the server sends) is never shown as itself; "ab" is shown as "a; b"; the intended details show it unchanged |
| InspectionResultForm.AlertFor | frontend/src/components/quality/InspectionResultModal.tsx:93-108 | corrected, see ## Findings: every answer shows an alert; it is a success exactly for an OK answer with `success`, with its message or the fallback; a refusal shows its message and the error details; a thrown error shows the send-error prefix and its message |
| InspectionResultForm.Screen.constructor | frontend/src/components/quality/InspectionResultModal.tsx:6-12 | the modal starts loading, with no error, no field, no detail, an empty form, not submitting and the alert hidden |
| InspectionResultForm.Screen.FetchModalData | frontend/src/components/quality/InspectionResultModal.tsx:14-47 | the item's form-data URL is requested; a loaded answer sets the fields, the details and the initial form; a failure sets `LoadFailure` and keeps the rest; loading ends |
| InspectionResultForm.Screen.HandleInputChange | frontend/src/components/quality/InspectionResultModal.tsx:58-61 | the input's key takes its new value in place, or is added last |
| InspectionResultForm.Screen.HandleSubmit | frontend/src/components/quality/InspectionResultModal.tsx:63-90 | submitting starts, the alert is hidden, and the post to the item's record URL is `Submission` of the form |
| InspectionResultForm.Screen.FinishSubmit | frontend/src/components/quality/InspectionResultModal.tsx:91-111 | corrected, see ## Findings: the alert is `AlertFor` the answer and submitting ends |
| InventoryInquiryPage.SetFilterMeaning | frontend/src/pages/InventoryInquiry.tsx:145-151 | a change keeps the checkbox first and one value per key, sets the new value under its name and leaves every other filter as it was |
| InventoryInquiryPage.HideZeroText | frontend/src/pages/InventoryInquiry.tsx:57 | the checkbox parameter is the text of the checkbox's value |
| InventoryInquiryPage.FilterQueryMeaning | frontend/src/pages/InventoryInquiry.tsx:51-58 | the query ends with `hide_zero_stock_query`; before it come exactly the criteria with a truthy value, each as `<key>_query` |
| InventoryInquiryPage.InitialQuery | frontend/src/pages/InventoryInquiry.tsx:22-25 | the first request sends only `hide_zero_stock_query=true` |
| InventoryInquiryPage.ServerReadsCheckbox | backend/src/inventory/rest_views.py:79-98 | the server's hide-zero flag is the checkbox's value |
| InventoryInquiryPage.ServerReadsCriterion | frontend/src/pages/InventoryInquiry.tsx:51-58 | a truthy criterion is the one value the server reads under `<key>_query` |
| InventoryInquiryPage.ServerFiltersPartNumber | backend/src/inventory/rest_views.py:80-87 | a non-blank part-number criterion is what the server filters part numbers by |
| InventoryInquiryPage.PartNumbersMeaning | frontend/src/pages/InventoryInquiry.tsx:104 | the part numbers looked up are exactly the truthy part numbers of the rows, each once |
| InventoryInquiryPage.PartNameFor | frontend/src/pages/InventoryInquiry.tsx:111-112 | a row's part name is blank or truthy, and blank when no item has its part number |
| InventoryInquiryPage.PartNameOfLastItem | frontend/src/pages/InventoryInquiry.tsx:111-112 | a row's part name is the name of the last item with its part number, or blank when that name is not truthy |
| InventoryInquiryPage.PartNameOfUnknown | frontend/src/pages/InventoryInquiry.tsx:111-112 | a row whose part number no item has gets the blank name |
| InventoryInquiryPage.WithPartNames | frontend/src/pages/InventoryInquiry.tsx:112 | every row gains its `part_name` and keeps all its other members |
| InventoryInquiryPage.RowsWithNamesMeaning | frontend/src/pages/InventoryInquiry.tsx:100-116 | without part numbers, or with a failed item answer, the rows stay as they are; they are lost exactly when the item request is rejected |
| InventoryInquiryPage.ModifyForm | frontend/src/pages/InventoryInquiry.tsx:158-166 | the modify form holds exactly the row's warehouse, its location with `-` shown blank, and its quantity |
| InventoryInquiryPage.MoveForm | frontend/src/pages/InventoryInquiry.tsx:173-181 | the move form holds exactly the row's whole quantity and blank targets |
| InventoryInquiryPage.MoveBody | frontend/src/pages/InventoryInquiry.tsx:243-250 | the move body holds exactly the quantity (null when it did not parse) and the two targets |
| InventoryInquiryPage.UnparsedQuantityRefusedByServer | backend/src/inventory/rest_views.py:119-135 | a quantity the page lets through unparsed is refused by the server as invalid request data |
| InventoryInquiryPage.ClientMoveAcceptedByServer | backend/src/inventory/rest_views.py:119-195 | a positive quantity within the row's stock and a non-blank target warehouse is accepted by the server for that quantity |
| InventoryInquiryPage.DefaultMovePasses | frontend/src/pages/InventoryInquiry.tsx:173-241 | a row with a positive quantity opens a move whose quantity parses to that quantity and passes the page's checks once a target is typed |
| InventoryInquiryPage.Screen.constructor | frontend/src/pages/InventoryInquiry.tsx:8-33 | the first render: no rows, loading, no settings, the checkbox ticked, both modals closed and both forms blank |
| InventoryInquiryPage.Screen.HandleFilterChange | frontend/src/pages/InventoryInquiry.tsx:145-151 | the filters become `SetFilter` of the old ones; nothing else changes |
| InventoryInquiryPage.Screen.FetchInventory | frontend/src/pages/InventoryInquiry.tsx:36-130 | the list request is the page link or the filter query; the columns are rebuilt from the answers; the named rows and pagination replace the old ones, or the error shows; loading ends |
| InventoryInquiryPage.Screen.ApplyAnswers | frontend/src/pages/InventoryInquiry.tsx:71-123 | an answered fetch sets the columns, then the named rows or the error |
| InventoryInquiryPage.Screen.Show | frontend/src/pages/InventoryInquiry.tsx:84-123 | the new columns are shown, then the rows and pagination, or the error with the old rows kept |
| InventoryInquiryPage.Screen.BuildColumns | frontend/src/pages/InventoryInquiry.tsx:71-94 | the visible and searchable columns of the answers |
| InventoryInquiryPage.Screen.BuildRows | frontend/src/pages/InventoryInquiry.tsx:99-115 | the rows after the part-name step, and the item-master lookup it sends |
| InventoryInquiryPage.Screen.AddPartNames | frontend/src/pages/InventoryInquiry.tsx:112 | the loop gives exactly `WithPartNames` of the rows |
| InventoryInquiryPage.Screen.OpenModifyModal | frontend/src/pages/InventoryInquiry.tsx:158-166 | the modify modal opens on the row with no messages and the row's modify form |
| InventoryInquiryPage.Screen.CloseModifyModal | frontend/src/pages/InventoryInquiry.tsx:168-171 | the modify modal closes; its form stays |
| InventoryInquiryPage.Screen.OpenMoveModal | frontend/src/pages/InventoryInquiry.tsx:173-181 | the move modal opens on the row with no messages and the row's move form |
| InventoryInquiryPage.Screen.CloseMoveModal | frontend/src/pages/InventoryInquiry.tsx:183-186 | the move modal closes; its form stays |
| InventoryInquiryPage.Screen.HandleModifyFormChange | frontend/src/pages/InventoryInquiry.tsx:189-192 | the modify form's entry under the input's name becomes the typed text |
| InventoryInquiryPage.Screen.HandleMoveFormChange | frontend/src/pages/InventoryInquiry.tsx:194-197 | the move form's entry under the input's name becomes the typed text |
| InventoryInquiryPage.Screen.HandleModifySubmit | frontend/src/pages/InventoryInquiry.tsx:200-212 | with a row and a text location the PATCH carries the quantity as it is and the trimmed location; otherwise the client error shows |
| InventoryInquiryPage.Screen.FinishModify | frontend/src/pages/InventoryInquiry.tsx:213-226 | success shows the server's message or the fixed text; a failure its `error`, else its `detail`, else the fixed text; a thrown error its message or the communication text |
| InventoryInquiryPage.Screen.HandleMoveSubmit | frontend/src/pages/InventoryInquiry.tsx:230-250 | a quantity parsing to 0 or less is refused, then a blank target; a quantity that does not parse passes; the body carries the parsed quantity and the trimmed targets |
| InventoryInquiryPage.Screen.FinishMove | frontend/src/pages/InventoryInquiry.tsx:251-264 | success shows the server's message or the fixed text; a failure its `error` or the fixed text; a network failure the communication text |
| InventoryModels.NewInventory | backend/src/inventory/models.py:16-21 | a row created from its key and a quantity has nothing reserved and is active and allocatable |
| InventoryModels.AvailableQuantity | backend/src/inventory/models.py:23-28 | never negative; zero for an inactive or non-allocatable row; otherwise the unreserved part of the quantity, floored at zero |
| InventoryModels.AvailableAtMostQuantity | backend/src/inventory/models.py:28 | with a non-negative reservation and quantity, what is available never exceeds the quantity |
| InventoryModels.AvailableIffUnreservedStock | backend/src/inventory/models.py:23-28 | something is available exactly when the row is active, allocatable and holds more than is reserved |
| InventoryModels.PurchaseRemaining | backend/src/inventory/models.py:126-129 | remaining plus received is the ordered quantity; undefined for a null quantity |
| InventoryModels.PurchaseRemainingUnclamped | backend/src/inventory/models.py:126-129 | over-receiving makes the remaining quantity negative: it is not clamped |
| InventoryModels.SalesRemaining | backend/src/inventory/models.py:185-187 | remaining plus shipped is the ordered quantity |
| InventoryModels.NewSalesOrder | backend/src/inventory/models.py:157-179 | a new sales order has nothing shipped, is pending, and all of its quantity remains |
| InventoryModels.TotalOfUpdate | backend/src/inventory/rest_views.py:145-160 | replacing one stock row changes a part's total by the difference of the two rows' quantities for that part |
| InventoryModels.MatchingWhere | backend/src/inventory/rest_views.py:93 | the filter selects, in order, exactly the indices of the rows that satisfy it |
| InventoryModels.FindWhere | backend/src/inventory/rest_views.py:294 | `.get` finds no row exactly when none matches, the single match when there is one, and raises when two match |
| InventoryModels.FindRow | backend/src/inventory/rest_views.py:152-157 | `get_or_create` on the stock key finds nothing exactly when no row has that key, else a row with that key |
| InventoryModels.NextId | backend/src/inventory/models.py:11 | a new row's key differs from every key in use |
| InventoryModels.AddStock | backend/src/inventory/rest_views.py:152-160 | `get_or_create` then `quantity += q` fails only when several rows share the key, and otherwise raises that part's total by exactly `q` and leaves every other part's total alone |
| InventoryModels.PyText | backend/src/inventory/rest_views.py:345 | a null text prints as "None" inside an f-string, any other text as itself |
| InventorySerializers.ValidateOrderNumber | backend/src/inventory/serializers.py:102-118 | refused exactly when the value is non-empty and another order (the updated one excluded) carries it |
| InventorySerializers.OrderNumberErrors | backend/src/inventory/serializers.py:78-118 | the field has an error exactly when a non-empty number is carried by another order, and the error is the model's unique message |
| InventorySerializers.CustomMessageUnreachable | backend/src/inventory/serializers.py:116-117 | the hand-written "already in use" message can never be returned: the model's unique validator refuses the same values first |
| InventorySerializers.DuplicateCreateRefused | backend/src/inventory/serializers.py:102-118 | creating an order with a number already in use yields an `order_number` error |
| InventorySerializers.OwnNumberKeptOnUpdate | backend/src/inventory/serializers.py:110-113 | updating an order with its own number passes when no other order carries it |
| InventorySerializers.AcceptedCreateKeepsNumbersUnique | backend/src/inventory/serializers.py:102-118 | an order created after the check keeps non-empty order numbers unique |
| InventorySerializers.Writable | backend/src/inventory/serializers.py:95-100 | the kept keys are exactly the submitted ones minus the read-only ones, with their values |
| InventorySerializers.PurchaseOrderWritableKeys | backend/src/inventory/serializers.py:52-100 | received and remaining quantity are dropped from a submitted order; `status` and `quantity` are kept |
| InventorySerializers.SalesOrderWritableKeys | backend/src/inventory/serializers.py:205-223 | shipped quantity, remaining quantity and status are dropped from a submitted sales order; `quantity` is kept |
| InventorySerializers.InventoryWritableKeys | backend/src/inventory/serializers.py:127-143 | the available quantity is dropped from a submitted stock row; `reserved` is kept |
| InventoryViews.InventoryQueryOf | backend/src/inventory/rest_views.py:80-83 | the three text filters are read as given; `hide_zero_stock_query` is off when absent and on for "true" |
| InventoryViews.InventoryList | backend/src/inventory/rest_views.py:79-98 | the list holds exactly the rows passing every given filter (which rows; the `order_by` order is not stated) |
| InventoryViews.HideZeroIsAvailable | backend/src/inventory/rest_views.py:95-98 | with only the zero-stock switch, a row is listed exactly when it has stock available to allocate |
| InventoryViews.ByLocation | backend/src/inventory/rest_views.py:101-116 | 400 exactly when the warehouse is missing or blank or the location is missing; otherwise exactly the rows at that location holding stock (the `order_by` order is not stated) |
| InventoryViews.BlankLocationAccepted | backend/src/inventory/rest_views.py:103-111 | an empty location is answered with a list, not 400 |
| InventoryViews.PurchaseOrderList | backend/src/inventory/rest_views.py:215-266 | a date bound the date parser refuses is a server error; otherwise the list holds exactly the orders passing every given filter, the four date bounds compared on the day of the order date and of the expected arrival (an order without an expected arrival fails either arrival bound); `search_status=received` lists only partially or fully received orders, and any other status value only orders with exactly that status |
| InventoryViews.SalesOrderList | backend/src/inventory/rest_views.py:413-431 | the list holds exactly the orders passing every given filter (which orders; the `order_by` order is not stated) |
| InventoryViews.SalesOrderIssue | backend/src/inventory/rest_views.py:440-445 | `issue` answers 501 whatever the request, never success |
| InventoryViews.SalesOrderAllocate | backend/src/inventory/rest_views.py:433-438 | `allocate` answers 501 whatever the request, never success |
| InventoryViews.MovementList | backend/src/inventory/rest_views.py:457-489 | a date bound the date parser refuses is a server error; otherwise the list holds exactly the movements passing every given filter, the two date bounds compared on the day of the movement |
| InventoryViews.LaterMovementNotListed | backend/src/inventory/rest_views.py:482-487 | a movement on a day after the `search_movement_date_to` day is never listed |
| InventoryViews.NoTypeMeansEveryType | backend/src/inventory/rest_views.py:471-473 | with no movement type selected, the type of a movement never decides whether it is listed |
| InventoryViews.IndexOfId | backend/src/inventory/rest_views.py:120 | `get_object` finds no row exactly when no row has the key, else a row with that key |
| InventoryViews.IndexOfOrder | backend/src/inventory/rest_views.py:294 | no order is found exactly when no order has the id, else an order with that id |
| InventoryViews.Debited | backend/src/inventory/rest_views.py:147-148 | the source row loses `q`, and so does its part's total; other parts' totals stay |
| InventoryViews.PlanMove | backend/src/inventory/rest_views.py:122-143 | the checks in order: a non-integer quantity, then a missing target warehouse, then a quantity below 1, then more than the source holds; an accepted move has a quantity in 1..source quantity and a target warehouse |
| InventoryViews.MoveAcceptedIff | backend/src/inventory/rest_views.py:122-143 | a move is accepted exactly when the quantity is an integer in 1..source quantity and a target warehouse is given |
| InventoryViews.MoveIgnoresReservation | backend/src/inventory/rest_views.py:139-143 | reserved stock may be moved: only the whole quantity bounds the move |
| InventoryViews.MoveMovements | backend/src/inventory/rest_views.py:165-185 | exactly two history rows of the moved quantity, both dated at the time of the move: outgoing at the source, incoming at the target |
| InventoryViews.Defaulted | backend/src/inventory/rest_views.py:310-313 | a given non-blank text wins; a blank one falls back to the order's value |
| InventoryViews.PlanReceipt | backend/src/inventory/rest_views.py:276-315 | an accepted receipt names an existing order that has a part number, with a positive quantity within the order's remaining one and a non-blank warehouse; every rejection is a failure |
| InventoryViews.ReceiptOrder | backend/src/inventory/rest_views.py:294 | the order looked up by id, when there is one, is an index into the orders |
| InventoryViews.ReceiptAcceptance | backend/src/inventory/rest_views.py:276-315 | a receipt is accepted exactly when every check passes; it then receives the parsed quantity into the order the id names, at the given warehouse and location or, when blank, the order's |
| InventoryViews.ReceiptChecks | backend/src/inventory/rest_views.py:276-315 | each check's answer, for requests that pass the earlier ones: a non-text location or warehouse 500, a missing member 400, a non-positive quantity 400, an unknown order 500, an order without part 400, a null order quantity 500, too much 400 naming the remaining quantity, no warehouse 400 |
| InventoryViews.UnknownOrderIsServerError | backend/src/inventory/rest_views.py:294-296 | an unknown order id is answered with 500, never 404: the 404 raised inside the block is caught by the generic handler |
| InventoryViews.ReceivedStatus | backend/src/inventory/rest_views.py:355-358 | fully received exactly when the received total reaches the quantity, partially received otherwise |
| InventoryViews.Received | backend/src/inventory/rest_views.py:351-359 | the order after a receipt has its received total raised by `q`, never above the quantity, and is fully received exactly when nothing remains |
| InventoryViews.ReceiptMovement | backend/src/inventory/rest_views.py:339-348 | one incoming movement of the received quantity at the receiving location, dated at the time of the receipt, referring to the order number |
| InventoryViews.InventoryStore.constructor | backend/src/inventory/rest_views.py:70-76 | the store starts from the given tables |
| InventoryViews.InventoryStore.Move | backend/src/inventory/rest_views.py:119-193 | an unknown row is 404; a rejected move answers its error; a failure changes nothing; a success debits the source, credits the target key, writes the two movements dated now, and keeps every part's total |
| InventoryViews.InventoryStore.ProcessReceipt | backend/src/inventory/rest_views.py:268-376 | a rejection answers its error and changes nothing; a success writes the receipt and one movement dated now, adds the quantity to the stock at the receiving key (that part's total rises by exactly it) and advances the order |
| InventoryViews.MoveInPlaceIsNoChange | backend/src/inventory/rest_views.py:145-160 | a move to the key the source already has leaves every row as it was |
| MasterSerializers.UniqueCheck | backend/src/master/serializers.py:82-89 | a value is refused, with the field's own message, exactly when a row other than the instance being updated holds it |
| MasterSerializers.EmailCheck | backend/src/master/serializers.py:91-100 | an empty or null e-mail always passes; any other is refused exactly when another supplier holds it |
| MasterSerializers.ErrorOf | backend/src/master/serializers.py:82-100 | a failed check gives exactly one error under its field; a passed one gives none |
| MasterSerializers.ItemErrors | backend/src/master/serializers.py:30-56 | an item is accepted exactly when neither its code nor its name is another item's, and each clash carries its own message |
| MasterSerializers.SupplierErrors | backend/src/master/serializers.py:65-100 | the supplier number, name and e-mail errors each appear exactly when that value is another supplier's (an empty e-mail never clashes) |
| MasterSerializers.WarehouseErrors | backend/src/master/serializers.py:109-119 | a warehouse is accepted exactly when its number is not another warehouse's, else the one number error |
| MasterSerializers.CreatePassKeepsUnique | backend/src/master/serializers.py:45-56 | saving a new row whose value passed the check keeps the column free of duplicates |
| MasterSerializers.UpdateKeepingOwnValuePasses | backend/src/master/serializers.py:82-89 | an update that keeps the instance's own value is not refused as a clash with itself |
| MasterSerializers.BlankEmailsNeverClash | backend/src/master/serializers.py:91-94 | any number of suppliers may leave the e-mail empty or null |
| MasterSerializers.ItemListDisplay | backend/src/master/serializers.py:7-10 | the list shows each choice field's display label, and null for a null provision type |
| MasterSerializers.ItemDisplayLabels | backend/src/master/serializers.py:9-10 | every stored choice key shows its label; a value outside the choices shows as stored |
| MobileGoodsIssue.SalesOrderQuery | frontend/src/pages/mobile/MobileGoodsIssuePage.tsx:48-53 | the order query is page, page size 25, then `search_q` and `search_status` each exactly when non-empty |
| MobileGoodsIssue.OtherActionsFallBack | frontend/src/pages/mobile/MobileGoodsIssuePage.tsx:150-184 | when neither the issue nor the navigate action applies, a scan with a search term searches for it and any other falls back to the default setter |
| MobileGoodsIssue.FieldActionsNotRecognised | frontend/src/pages/mobile/MobileGoodsIssuePage.tsx:151-173 | the `update_fields` and `location_transfer` actions are not handled here: such a scan searches exactly when it carries a search term and otherwise falls back to the default setter |
| MobileGoodsIssue.DefaultOnlyWhenUnhandled | frontend/src/pages/mobile/MobileGoodsIssuePage.tsx:150-184 | the default setter is used exactly when no issue payload, no navigation target and no search term applies |
| MobileGoodsIssue.IssueEffects | frontend/src/pages/mobile/MobileGoodsIssuePage.tsx:153-184 | a scan has at most one outside effect: a navigation with its state, the default setter, or none when it opens the modal or searches |
| MobileGoodsIssue.ShipOkBounds | frontend/src/pages/mobile/MobileGoodsIssuePage.tsx:214-223 | a quantity is accepted exactly when it parses to an integer of at least 1 that is not above the remaining quantity, and the accepted value is the parsed one |
| MobileGoodsIssue.DefaultQuantityAccepted | frontend/src/pages/mobile/MobileGoodsIssuePage.tsx:121 | with something left to ship, the modal opens on the whole remaining quantity and that is accepted as it is |
| MobileGoodsIssue.DefaultQuantityRefusedWhenNothingLeft | frontend/src/pages/mobile/MobileGoodsIssuePage.tsx:121 | with nothing left to ship, the default "1" is refused as above the remaining quantity |
| MobileGoodsIssue.IssueOutcomeOf | frontend/src/pages/mobile/MobileGoodsIssuePage.tsx:236-247 | the page reads an answer as ok and successful exactly when the endpoint succeeded, and reads its `error` exactly on a 400 |
| MobileGoodsIssue.IssueSubmissionAlwaysFails | backend/src/inventory/rest_views.py:441-445 | the issue endpoint answers 501 with only a message, so every accepted submission ends with the page's generic failure text |
| MobileGoodsIssue.PaginationInfoBounds | frontend/src/pages/mobile/MobileGoodsIssuePage.tsx:256-263 | on a page that holds rows, the counter shows 1 ≤ first ≤ last ≤ total with at most 25 rows, the first being (page − 1) × 25 + 1 |
| MobileGoodsIssue.PaginationItems | frontend/src/pages/mobile/MobileGoodsIssuePage.tsx:265-278 | the page buttons are shown exactly when there is more than one page, and then cover the window of two pages either side of the current one, clipped to the real pages |
| MobileGoodsIssue.PageWindowBounds | frontend/src/pages/mobile/MobileGoodsIssuePage.tsx:269-278 | the window holds at most five pages, all real, and the current page when it is real |
| MobileGoodsIssue.ArrowsStayInRange | frontend/src/pages/mobile/MobileGoodsIssuePage.tsx:282-284 | the previous and next arrows stay within the pages and stand still exactly on the first and last page |
| MobileGoodsIssue.GoodsIssuePage.constructor | frontend/src/pages/mobile/MobileGoodsIssuePage.tsx:10-32 | the page opens with a blank query, status "pending" committed, page 1, no orders and zero counts, the modal closed and loading |
| MobileGoodsIssue.GoodsIssuePage.FetchSalesOrders | frontend/src/pages/mobile/MobileGoodsIssuePage.tsx:44-72 | an ok answer fills the orders and both counts, absent members reading as empty or 0; a non-ok status shows the loading-failed text and a thrown error its message, each with no orders and zero counts; the counter then shows the error (not for an empty message) or the empty list; loading ends and nothing else changes |
| MobileGoodsIssue.GoodsIssuePage.HandleOpenModal | frontend/src/pages/mobile/MobileGoodsIssuePage.tsx:119-125 | the modal opens on the order with its default quantity, no message and not submitting; the search state stays |
| MobileGoodsIssue.GoodsIssuePage.ApplySearch | frontend/src/pages/mobile/MobileGoodsIssuePage.tsx:165-171 | a scanned term fills the search input and is committed with the current status, on page 1 |
| MobileGoodsIssue.GoodsIssuePage.HandleQrCodeResult | frontend/src/pages/mobile/MobileGoodsIssuePage.tsx:127-190 | a 404 calls the default setter; another failure only shows the error; a resolved scan opens the modal, searches, navigates or calls the default setter as the scan decides, and changes nothing else; loading ends |
| MobileGoodsIssue.GoodsIssuePage.HandleSearch | frontend/src/pages/mobile/MobileGoodsIssuePage.tsx:192-196 | the inputs are committed and the page goes back to 1 |
| MobileGoodsIssue.GoodsIssuePage.HandleReset | frontend/src/pages/mobile/MobileGoodsIssuePage.tsx:198-203 | the query is blanked, the status set to "pending", both committed, on page 1 |
| MobileGoodsIssue.GoodsIssuePage.HandleCloseModal | frontend/src/pages/mobile/MobileGoodsIssuePage.tsx:205-208 | the modal closes and no order is selected |
| MobileGoodsIssue.GoodsIssuePage.HandleIssueSubmit | frontend/src/pages/mobile/MobileGoodsIssuePage.tsx:210-234 | without an order nothing happens; a quantity below 1 or not a number and one above the remaining quantity each set their own danger message and send nothing; otherwise the order id and parsed quantity are sent |
| MobileGoodsIssue.GoodsIssuePage.FinishIssue | frontend/src/pages/mobile/MobileGoodsIssuePage.tsx:236-253 | a successful answer shows its message in green; another answer its error or the generic text in red; a network failure the communication-error text; submitting ends |
| MobileGoodsReceipt.PurchaseOrderQuery | frontend/src/pages/mobile/MobileGoodsReceiptPage.tsx:38-44 | the order query holds `search_q` exactly when the term is non-empty and always ends with `search_status=pending` |
| MobileGoodsReceipt.ReceiptForm | frontend/src/pages/mobile/MobileGoodsReceiptPage.tsx:104-111 | the opened form has exactly quantity, location and warehouse: the remaining quantity when positive, else blank, and the order's location and warehouse or blank |
| MobileGoodsReceipt.NoLegacyFallback | frontend/src/pages/mobile/MobileGoodsReceiptPage.tsx:139-169 | a result without one of the four recognised actions calls the default setter, even when it carries a search term or fields |
| MobileGoodsReceipt.DefaultOnlyWhenUnhandled | frontend/src/pages/mobile/MobileGoodsReceiptPage.tsx:139-169 | the default setter runs exactly when no case of the action switch handled the result |
| MobileGoodsReceipt.MergeInto | frontend/src/pages/mobile/MobileGoodsReceiptPage.tsx:162 | merging fields keeps every key of both, takes the scanned value for every scanned key and keeps the others |
| MobileGoodsReceipt.MergeAddsUnknownKeys | frontend/src/pages/mobile/MobileGoodsReceiptPage.tsx:162 | a scanned key the form did not have is added, so the form grows |
| MobileGoodsReceipt.MergeIdempotent | frontend/src/pages/mobile/MobileGoodsReceiptPage.tsx:162 | merging the same fields twice is merging them once |
| MobileGoodsReceipt.ReceiptEffects | frontend/src/pages/mobile/MobileGoodsReceiptPage.tsx:148-169 | a scan has at most one outside effect: a navigation with its state, the default setter, or none when it edits the page |
| MobileGoodsReceipt.ParseFormValue | frontend/src/pages/mobile/MobileGoodsReceiptPage.tsx:191 | a form member is parsed when present; a missing one is NaN |
| MobileGoodsReceipt.ReceiptOkBounds | frontend/src/pages/mobile/MobileGoodsReceiptPage.tsx:191-199 | a quantity is accepted exactly when it parses to an integer from 1 to what the order still expects |
| MobileGoodsReceipt.OpenedFormAccepted | frontend/src/pages/mobile/MobileGoodsReceiptPage.tsx:104-111 | when something remains to receive, the opened form is accepted as it is, for the whole remaining quantity |
| MobileGoodsReceipt.OpenedFormRefusedWhenNothingLeft | frontend/src/pages/mobile/MobileGoodsReceiptPage.tsx:104-111 | when nothing remains to receive, the opened form is refused as not positive |
| MobileGoodsReceipt.GoodsReceiptPage.constructor | frontend/src/pages/mobile/MobileGoodsReceiptPage.tsx:10-21 | the page opens with no search term, no order, an empty form, no messages and loading |
| MobileGoodsReceipt.GoodsReceiptPage.OpenReceiptForm | frontend/src/pages/mobile/MobileGoodsReceiptPage.tsx:104-114 | the order is selected, the form is its receipt form and both form messages are cleared; the search stays |
| MobileGoodsReceipt.GoodsReceiptPage.HandleQrCodeResult | frontend/src/pages/mobile/MobileGoodsReceiptPage.tsx:116-175 | a 404 calls the default setter; another failure sets the scan error; a resolved scan sets the search term, opens the form or merges fields as the scan decides and has the effects the decision gives; loading ends |
| MobileGoodsReceipt.GoodsReceiptPage.CloseReceiptForm | frontend/src/pages/mobile/MobileGoodsReceiptPage.tsx:177-179 | no order is selected and the form stays |
| MobileGoodsReceipt.GoodsReceiptPage.HandleReceiptFormChange | frontend/src/pages/mobile/MobileGoodsReceiptPage.tsx:181-184 | the input's value is written under its name; nothing else changes |
| MobileGoodsReceipt.GoodsReceiptPage.HandleReceiptSubmit | frontend/src/pages/mobile/MobileGoodsReceiptPage.tsx:186-210 | a quantity that is not a positive integer or is above the remaining quantity sets its own message and sends nothing; an accepted one sends the order id, the quantity and the trimmed location and warehouse, unless building the body throws, which shows the communication error |
| MobileGoodsReceipt.GoodsReceiptPage.FinishReceipt | frontend/src/pages/mobile/MobileGoodsReceiptPage.tsx:211-224 | a success shows the completion text with the order number; a failure its error or a fixed text; a network failure the communication error |
| MobileLocationTransfer.FieldActionsAlike | frontend/src/pages/mobile/MobileLocationTransferPage.tsx:217-228 | `location_transfer` and `update_fields` decide the same for the same scan |
| MobileLocationTransfer.PayloadFirst | frontend/src/pages/mobile/MobileLocationTransferPage.tsx:219 | a payload wins over `updateFields` when both are present |
| MobileLocationTransfer.TransferEffects | frontend/src/pages/mobile/MobileLocationTransferPage.tsx:214-250 | as written, a navigation has its effect, applied fields have none, and the legacy path and an unhandled scan both call the default setter |
| MobileLocationTransfer.LegacyPathAlsoCallsSetter | frontend/src/pages/mobile/MobileLocationTransferPage.tsx:238-250 | as written, a legacy result with fields writes them and then also calls the default setter with the raw scanned text |
| MobileLocationTransfer.IntendedTransferEffects | frontend/src/pages/mobile/MobileLocationTransferPage.tsx:238-250 | applied fields, from an action or from the legacy path, have no further effect; only an unhandled scan calls the default setter |
| MobileLocationTransfer.IntendedIsOneOutcome | frontend/src/pages/mobile/MobileLocationTransferPage.tsx:238-250 | with the intended flag a scan writes fields or calls the setter, never both, and the two versions agree on every result that does not take the legacy path |
| MobileLocationTransfer.ModalForItems | frontend/src/pages/mobile/MobileLocationTransferPage.tsx:70-74 | one item opens the modal on the transfer step with that item selected; several open it on the selection step with none selected; the inputs and the message stay |
| MobileLocationTransfer.NonNumericQuantityPasses | frontend/src/pages/mobile/MobileLocationTransferPage.tsx:98-111 | a quantity that is not a number passes the client checks and is sent as NaN |
| MobileLocationTransfer.TransferOkWithinStock | frontend/src/pages/mobile/MobileLocationTransferPage.tsx:98-105 | an accepted numeric quantity is not above the quantity on hand, and both inputs were filled in |
| MobileLocationTransfer.LocationTransferPage.constructor | frontend/src/pages/mobile/MobileLocationTransferPage.tsx:9-25 | the page opens on warehouse "MAIN-WH", a blank source location, no message and the modal closed |
| MobileLocationTransfer.LocationTransferPage.ApplyFieldRecord | frontend/src/pages/mobile/MobileLocationTransferPage.tsx:219-227 | only the source location, warehouse and target location present in the fields are written; other keys are ignored |
| MobileLocationTransfer.LocationTransferPage.HandleQrCodeResult | frontend/src/pages/mobile/MobileLocationTransferPage.tsx:191-256 | a 404 calls the default setter; another failure shows the scan error; a resolved scan writes the fields or navigates as decided, with the intended effects; loading ends |
| MobileLocationTransfer.LocationTransferPage.HandleFindItems | frontend/src/pages/mobile/MobileLocationTransferPage.tsx:48-59 | a blank warehouse or source location is refused with its message and no request; otherwise the by-location query of the two is sent and the message cleared |
| MobileLocationTransfer.LocationTransferPage.FinishFindItems | frontend/src/pages/mobile/MobileLocationTransferPage.tsx:61-79 | a failure or an empty answer shows its message and leaves the modal; items open the modal as `ModalForItems` says; loading ends |
| MobileLocationTransfer.LocationTransferPage.HandlePartSelect | frontend/src/pages/mobile/MobileLocationTransferPage.tsx:83-85 | choosing an item moves to the transfer step with that item and clears the modal message |
| MobileLocationTransfer.LocationTransferPage.HandleModalFormChange | frontend/src/pages/mobile/MobileLocationTransferPage.tsx:88-91 | the quantity and target inputs write their own field of the modal; other names change nothing the model keeps |
| MobileLocationTransfer.LocationTransferPage.CloseModal | frontend/src/pages/mobile/MobileLocationTransferPage.tsx:139-141 | the modal returns to its initial state |
| MobileLocationTransfer.LocationTransferPage.HandleExecuteTransfer | frontend/src/pages/mobile/MobileLocationTransferPage.tsx:94-121 | a missing quantity or target and a quantity above the stock each set their modal message and send nothing; with no item the handler stops; otherwise the item is moved by the parsed quantity to the target within the current warehouse |
| MobileLocationTransfer.LocationTransferPage.FinishTransfer | frontend/src/pages/mobile/MobileLocationTransferPage.tsx:121-136 | a success shows the server's message in the modal, a failure its error or a fixed text, a network failure the communication text; loading ends |
| MobileScan.ResultFields | frontend/src/pages/mobile/MobileGoodsIssuePage.tsx:148 | a missing `result` reads as an object with no members; a present one is read as it is |
| MobileScan.ReplyOf | backend/src/base/api.py:293-339 | the client tells a 404 apart exactly when the endpoint found no rule and sees a result exactly when a rule matched, that rule's result |
| MobileScan.ScanErrorText | frontend/src/pages/mobile/MobileGoodsIssuePage.tsx:142-186 | a failed scan's message carries the scan-error prefix, then the body's `error` or the server-error text with the status |
| MobileScan.DefaultEffect | frontend/src/pages/mobile/MobileGoodsIssuePage.tsx:138 | the default setter is called once with the scanned text when there is one, and nothing happens otherwise |
| MobileScan.EmptyScanIsAnError | backend/src/base/api.py:293-295 | an empty scan never reaches a rule: the reply is a 400 error |
| MobileScan.UnresolvedScanIsNotFound | backend/src/base/api.py:297-331 | a non-empty text that no active rule resolves comes back as 404, which every page answers with the default setter |
| ModelDisplaySettingsPage.SettingFor | frontend/src/pages/ModelDisplaySettings.tsx:43 | no setting is found exactly when none names the field; otherwise the first setting naming it is found |
| ModelDisplaySettingsPage.RowFor | frontend/src/pages/ModelDisplaySettings.tsx:42-55 | a row takes its custom name, order and flags from the field's saved setting, a saved order 0 included; without one its order is (index + 1) × 10, it is listed and neither searched nor filtered |
| ModelDisplaySettingsPage.FieldRows | frontend/src/pages/ModelDisplaySettings.tsx:40-56 | one row per field other than `id`, in field order |
| ModelDisplaySettingsPage.BuildRowsMeaning | frontend/src/pages/ModelDisplaySettings.tsx:40-59 | the table holds exactly the rows of the fields other than `id`, each field present, sorted by display order |
| ModelDisplaySettingsPage.BuildRowsDistinct | frontend/src/pages/ModelDisplaySettings.tsx:40-59 | with distinct field names the rows have distinct names |
| ModelDisplaySettingsPage.ApplyEdit | frontend/src/pages/ModelDisplaySettings.tsx:74-82 | the edited input sets only its own member; name, verbose name, help text and order stay |
| ModelDisplaySettingsPage.DraggedMeaning | frontend/src/pages/ModelDisplaySettings.tsx:116-131 | the dragged row lands at the destination, the orders become 10, 20, 30, … so the list is in display order, the rows are a permutation, and the others keep their relative order |
| ModelDisplaySettingsPage.DraggedDistinct | frontend/src/pages/ModelDisplaySettings.tsx:116-131 | a drag keeps the row names distinct |
| ModelDisplaySettingsPage.SaveInput | frontend/src/pages/ModelDisplaySettings.tsx:88-95 | the saved object carries the name, custom name, order and three flags of the row, and no search order |
| ModelDisplaySettingsPage.SaveResetsSearchOrder | backend/src/base/api.py:373-412 | when the body validates, the bulk save recreates one record per row, each with search order 10 |
| ModelDisplaySettingsPage.SavedRow | backend/src/base/api.py:390-394 | the stored record has search order 10, the trimmed name, the data type, the row's flags and, when not negative, the row's order |
| ModelDisplaySettingsPage.Screen.constructor | frontend/src/pages/ModelDisplaySettings.tsx:17-22 | the first render: no rows, the first data type selected, not loading, no error, not saving and no status shown |
| ModelDisplaySettingsPage.Screen.FetchAllData | frontend/src/pages/ModelDisplaySettings.tsx:24-66 | the rows are rebuilt on success; a failure keeps them and shows its text; the status is hidden and loading ends |
| ModelDisplaySettingsPage.Screen.HandleInputChange | frontend/src/pages/ModelDisplaySettings.tsx:74-82 | only the row at the index changes, by `ApplyEdit` |
| ModelDisplaySettingsPage.Screen.HandleDragEnd | frontend/src/pages/ModelDisplaySettings.tsx:116-131 | a drop outside the list changes nothing; a drop gives the rows `Dragged` of the old ones |
| ModelDisplaySettingsPage.Screen.HandleSave | frontend/src/pages/ModelDisplaySettings.tsx:84-101 | the body for the selected type holds one object per row, in table order; saving starts and the status hides |
| ModelDisplaySettingsPage.Screen.FinishSave | frontend/src/pages/ModelDisplaySettings.tsx:102-113 | success shows the server's message in green, a failure its message or the fixed text in red; saving ends |
| PageDisplaySettingsPage.ConfigOf | frontend/src/pages/PageDisplaySettings.tsx:14-35 | exactly the four screens are configured; the goods-receipt screen reads purchase orders and receipts with their labels, every other screen reads its own data type only |
| PageDisplaySettingsPage.LabelFor | frontend/src/pages/PageDisplaySettings.tsx:84 | a field gets a source label only when the screen reads more than one data type, and then its type's label |
| PageDisplaySettingsPage.TypeCandidates | frontend/src/pages/PageDisplaySettings.tsx:82-87 | every field of a type except `id` is offered, carrying its type and label, and nothing else is |
| PageDisplaySettingsPage.ModelCandidates | frontend/src/pages/PageDisplaySettings.tsx:76-88 | the fields offered are those of the fetched types except `id`, and every such field is offered |
| PageDisplaySettingsPage.AllSettings | frontend/src/pages/PageDisplaySettings.tsx:80 | every collected setting is tagged with one of the fetched types |
| PageDisplaySettingsPage.TagAll | frontend/src/pages/PageDisplaySettings.tsx:80 | each setting of a type is tagged with that type, one for one |
| PageDisplaySettingsPage.SettingCandidate | frontend/src/pages/PageDisplaySettings.tsx:91-102 | a field restored from a setting has the setting's field name, its verbose name or else the field name, no help text, its type and the custom label |
| PageDisplaySettingsPage.CombinedDistinct | frontend/src/pages/PageDisplaySettings.tsx:74-115 | the merged fields never repeat a name, every candidate's name is among them, and each comes from a candidate |
| PageDisplaySettingsPage.CombinedHasModelFields | frontend/src/pages/PageDisplaySettings.tsx:82-87 | every field except `id` of every fetched type has a merged entry |
| PageDisplaySettingsPage.CombinedHasSettings | frontend/src/pages/PageDisplaySettings.tsx:91-102 | every saved setting's field has a merged entry |
| PageDisplaySettingsPage.InventoryHasPartName | frontend/src/pages/PageDisplaySettings.tsx:105-113 | the inventory screen always has a `part_name` entry |
| PageDisplaySettingsPage.CombinedShape | frontend/src/pages/PageDisplaySettings.tsx:74-115 | a merged field is a model field other than `id` of a fetched type with that type's label, or one restored from a setting, or the inventory screen's `part_name` |
| PageDisplaySettingsPage.FirstTypeWins | frontend/src/pages/PageDisplaySettings.tsx:83-85 | the entry kept for a name is the first candidate of that name |
| PageDisplaySettingsPage.SettingFor | frontend/src/pages/PageDisplaySettings.tsx:119 | no setting is found exactly when none has the name; otherwise the one found is a setting of that name |
| PageDisplaySettingsPage.Labelled | frontend/src/pages/PageDisplaySettings.tsx:123 | the shown name is the verbose name, followed by ` (label)` exactly when the field has a label |
| PageDisplaySettingsPage.RowFor | frontend/src/pages/PageDisplaySettings.tsx:117-133 | a row takes its custom name, orders and flags from the first saved setting of its field; without one both orders are (index + 1) × 10, it is listed and neither searched nor filtered |
| PageDisplaySettingsPage.RowsOf | frontend/src/pages/PageDisplaySettings.tsx:117-133 | one row per merged field, in map order |
| PageDisplaySettingsPage.BuildRowsDistinct | frontend/src/pages/PageDisplaySettings.tsx:115-135 | the rows never repeat a field name |
| PageDisplaySettingsPage.PurchaseOrderSettingWins | frontend/src/pages/PageDisplaySettings.tsx:76-80 | a field with a setting of the first type read takes that setting over any later type's setting |
| PageDisplaySettingsPage.ApplyEdit | frontend/src/pages/PageDisplaySettings.tsx:150-158 | a switch sets only its own flag; the name, orders and other flags stay |
| PageDisplaySettingsPage.SetKey | frontend/src/pages/PageDisplaySettings.tsx:242-245 | only the dragged table's order of a row changes, to the given value |
| PageDisplaySettingsPage.OrderMap | frontend/src/pages/PageDisplaySettings.tsx:235-238 | every name of the moved view has an order |
| PageDisplaySettingsPage.OrderMapLastWins | frontend/src/pages/PageDisplaySettings.tsx:235-238 | an element that no later element renames gets 10 times its position plus one |
| PageDisplaySettingsPage.Reorder | frontend/src/pages/PageDisplaySettings.tsx:242-245 | every row, in the array's own order, gets the order the map gives its name |
| PageDisplaySettingsPage.MovedView | frontend/src/pages/PageDisplaySettings.tsx:227-232 | the moved view is a permutation of the rows |
| PageDisplaySettingsPage.MovedViewHoldsAll | frontend/src/pages/PageDisplaySettings.tsx:227-238 | every row's name is in the order map of the moved view |
| PageDisplaySettingsPage.DraggedMeaning | frontend/src/pages/PageDisplaySettings.tsx:219-248 | with distinct names, every row keeps its place in the array and gets 10 × (its position in the moved view + 1) as the dragged table's order; nothing else changes |
| PageDisplaySettingsPage.DraggedRowLands | frontend/src/pages/PageDisplaySettings.tsx:227-232 | the row at the destination of the moved view is the one rendered at the source |
| PageDisplaySettingsPage.DraggedOrdersDistinct | frontend/src/pages/PageDisplaySettings.tsx:219-248 | with distinct names the dragged table's orders are pairwise different |
| PageDisplaySettingsPage.FirstLabelMatch | frontend/src/pages/PageDisplaySettings.tsx:176 | the leftmost place at or after `i` where ` (…)` runs to the end of the text, or none |
| PageDisplaySettingsPage.BaseName | frontend/src/pages/PageDisplaySettings.tsx:176 | the base name is a prefix of the name; it is the whole name exactly when ` (…)$` does not match, and otherwise ends where the leftmost match begins |
| PageDisplaySettingsPage.BaseNameOfLabelled | frontend/src/pages/PageDisplaySettings.tsx:123-176 | removing the label from a labelled name gives back the verbose name when that holds no ` (` of its own |
| PageDisplaySettingsPage.BaseNameCutsAtFirstParenthesis | frontend/src/pages/PageDisplaySettings.tsx:176 | a name that holds ` (` itself loses everything from there: "a (b) (c)" is saved as "a" |
| PageDisplaySettingsPage.SaveDisplayName | frontend/src/pages/PageDisplaySettings.tsx:176-177 | the saved custom name is the row's own when given, else the base name when not blank; it is never blank for a non-blank verbose name |
| PageDisplaySettingsPage.SavedNameDropsLabel | frontend/src/pages/PageDisplaySettings.tsx:117-177 | a labelled row without a custom name is saved under the field's verbose name without the label |
| PageDisplaySettingsPage.SaveInput | frontend/src/pages/PageDisplaySettings.tsx:178-186 | a saved object carries all seven keys with the row's name, saved custom name, orders and flags |
| PageDisplaySettingsPage.SourceRows | frontend/src/pages/PageDisplaySettings.tsx:173-174 | the rows sent for a type are exactly the rows of that type |
| PageDisplaySettingsPage.SavePlan | frontend/src/pages/PageDisplaySettings.tsx:170-198 | at most one request per fetched type, each to a fetched type, never empty, carrying exactly that type's rows |
| PageDisplaySettingsPage.SavePlanCovers | frontend/src/pages/PageDisplaySettings.tsx:189-192 | no fetched type that has rows is skipped |
| PageDisplaySettingsPage.EveryRowSavedWithItsType | frontend/src/pages/PageDisplaySettings.tsx:170-198 | every row of a fetched type is sent in the request of its own type |
| PageDisplaySettingsPage.SaveOutcome | frontend/src/pages/PageDisplaySettings.tsx:200-213 | the status shows a non-blank text; it is red exactly when some request failed and green exactly when all succeeded, with the fixed text when no reply has a message |
| PageDisplaySettingsPage.Screen.constructor | frontend/src/pages/PageDisplaySettings.tsx:38-43 | the first render: no rows, the first screen selected, not loading, no error, not saving and no status shown |
| PageDisplaySettingsPage.Screen.FetchAllData | frontend/src/pages/PageDisplaySettings.tsx:45-142 | an unconfigured screen or a failed request shows its text and keeps the rows; otherwise the rows are rebuilt from the merged fields; the status is hidden and loading ends |
| PageDisplaySettingsPage.Screen.HandleInputChange | frontend/src/pages/PageDisplaySettings.tsx:150-158 | only the row at the index changes, by `ApplyEdit` |
| PageDisplaySettingsPage.Screen.HandleDragEnd | frontend/src/pages/PageDisplaySettings.tsx:219-257 | a drop outside the table changes nothing; a drop gives the rows `Dragged` of the old ones |
| PageDisplaySettingsPage.Screen.HandleSave | frontend/src/pages/PageDisplaySettings.tsx:160-198 | an unconfigured screen shows its text in red and sends nothing; otherwise the requests of the save plan are sent |
| PageDisplaySettingsPage.Screen.FinishSave | frontend/src/pages/PageDisplaySettings.tsx:200-216 | saving ends, the outcome shows, and the rows are fetched again exactly when every request succeeded |
| PageDisplaySettingsPage.MergeFields | frontend/src/pages/PageDisplaySettings.tsx:73-115 | the loops build exactly the merged field map |
| PageDisplaySettingsPage.MergeModelFields | frontend/src/pages/PageDisplaySettings.tsx:76-88 | the type loop collects exactly the tagged settings and offers exactly the model fields |
| PageDisplaySettingsPage.AddTypeFields | frontend/src/pages/PageDisplaySettings.tsx:82-87 | the field loop of one type adds exactly its new fields other than `id` |
| PageDisplaySettingsPage.AddSettingFields | frontend/src/pages/PageDisplaySettings.tsx:91-102 | the settings loop adds exactly the restored fields of new names |
| PageLinks.ParseUrl | frontend/src/pages/GoodsReceipt.tsx:40 | a link parses only with an `http` or `https` scheme and a non-empty host; its path then starts with `/`, its search is empty or `?` followed by text, and neither holds a fragment |
| PageLinks.ReduceLink | frontend/src/pages/GoodsReceipt.tsx:37-44 | a link that parses is reduced to its path and search; one that does not is kept as it is |
| PageLinks.ReduceLinkIdempotent | frontend/src/pages/GoodsReceipt.tsx:37-44 | reducing a reduced link changes nothing |
| PageLinks.ReduceLinkOfLink | frontend/src/pages/GoodsReceipt.tsx:40-41 | a well-formed absolute link to a path and query parses into its host, path and query and reduces to exactly that path and query |
| PageLinks.SearchParams | frontend/src/pages/WorkProgress.tsx:106 | the entries of a query are its non-empty `&`-separated pieces after `?`, in order, and no key holds `=` |
| PageLinks.SearchParamsOfOne | frontend/src/pages/WorkProgress.tsx:106 | a query holding one `key=value` entry reads back as that entry |
| PageLinks.PageParam | frontend/src/pages/ProductionPlan.tsx:79-83 | the page number of a link is missing (NaN) when the link does not parse or has no `page` entry |
| PageLinks.PageParamOfPageLink | frontend/src/pages/ProductionPlan.tsx:79-83 | the server's link to page n reads back as page n |
| PageLinks.ListRequestFor | frontend/src/pages/GoodsReceipt.tsx:36-48 | a given non-empty pagination link is followed, reduced to its path and query; otherwise the query built from the criteria is sent |
| PageLinks.PaginationOf | frontend/src/pages/GoodsReceipt.tsx:133-139 | the pagination state takes the count, both links, the current page and the page total from the answer |
| ProductionPlanPage.SetFilter | frontend/src/pages/ProductionPlan.tsx:112-115 | each of the six filter inputs sets exactly its own filter; any other name leaves the filters as they were |
| ProductionPlanPage.SearchRequest | frontend/src/pages/ProductionPlan.tsx:38-58 | a non-empty page link is followed as its path and query; otherwise the filters are sent |
| ProductionPlanPage.PlanQueryValues | frontend/src/pages/ProductionPlan.tsx:48-57 | what the server reads under each key: the page size, and each filter that is not blank under its own parameter name |
| ProductionPlanPage.StatusOnlyUnderItsKey | frontend/src/pages/ProductionPlan.tsx:52 | the status filter changes the query only under `status` |
| ProductionPlanPage.StatusFilterIgnored | backend/src/production/rest_views.py:61-109 | the list endpoint reads `status__in` and never `status`, so the page's status filter never changes which plans are listed |
| ProductionPlanPage.ServerReadsPlanRef | frontend/src/pages/ProductionPlan.tsx:53 | the parent-plan filter reaches the server as `production_plan_ref`, the parameter backend/src/production/rest_views.py:69 reads |
| ProductionPlanPage.PageSizeServed | frontend/src/pages/ProductionPlan.tsx:35-49 | the page asks for 100 rows, which is within the endpoint's maximum of backend/src/production/rest_views.py:37-40 |
| ProductionPlanPage.TotalPages | frontend/src/pages/ProductionPlan.tsx:90 | for a positive count, the page count is the least number of 100-row pages that hold it |
| ProductionPlanPage.ClampPage | frontend/src/pages/ProductionPlan.tsx:87-89 | a page below 1 is raised to 1; NaN stays NaN |
| ProductionPlanPage.PageShownAsWritten | frontend/src/pages/ProductionPlan.tsx:76-91 | as written: a next link with a page gives that page minus one (at least 1); with no link the page is 1 |
| ProductionPlanPage.LinkedPage | frontend/src/pages/ProductionPlan.tsx:81-83 | a link's page is its `page` parameter, and a link without one is page 1 |
| ProductionPlanPage.PageShown | frontend/src/pages/ProductionPlan.tsx:76-91 | corrected counter: the next link's page minus one, else the previous link's page plus one with a missing `page` read as 1, else 1 |
| ProductionPlanPage.PageShownIsCurrent | frontend/src/pages/ProductionPlan.tsx:76-91 | with the links the server sends for page n, the corrected counter shows n |
| ProductionPlanPage.SecondLastPageShowsNaN | frontend/src/pages/ProductionPlan.tsx:81-83 | on page 2 of 2 the previous link has no `page`, so the counter as written is NaN while the corrected one shows 2 |
| ProductionPlanPage.FirstPageLinkHasNoPage | backend/src/production/rest_views.py:37-40 | the endpoint's link back to page 1 carries only the page size, and such a link reads as page 1 |
| ProductionPlanPage.InfoFor | frontend/src/pages/ProductionPlan.tsx:76-94 | corrected, see ## Findings: a positive count shows the page, the page count and the count; otherwise "no data" |
| ProductionPlanPage.DefaultAllocation | frontend/src/pages/ProductionPlan.tsx:138-145 | the proposal is what is still needed, capped by the stock and never negative; it is 0 when nothing is needed or there is no stock |
| ProductionPlanPage.ProposedRow | frontend/src/pages/ProductionPlan.tsx:167-170 | a row keeps its part and proposes `DefaultAllocation` of its quantities |
| ProductionPlanPage.ProposedRows | frontend/src/pages/ProductionPlan.tsx:167-170 | one proposed row per part, in order |
| ProductionPlanPage.EditQuantity | frontend/src/pages/ProductionPlan.tsx:180-187 | every row of the part takes the typed value; the other rows stay as they were |
| ProductionPlanPage.QuantityOrZero | frontend/src/pages/ProductionPlan.tsx:194 | a numeral gives its number; anything else gives 0 |
| ProductionPlanPage.ItemOf | frontend/src/pages/ProductionPlan.tsx:195-199 | an entry has exactly the members part number, warehouse and quantity |
| ProductionPlanPage.AllocationItems | frontend/src/pages/ProductionPlan.tsx:193-199 | an entry is sent exactly for each row with a positive quantity and a real warehouse |
| ProductionPlanPage.ClearedPartNotSent | frontend/src/pages/ProductionPlan.tsx:180-199 | a part whose quantity is set to something that is not positive is not sent |
| ProductionPlanPage.SentItemsPassServerChecks | backend/src/production/rest_views.py:233-252 | every entry the page sends passes the endpoint's checks on part, warehouse and quantity |
| ProductionPlanPage.ItemPassesServerChecks | backend/src/production/rest_views.py:233-252 | one sendable entry passes those checks |
| ProductionPlanPage.ResultOf | frontend/src/pages/ProductionPlan.tsx:211-221 | an OK answer is a success with its data; otherwise the error, the detail or the fallback, never empty; a thrown error gives its message |
| ProductionPlanPage.PartsErrorOf | frontend/src/pages/ProductionPlan.tsx:161-164 | the detail when given, else the status text, else the server-error text; never empty |
| ProductionPlanPage.Screen.constructor | frontend/src/pages/ProductionPlan.tsx:7-33 | no plan, loading, no error, no link, the initial filters and both modals closed |
| ProductionPlanPage.Screen.FetchProductionPlans | frontend/src/pages/ProductionPlan.tsx:61-104 | corrected, see ## Findings: the request is `SearchRequest`; an answer sets the plans, links and `InfoFor`; a failure sets the error, no plan and the error counter; loading ends |
| ProductionPlanPage.Screen.Show | frontend/src/pages/ProductionPlan.tsx:72-102 | the plans, links, counter and error are set and loading ends |
| ProductionPlanPage.Screen.HandleFilterChange | frontend/src/pages/ProductionPlan.tsx:112-115 | the filters become `SetFilter` of the old ones |
| ProductionPlanPage.Screen.HandleClearSearch | frontend/src/pages/ProductionPlan.tsx:122-124 | the filters return to their initial values |
| ProductionPlanPage.Screen.OpenDetailModal | frontend/src/pages/ProductionPlan.tsx:134 | the detail modal opens on the plan |
| ProductionPlanPage.Screen.CloseDetailModal | frontend/src/pages/ProductionPlan.tsx:135 | the detail modal closes and forgets the plan |
| ProductionPlanPage.Screen.OpenAllocateModal | frontend/src/pages/ProductionPlan.tsx:147-149 | the allocation modal opens on the plan with no parts, loading, no error and no result |
| ProductionPlanPage.Screen.CloseAllocateModal | frontend/src/pages/ProductionPlan.tsx:151-153 | the allocation modal returns to its initial state |
| ProductionPlanPage.Screen.LoadRequiredParts | frontend/src/pages/ProductionPlan.tsx:155-178 | the parts are requested exactly for an open modal with a plan and no result; they arrive as `ProposedRows`, or the error is shown |
| ProductionPlanPage.Screen.HandleAllocationQuantityChange | frontend/src/pages/ProductionPlan.tsx:180-187 | the rows become `EditQuantity` of the old rows |
| ProductionPlanPage.Screen.HandleAllocationSubmit | frontend/src/pages/ProductionPlan.tsx:189-210 | nothing without a plan; an alert when no row qualifies; otherwise the plan's allocate request with `AllocationItems` |
| ProductionPlanPage.Screen.FinishAllocation | frontend/src/pages/ProductionPlan.tsx:211-221 | the modal's result is `ResultOf` the answer |
| ProductionSerializers.GetOr | backend/src/production/serializers.py:41-42 | a submitted key gives its value, even null; a missing key gives the default |
| ProductionSerializers.Effective | backend/src/production/serializers.py:40-47 | on create only the request's values count; on update a missing key falls back to the instance's value |
| ProductionSerializers.PlanValidate | backend/src/production/serializers.py:30-61 | an error on `planned_end_datetime` exactly when both values are present and the start is not before the end |
| ProductionSerializers.ProgressValidate | backend/src/production/serializers.py:170-185 | an error on `end_datetime` exactly when both values are present and the start is not before the end |
| ProductionSerializers.UpdateFallsBackToInstance | backend/src/production/serializers.py:40-42 | on update, sending only an end at or before the stored start is refused |
| ProductionSerializers.CreateUsesRequestOnly | backend/src/production/serializers.py:43-47 | on create, a missing start means no comparison |
| ProductionSerializers.ExplicitNullSkipsCheck | backend/src/production/serializers.py:41-53 | an explicit null on update does not fall back to the instance, so the comparison is skipped |
| ProductionSerializers.ProgressRuleMatchesPlanRule | backend/src/production/serializers.py:170-185 | the work-progress rule refuses exactly the pairs the plan rule refuses |
| ProductionSerializers.PlanStatusDisplay | backend/src/production/models.py:15-39 | a plan's `status_display` is the label of a listed status and the raw value otherwise |
| ProductionSerializers.ProgressStatusDisplay | backend/src/production/models.py:132-155 | the same for a work-progress record |
| ProductionSerializers.AllocationStatusDisplay | backend/src/production/models.py:98-112 | the same for a material allocation |
| ProductionViews.StrippedNonBlank | backend/src/production/rest_views.py:81 | no more pieces than given, none of them blank |
| ProductionViews.StrippedNonBlankMembers | backend/src/production/rest_views.py:81 | a text is kept exactly when it is non-blank and is the stripped form of some piece |
| ProductionViews.StatusList | backend/src/production/rest_views.py:80-83 | every status of the list is non-blank and holds no comma |
| ProductionViews.BlankStatusListIsNoFilter | backend/src/production/rest_views.py:80-83 | a parameter of blanks and commas only gives no status, so no status filter applies |
| ProductionViews.PlanList | backend/src/production/rest_views.py:61-108 | the list holds exactly the plans passing every given filter, the start-time bounds applied when the datetime parser reads them (which plans; the `OrderingFilter` order is not stated) |
| ProductionViews.EarlierPlanNotListed | backend/src/production/rest_views.py:93-96 | a plan starting before a readable `planned_start_datetime_after` bound is never listed |
| ProductionViews.SingleStatusSelects | backend/src/production/rest_views.py:80-83 | with one clean status listed, a plan is listed exactly when it has that status |
| ProductionViews.AvailableTotalNonNegative | backend/src/production/rest_views.py:156-185 | the available total of a part is never negative |
| ProductionViews.AvailableTotalOfNone | backend/src/production/rest_views.py:165-166 | no counted row gives 0, as the `DoesNotExist` branch does |
| ProductionViews.AvailableTotalOfOne | backend/src/production/rest_views.py:161-164 | a single counted row gives its own available quantity, as the `.get` branch does |
| ProductionViews.SumAvailable | backend/src/production/rest_views.py:156-185 | the summing loop gives the available total of the part over the active allocatable rows, in the given warehouse or in all of them |
| ProductionViews.RequiredPartFor | backend/src/production/rest_views.py:196-206 | a required-parts row carries the part code, the quantity used and the warehouse of its parts-used entry |
| ProductionViews.PartsOfPlan | backend/src/production/rest_views.py:136 | exactly the parts-used entries carrying the plan's reference |
| ProductionViews.RequiredParts | backend/src/production/rest_views.py:112-210 | 404 exactly when the plan has no reference, another 404 exactly when no parts-used entry carries it, else one row per entry in order, each with a non-negative stock figure |
| ProductionViews.AllocationStep | backend/src/production/rest_views.py:233-275 | each error is reported exactly when its check fails in order (missing data, a non-integer, a negative quantity, no row of the part in the warehouse, an inactive or unallocatable row, short available stock); several rows abort; the item is reserved exactly when all pass, at the found row with the asked quantity, and skipped silently exactly when its quantity is 0 |
| ProductionViews.WarehouseRows | backend/src/production/rest_views.py:255-261 | the lookup finds no row exactly when no row has the part in the warehouse, finds a row that has them, and reports several whenever two rows match |
| ProductionViews.TwoShelvesAbort | backend/src/production/rest_views.py:255-261 | a part stored at two locations of one warehouse raises `MultipleObjectsReturned`, which aborts the whole allocation |
| ProductionViews.InternalOrderNumber | backend/src/production/rest_views.py:290 | the internal sales-order number is "INT-" and at most 15 characters of the allocation id |
| ProductionViews.Reserve | backend/src/production/rest_views.py:277-301 | a reservation raises the row's reserved amount by `q`, appends one allocation of `q` for the plan, and adds at most one sales order |
| ProductionViews.StepStage | backend/src/production/rest_views.py:232-329 | each item adds at most one allocation or one error |
| ProductionViews.ApplyStep | backend/src/production/rest_views.py:237-301 | each item's outcome adds at most one allocation or one error |
| ProductionViews.StageAllocations | backend/src/production/rest_views.py:231-332 | the loop computes exactly `AllocationFold`; it never reserves beyond what was available, raises the total reserved by exactly the quantities allocated, creates only ALLOCATED allocations of the plan, and only appends sales orders |
| ProductionViews.StageFold | backend/src/production/rest_views.py:231-332 | once aborted nothing more happens; the fold adds at most one allocation or error per item |
| ProductionViews.StageFoldWithin | backend/src/production/rest_views.py:231-332 | every step of the loop keeps reservations within the stock and the total reserved equal to the old total plus what was allocated |
| ProductionViews.PlanAfterUpdate | backend/src/production/rest_views.py:382-470 | the plan takes the new status; a start once set stays; times change only to `now`; a COMPLETED plan has a start and ends `now` |
| ProductionViews.ProgressAfterUpdate | backend/src/production/rest_views.py:386-471 | the work-progress status and times per new status: IN_PROGRESS clears the end, COMPLETED ends now, ON_HOLD pauses, CANCELLED pauses only a running or unstarted row, PENDING resets to NOT_STARTED, anything else changes nothing |
| ProductionViews.CountOf | backend/src/production/rest_views.py:424-454 | an optional count is absent exactly when null, and valid exactly when it is a non-negative integer |
| ProductionViews.CompletedQuantities | backend/src/production/rest_views.py:407-454 | a COMPLETED update is accepted exactly when `good_quantity` is a non-negative integer and the other two are null or non-negative integers |
| ProductionViews.ReverseFinished | backend/src/production/rest_views.py:486-529 | a reversal lowers the product's total by exactly `q` and no other part's; it is refused exactly when the product has no FG-MAIN row or that row holds less than `q`, and fails (500) exactly when there are several rows |
| ProductionViews.FinishedRows | backend/src/production/rest_views.py:487-490 | the FG-MAIN lookup of the product finds no row exactly when none matches, a matching row, or several whenever two match |
| ProductionViews.AdjustFinished | backend/src/production/rest_views.py:551-600 | an adjustment changes the product's total by exactly `delta`, creating the row when absent; it is refused exactly when `delta` is negative and there is no row or the row holds less than `-delta`, and fails exactly when there are several rows |
| ProductionViews.FinishedDelta | backend/src/production/rest_views.py:478-549 | entering COMPLETED books the good quantity, staying COMPLETED books the difference, leaving it takes back the previous quantity, anything else books nothing |
| ProductionViews.FinishedMovement | backend/src/production/rest_views.py:583-600 | the movement is the size of the change, an output when positive and a reversal when negative, at the finished-goods warehouse, dated at the time of the update |
| ProductionViews.StageProgress | backend/src/production/rest_views.py:475-609 | the product's total changes by exactly `FinishedDelta`, one movement is logged exactly when it is non-zero, leaving COMPLETED resets the completed quantities; the block succeeds, is refused (with the stock's reason) or fails exactly as the reversal or the adjustment does, and always succeeds when neither runs |
| ProductionViews.ProgressUpdate | backend/src/production/rest_views.py:382-623 | bad quantities are refused with their message; otherwise the update goes through exactly when the atomic block on `ReportedProgress` succeeds, a stock refusal replies 400 "Failed to save progress: …" and an ambiguous row 500; an update sets the plan and row as above, moves the product's stock by `FinishedDelta` with at most one movement, and a completion records the good quantity |
| ProductionViews.ReportedProgress | backend/src/production/rest_views.py:382-456 | the row handed to the atomic block carries the new status and times, and for COMPLETED the reported good, actual and defective quantities |
| ProductionViews.NoCompletionNoStockChange | backend/src/production/rest_views.py:475-551 | an update that neither enters nor leaves COMPLETED leaves the stock and the movements alone |
| ProductionViews.RecompleteSameQuantityIsNoChange | backend/src/production/rest_views.py:545-551 | re-completing with the same good quantity books and logs nothing |
| ProductionViews.CompleteThenRevertRestores | backend/src/production/rest_views.py:478-580 | completing and then leaving COMPLETED restores every part's total and zeroes the completed quantity |
| ProductionViews.IndexOfPlan | backend/src/production/rest_views.py:358 | no plan is found exactly when no plan has the key, else a plan with that key |
| ProductionViews.FindProgress | backend/src/production/rest_views.py:370-377 | no row is found exactly when the plan has no overall work-progress row, else such a row |
| ProductionViews.WithOverallProgress | backend/src/production/rest_views.py:370-377 | `get_or_create` only ever appends one row and keeps the rows before it |
| ProductionViews.OverallProgressIndex | backend/src/production/rest_views.py:370-377 | the row found or created is the plan's overall work-progress row |
| ProductionViews.ProductionStore.constructor | backend/src/production/rest_views.py:43-49 | the store starts from the given plans and stock with empty tables otherwise |
| ProductionViews.ProductionStore.AllocateMaterials | backend/src/production/rest_views.py:213-349 | unknown plan 404; not a list or empty 400; it succeeds exactly when the fold over the items neither aborts nor collects an error, and then stores exactly the fold's staged rows, created allocations and sales orders; collected errors roll everything back and are returned as the details; an abort replies 500; a success never over-reserves and raises the total reserved by exactly what was allocated |
| ProductionViews.ProductionStore.UpdateProgress | backend/src/production/rest_views.py:352-632 | unknown plan 404; missing status 400; two overall rows 500; otherwise it succeeds exactly when `ProgressUpdate` does and replies with its refusal otherwise; a refusal changes nothing except keeping a newly created work-progress row; a success stores the plan, row, stock and movements `ProgressUpdate` gives |
| ProductionViews.ProductionStore.ApplyProgress | backend/src/production/rest_views.py:365-632 | the same, once the plan and status are known: two overall rows 500 with nothing changed, otherwise success exactly when `ProgressUpdate` goes through, and its refusal reply with only the fetched-or-created row kept |
| QrActionSettings.TemplateNamed | frontend/src/pages/QrCodeActionSettings.tsx:114 | a template is found exactly when one of the three templates has that name, and it is that template |
| QrActionSettings.TemplatePatternsFitTheirType | frontend/src/pages/QrCodeActionSettings.tsx:5-53 | every template is a regex or a script action; the script templates have an empty pattern and the regex ones a non-empty one |
| QrActionSettings.TemplateFields | frontend/src/pages/QrCodeActionSettings.tsx:5-53 | a template spreads exactly its action type, description, pattern, script and active flag |
| QrActionSettings.NewActionIsFirstTemplate | frontend/src/pages/QrCodeActionSettings.tsx:93-98 | a new action opens named after the first template, as a regex action with that template's pattern, active and without an id |
| QrActionSettings.ApplyTemplate | frontend/src/pages/QrCodeActionSettings.tsx:116-122 | choosing a template sets the name, the template's type, description, script and active flag, clears the pattern for a script template and keeps every other field of the form |
| QrActionSettings.TemplateOverridesIsActive | frontend/src/pages/QrCodeActionSettings.tsx:116-122 | an inactive form becomes active when a template is chosen: the template's flag wins over the form's |
| QrActionSettings.UnknownTemplateNameIgnored | frontend/src/pages/QrCodeActionSettings.tsx:113-115 | for a new action an unknown template name changes nothing, not even the name |
| QrActionSettings.RenameExistingIsPlain | frontend/src/pages/QrCodeActionSettings.tsx:113 | renaming a saved action only sets its name; no template is applied |
| QrActionSettings.ActionTypeChangeRule | frontend/src/pages/QrCodeActionSettings.tsx:124-131 | switching to a script clears the pattern; switching to any other type only sets the type and keeps the pattern |
| QrActionSettings.TemplateFormConsistent | frontend/src/pages/QrCodeActionSettings.tsx:113-123 | after a template is chosen, the action is a script exactly when its pattern is empty |
| QrActionSettings.SaveRequestFor | frontend/src/pages/QrCodeActionSettings.tsx:142-150 | an action without an id is sent by POST to the collection, one with an id by PUT to its own URL; the body is the form |
| QrActionSettings.QrActionSettingsPage.constructor | frontend/src/pages/QrCodeActionSettings.tsx:59-62 | the page opens with the modal closed, no action, no errors and not saving |
| QrActionSettings.QrActionSettingsPage.HandleShowModal | frontend/src/pages/QrCodeActionSettings.tsx:87-102 | the modal opens on a copy of the chosen action, or on the new-action form, with the errors cleared |
| QrActionSettings.QrActionSettingsPage.HandleCloseModal | frontend/src/pages/QrCodeActionSettings.tsx:104-107 | the modal closes and no action is open |
| QrActionSettings.QrActionSettingsPage.HandleFormChange | frontend/src/pages/QrCodeActionSettings.tsx:109-135 | the open action becomes its form change; with no action open nothing changes |
| QrActionSettings.QrActionSettingsPage.HandleSave | frontend/src/pages/QrCodeActionSettings.tsx:137-150 | saving starts with the errors cleared and sends the request for the open action |
| QrActionSettings.QrActionSettingsPage.FinishSave | frontend/src/pages/QrCodeActionSettings.tsx:151-162 | a success closes the modal; a rejection shows the server's field errors plus the general failure text; a network error adds its message; saving ends |
| QualityMasterPage.ChoicesMatchModels | frontend/src/pages/QualityMasterCreation.tsx:33-43 | the three select boxes offer exactly the choice keys of the quality item and detail models, in the same order |
| QualityMasterPage.NewItemIsValid | frontend/src/pages/QualityMasterCreation.tsx:119-124 | a new item starts with an inspection type and target type the models accept, and active |
| QualityMasterPage.MainValue | frontend/src/pages/QualityMasterCreation.tsx:147-151 | a checkbox stores exactly its checked flag as a boolean; any other input stores its text |
| QualityMasterPage.AddRow | frontend/src/pages/QualityMasterCreation.tsx:160-167 | one row is appended after the unchanged rows, with a null id and the qualitative measurement type |
| QualityMasterPage.RemoveRowMeaning | frontend/src/pages/QualityMasterCreation.tsx:169-171 | exactly the row at the index goes; the others keep their order, and together with the removed row they are the original rows |
| QualityMasterPage.DetailValue | frontend/src/pages/QualityMasterCreation.tsx:156 | a text input stores its text; a blank number input stores null; a number input always stores null or a number |
| QualityMasterPage.NumberInputReadsBack | frontend/src/pages/QualityMasterCreation.tsx:156 | an integer typed into a number input is stored as that number |
| QualityMasterPage.EditDetail | frontend/src/pages/QualityMasterCreation.tsx:153-158 | only the row at the index changes, and in it only the named field, which takes the input's value |
| QualityMasterPage.OrderOf | backend/src/quality/models.py:80 | a row's `order` is read when it is a number |
| QualityMasterPage.Numbered | frontend/src/pages/QualityMasterCreation.tsx:178-181 | numbering keeps the number of rows |
| QualityMasterPage.NumberedMeaning | frontend/src/pages/QualityMasterCreation.tsx:178-181 | the rows get the orders 1, 2, …, n and keep every other field as it was |
| QualityMasterPage.NumberedKeepsPageOrder | backend/src/quality/models.py:85 | sorting the numbered rows by `order`, as the server lists details, gives them in the page's order |
| QualityMasterPage.DragThenNumber | frontend/src/pages/QualityMasterCreation.tsx:94-101 | a drag moves one row and keeps the others (same multiset, same list without the moved row); the moved row is then numbered by its new place |
| QualityMasterPage.IdText | frontend/src/pages/QualityMasterCreation.tsx:185 | a present id is written as itself in the URL |
| QualityMasterPage.SaveRequestFor | frontend/src/pages/QualityMasterCreation.tsx:183-196 | new mode POSTs to the list URL, edit mode PUTs to the item's URL; the body is the item with its numbered details |
| QualityMasterPage.FlatKey | frontend/src/pages/QualityMasterCreation.tsx:212 | a flattened key starts with `measurement_details-` |
| QualityMasterPage.FlatKeyInjective | frontend/src/pages/QualityMasterCreation.tsx:212 | different rows or fields never share a flattened key |
| QualityMasterPage.AddFieldsKeys | frontend/src/pages/QualityMasterCreation.tsx:211-213 | flattening one row adds exactly the keys of its fields |
| QualityMasterPage.FlattenDetailErrors | frontend/src/pages/QualityMasterCreation.tsx:207-215 | the nested loops fill exactly the flattened errors `FlatErrors` describes |
| QualityMasterPage.AddFieldsOther | frontend/src/pages/QualityMasterCreation.tsx:211-213 | a key no field of the row writes keeps its value |
| QualityMasterPage.AddFieldsValue | frontend/src/pages/QualityMasterCreation.tsx:212 | a field's key holds its last entry's messages joined by a space |
| QualityMasterPage.FlatErrorsKeys | frontend/src/pages/QualityMasterCreation.tsx:208-215 | the flattened keys are exactly the keys of the fields of the non-null row entries |
| QualityMasterPage.FlatErrorsValue | frontend/src/pages/QualityMasterCreation.tsx:208-215 | the key of a row's field holds that entry's messages joined by a space |
| QualityMasterPage.NullEntryMarksNothing | frontend/src/pages/QualityMasterCreation.tsx:210 | a row without errors marks none of its inputs |
| QualityMasterPage.FormErrorsFor | frontend/src/pages/QualityMasterCreation.tsx:206-218 | a nested error list is removed and replaced by its flattened keys; any other errors are kept as they came |
| QualityMasterPage.FormErrorsKeepFields | frontend/src/pages/QualityMasterCreation.tsx:216-218 | a top-level field error other than the nested list stays under its own key |
| QualityMasterPage.RowErrorShown | frontend/src/pages/QualityMasterCreation.tsx:311-315 | the input of a row's field shows that entry's messages joined by a space |
| QualityMasterPage.ItemsFailure | frontend/src/pages/QualityMasterCreation.tsx:70-79 | a non-OK answer, a refusal (its message or the fallback) and a thrown error each give their own reason |
| QualityMasterPage.ItemFailure | frontend/src/pages/QualityMasterCreation.tsx:130-142 | a non-OK answer names its status; a refusal gives its message or the fallback; a thrown error its message |
| QualityMasterPage.SaveMessage | frontend/src/pages/QualityMasterCreation.tsx:199-223 | a saved answer shows its message as a success; a rejection shows its message or "check the input"; a thrown error shows the send-error prefix, both as danger |
| QualityMasterPage.Screen.constructor | frontend/src/pages/QualityMasterCreation.tsx:46-61 | the page starts loading with no item, no error, the modal closed in new mode, and no message |
| QualityMasterPage.Screen.FetchItems | frontend/src/pages/QualityMasterCreation.tsx:66-83 | a loaded answer sets the items; otherwise the items are kept and the list error is the prefix and `ItemsFailure`; loading ends |
| QualityMasterPage.Screen.OpenNewModal | frontend/src/pages/QualityMasterCreation.tsx:110-126 | errors and message cleared, new mode with no id, the new-item title, the blank item, no detail, modal open |
| QualityMasterPage.Screen.OpenEditModal | frontend/src/pages/QualityMasterCreation.tsx:110-144 | edit mode with the id and `name 変更`; a loaded item goes into the form without its details, which become the rows, and the modal opens; a failure shows the load error |
| QualityMasterPage.Screen.HandleMainFormChange | frontend/src/pages/QualityMasterCreation.tsx:147-151 | the item form takes `MainValue` under the input's name |
| QualityMasterPage.Screen.HandleDetailChange | frontend/src/pages/QualityMasterCreation.tsx:153-158 | the rows become `EditDetail` of the old rows |
| QualityMasterPage.Screen.AddDetailRow | frontend/src/pages/QualityMasterCreation.tsx:160-167 | the rows become `AddRow` of the old rows |
| QualityMasterPage.Screen.RemoveDetailRow | frontend/src/pages/QualityMasterCreation.tsx:169-171 | the rows lose exactly the row at the index |
| QualityMasterPage.Screen.HandleDragEnd | frontend/src/pages/QualityMasterCreation.tsx:94-101 | the dragged row moves from its old index to its new one |
| QualityMasterPage.Screen.HandleSubmit | frontend/src/pages/QualityMasterCreation.tsx:173-196 | errors and message are cleared and the request is `SaveRequestFor` the mode, id, item and rows |
| QualityMasterPage.Screen.FinishSubmit | frontend/src/pages/QualityMasterCreation.tsx:197-223 | the message is `SaveMessage`; a rejection sets `FormErrorsFor` its errors; other answers keep the errors |
| QualityMasterPage.Screen.CloseModal | frontend/src/pages/QualityMasterCreation.tsx:201-204 | the modal closes |
| QualityModels.Column | backend/src/quality/models.py:9-42 | a column present in the row gives its value, an absent one gives null |
| QualityModels.ItemText | backend/src/quality/models.py:48-49 | an item's text starts with its code and " - " |
| QualityModels.ResultText | backend/src/quality/models.py:163-164 | a result's text is "検査結果 <key> (<item name> - <judgment label>)", with the label of a known judgment |
| QualityModels.ItemDetailIds | backend/src/quality/models.py:63-65 | the item's detail keys are exactly the details pointing at it |
| QualityModels.LinkedWithDetails | backend/src/quality/models.py:63-65 | adding items, with a details table whose rows all point at an item and that keeps every recorded detail, keeps every foreign key pointing at an existing row |
| QualityModels.LinkedAddResult | backend/src/quality/models.py:105-178 | a new result of an existing item, with details of existing measurement details, keeps every foreign key pointing at an existing row |
| QualitySerializers.NewDetail | backend/src/quality/serializers.py:73 | a created detail belongs to the item and carries every column of its entry |
| QualitySerializers.CreatedDetailsAreThePayload | backend/src/quality/serializers.py:69-74 | a new item gets exactly one detail per payload entry, each made from its entry |
| QualitySerializers.CreatedDetailsFresh | backend/src/quality/serializers.py:72-73 | the created details belong to the new item, one per entry, under keys not already taken |
| QualitySerializers.ItemDetails | backend/src/quality/serializers.py:81 | the mapping holds exactly the item's details under their keys |
| QualitySerializers.ReconStep | backend/src/quality/serializers.py:83-93 | an entry whose id is still in the mapping overwrites that detail and is popped; any other entry creates a new detail |
| QualitySerializers.ReconciledCount | backend/src/quality/serializers.py:77-100 | after `update` the item has exactly one detail per payload entry |
| QualitySerializers.ReconciledMeaning | backend/src/quality/serializers.py:77-100 | an existing detail of the item survives exactly when some entry names it; other items' details are untouched; new keys come only from the key generator; only the item's own details are deleted |
| QualitySerializers.RepeatedIdCreatesDetail | backend/src/quality/serializers.py:84-93 | an id sent twice overwrites its detail once and the repeat creates a new detail |
| QualitySerializers.CreatedItemLinked | backend/src/quality/serializers.py:69-74 | creating an item with its details keeps every foreign key pointing at an existing row |
| QualitySerializers.CreatedItemCount | backend/src/quality/serializers.py:69-74 | a new item has exactly one detail per payload entry |
| QualitySerializers.ReconciledLinked | backend/src/quality/serializers.py:77-100 | an update whose deleted details no result records keeps every foreign key pointing at an existing row |
| QualitySerializers.QualityStore.constructor | backend/src/quality/models.py:9-178 | the store starts with empty, consistent tables |
| QualitySerializers.QualityStore.CreateItem | backend/src/quality/serializers.py:68-74 | the item is stored with its columns over the defaults, its details are exactly the created ones, results stay, and the tables stay consistent |
| QualitySerializers.QualityStore.BuildCreated | backend/src/quality/serializers.py:72-74 | the loop over the sent details gives exactly `CreatedDetails`: one new detail per entry under the next fresh key |
| QualitySerializers.QualityStore.UpdateItem | backend/src/quality/serializers.py:76-100 | no details member is an error; the update is refused exactly when a deleted detail is recorded by a result, and then nothing changes; otherwise the item's columns are updated and its details reconciled |
| QualitySerializers.QualityStore.ReconcileDetails | backend/src/quality/serializers.py:81-93 | the payload loop gives exactly the fold of `ReconStep` |
| QualitySerializers.QualityStore.CreateResult | backend/src/quality/serializers.py:137-144 | the result is stored stamped with the requesting user, with exactly the created details, and the tables stay consistent |
| QualitySerializers.CreatedResultDetailsArePayload | backend/src/quality/serializers.py:142-143 | a result gets one detail per entry, carrying that entry's measurement detail and values |
| QualitySerializers.CreatedResultDetailsLinked | backend/src/quality/serializers.py:142-143 | every created result detail points at the result and at an existing measurement detail |
| QualityViews.PayloadSource | backend/src/quality/rest_views.py:124 | an absent payload member reads as "[]", a present one as its text |
| QualityViews.NullIfBlank | backend/src/quality/rest_views.py:147-149 | null and "" become null; any other value is kept |
| QualityViews.DetailFor | backend/src/quality/rest_views.py:145-149 | the dict names the entry's detail; a quantitative detail's value goes to the numeric column and the qualitative one stays null, and the other way round for any other type |
| QualityViews.BuildDetails | backend/src/quality/rest_views.py:133-150 | the loop builds exactly one dict per entry, in order, when every entry names a detail of this item; otherwise it reports the first entry that does not |
| QualityViews.RecordStatus | backend/src/quality/rest_views.py:140-180 | 404 exactly for an unknown item, 201 exactly for a recorded result, 400 for everything else |
| QualityViews.ResultAttrs | backend/src/quality/rest_views.py:153-160 | the result's own columns are exactly the four form fields, null when absent |
| QualityViews.DetailsFor | backend/src/quality/rest_views.py:133-150 | one dict per payload entry, in order |
| QualityViews.RecordResult | backend/src/quality/rest_views.py:115-181 | unknown item 404; undecodable payload 400; an unknown detail id 400; a result is recorded exactly when the payload decodes, every entry is known and the serializer accepts, and then the result and one detail per entry are stored; otherwise nothing is stored |
| QualityViews.RecordedDetailCount | backend/src/quality/rest_views.py:133-164 | a recorded result gets exactly one new detail per entry, under new keys |
| QualityViews.DestroyStatus | backend/src/quality/rest_views.py:66-80 | 200 exactly for a deletion, 400 exactly for a refusal, 404 exactly for an unknown key |
| QualityViews.Cascaded | backend/src/quality/models.py:63-65 | an `on_delete=CASCADE` removes exactly the rows whose parent is the deleted one and keeps the rest unchanged (the item's measurement details here, and a result's details at models.py:173-174) |
| QualityViews.DestroyItem | backend/src/quality/rest_views.py:66-80 | an unknown key is a 404 and changes nothing; otherwise refused with 400 exactly when a result or a recorded value protects the item, and then nothing is deleted; otherwise the item and its details go, with the item's text in the message |
| QualityViews.DestroyResult | backend/src/quality/rest_views.py:66-75 | an unknown key is a 404 and changes nothing; otherwise nothing protects a result: it and its details go, with the result's own text in the success message |
| SettingsColumns.VerboseOr | frontend/src/pages/InventoryInquiry.tsx:78 | a missing or empty verbose name falls back to the field name; any other verbose name is kept |
| SettingsColumns.VisibleColumnsMeaning | frontend/src/pages/InventoryInquiry.tsx:81-84 | the table columns are exactly the settings marked for the list, each as often as given, sorted by display order |
| SettingsColumns.SearchableFieldsMeaning | frontend/src/pages/InventoryInquiry.tsx:86-89 | the search inputs are exactly the settings marked searchable, each as often as given, sorted by search order |
| SettingsColumns.VisibleColumnsOfOrdered | frontend/src/pages/InventoryInquiry.tsx:81-83 | listed settings already in display order come out unchanged, since the sort is stable |
| SettingsColumns.HeaderText | frontend/src/pages/InventoryInquiry.tsx:290 | a header is the trimmed custom name when that is not blank, else the verbose name, else the field name |
| SettingsColumns.HeaderTextNeverBlank | frontend/src/pages/InventoryInquiry.tsx:290 | a header of a named field is never blank, and a custom name of spaces only gives way to the verbose name |
| SettingsColumns.VerboseFor | frontend/src/pages/InventoryInquiry.tsx:74 | no verbose name is found exactly when no field has that name |
| SettingsColumns.LastVerboseNameWins | frontend/src/pages/InventoryInquiry.tsx:74 | when a name occurs several times among the fields, the last verbose name given for it is the one used |
| SettingsColumns.ColumnFor | frontend/src/pages/InventoryInquiry.tsx:76-79 | a column keeps its setting, has no field type, and carries the field's verbose name or the field name |
| SettingsColumns.CombinedSettings | frontend/src/pages/InventoryInquiry.tsx:76-79 | one column per saved setting, in the order the server gave them |
| Common.ParseInt | frontend/src/pages/GoodsIssue.tsx:56 | parseInt with radix 10 gives a number only for a text holding a digit; otherwise NaN (None) |
| Common.ParseIntOfIntToString | frontend/src/pages/WorkProgress.tsx:109 | a page number written as text by the page reads back as the same number |
| Common.IntegerTextOfIntToString | backend/src/production/rest_views.py:414 | int() of the text str() writes for an integer gives that integer back |
| Common.SplitOnJoin | backend/src/base/tasks.py:28 | splitting a join on a separator that no part holds gives the parts back |
| Common.StripEmptyIff | backend/src/production/rest_views.py:81 | a text strips to the empty text exactly when it is whitespace only |
| Common.ChoiceDisplayOfKey | backend/src/master/serializers.py:9-10 | with distinct choice keys every stored key displays as its own label |
| Json.PyInt | backend/src/inventory/rest_views.py:123 | int() of a request value: null raises, a number is itself, a text is read as an integer numeral or raises |
| ListOps.MovePermutes | frontend/src/pages/CsvMappingSettings.tsx:129-130 | a drag keeps the length and the elements (as a multiset) and puts the dragged element at its destination |
| ListOps.MoveKeepsOthersInOrder | frontend/src/pages/CsvMappingSettings.tsx:129-130 | the elements not dragged keep their relative order |
| ListOps.MoveAt | frontend/src/pages/ModelDisplaySettings.tsx:122-123 | element by element: outside the dragged span nothing moves, inside it every element shifts by one toward the vacated slot |
| ListOps.MoveInPlace | frontend/src/pages/QualityMasterCreation.tsx:98-99 | dropping an element onto its own place changes nothing |
| ListOps.RenumberSorted | frontend/src/pages/PageDisplaySettings.tsx:235-237 | after renumbering the orders are 10, 20, 30, … in list order, strictly increasing, so sorting by order keeps the list |
| ListOps.AppendNewMeaning | frontend/src/pages/PageDisplaySettings.tsx:83-92 | filling the map with "set if absent" keeps what was there in front, adds only given items, makes every item's key present and never duplicates a key |
| ListOps.AppendNewFirstWins | frontend/src/pages/PageDisplaySettings.tsx:83-92 | for a key not yet present the first item with that key is the one kept |
| ListOps.UpsertMeaning | frontend/src/pages/PageDisplaySettings.tsx:106 | one Map.set: existing keys keep their slots, the set key holds the new value, and nothing else changes |
| ListOps.UpsertAllMeaning | frontend/src/pages/PageDisplaySettings.tsx:74-106 | a run of Map.set calls never duplicates a key, keeps the keys already present at their places, adds only given items, makes every set key present, and an item no later item overrides is kept (the last setting wins) |
| ShelfQr.EscapeChar | frontend/src/pages/ShelfQrCodeCreation.tsx:9 | `JSON.stringify`'s escape of one character: backslash escapes exactly for `"`, `\` and control characters, the character itself otherwise |
| ShelfQr.EscapeAll | frontend/src/pages/ShelfQrCodeCreation.tsx:9 | escaping never shortens a string |
| ShelfQr.Quote | frontend/src/pages/ShelfQrCodeCreation.tsx:9 | a JSON string literal starts and ends with a double quote |
| ShelfQr.ReadEscapedChar | frontend/src/pages/ShelfQrCodeCreation.tsx:9 | reading back the escape of any character gives that character (section 7 of RFC 8259) |
| ShelfQr.ReadQuoted | frontend/src/pages/ShelfQrCodeCreation.tsx:9 | reading an escaped string up to its closing quote gives the string back and leaves what follows |
| ShelfQr.ReadMemberOf | frontend/src/pages/ShelfQrCodeCreation.tsx:9 | a member written as an opening and a quoted string reads back as that string |
| ShelfQr.QuoteInjective | frontend/src/pages/ShelfQrCodeCreation.tsx:9 | two different strings never have the same JSON text |
| ShelfQr.QrText | frontend/src/pages/ShelfQrCodeCreation.tsx:9 | the QR text is the object `{"warehouse":…,"shelf":…}`, starting with its warehouse member and ending in `}` |
| ShelfQr.ReadQrText | frontend/src/pages/ShelfQrCodeCreation.tsx:9 | the QR text reads back as exactly the warehouse and shelf it was made from |
| ShelfQr.QrTextInjective | frontend/src/pages/ShelfQrCodeCreation.tsx:9 | different locations never share a QR text |
| ShelfQr.DownloadName | frontend/src/pages/ShelfQrCodeCreation.tsx:19 | the PNG name starts with the warehouse (or `W` when empty) and a dash |
| ShelfQr.DownloadCarriesBothNames | frontend/src/pages/ShelfQrCodeCreation.tsx:63-75 | the download button shows only when both inputs are filled, so the file name is always `warehouse-shelf-qrcode.png` |
| ShelfQr.ShelfScript | frontend/src/pages/QrCodeActionSettings.tsx:34-49 | the shelf template's script answers only for texts starting with `LOC:` that split into three pieces, giving pieces 2 and 3 as warehouse and source location |
| ShelfQr.ShelfScriptReadsLoc | frontend/src/pages/QrCodeActionSettings.tsx:36-47 | `LOC:<warehouse>:<location>` with colon-free names gives back that warehouse and location |
| ShelfQr.PageQrNotReadByShelfScript | frontend/src/pages/ShelfQrCodeCreation.tsx:9 | the JSON QR made by the shelf page never starts with `LOC:`, so the shelf template's script answers None for it |
| StockMovementHistoryPage.DefaultSelectsAllTypes | frontend/src/pages/StockMovementHistory.tsx:4-21 | all six movement types start selected, in list order |
| StockMovementHistoryPage.ToggleMeaning | frontend/src/pages/StockMovementHistory.tsx:137-144 | a toggle flips the membership of its type and of no other, and keeps the selection free of repeats |
| StockMovementHistoryPage.ToggleTwice | frontend/src/pages/StockMovementHistory.tsx:137-144 | toggling the same type twice selects the same types again |
| StockMovementHistoryPage.SetCriterionMeaning | frontend/src/pages/StockMovementHistory.tsx:132-135 | an edit keeps one value per criterion, sets its own and leaves every other criterion where and as it was |
| StockMovementHistoryPage.HistoryQuery | frontend/src/pages/StockMovementHistory.tsx:58-60 | the query starts with `page` and `page_size` (25) |
| StockMovementHistoryPage.EntriesTypeValues | frontend/src/pages/StockMovementHistory.tsx:62-72 | the values sent under `search_movement_type` are exactly the types the members of the search select |
| StockMovementHistoryPage.TypesInSingle | frontend/src/pages/StockMovementHistory.tsx:62-72 | when one member is the type set and all others are text, the members select exactly that set |
| StockMovementHistoryPage.ActiveSearchShape | frontend/src/pages/StockMovementHistory.tsx:145-153 | the activated search holds the type set once and every other member is a text criterion |
| StockMovementHistoryPage.QuerySendsSelectedTypes | frontend/src/pages/StockMovementHistory.tsx:58-72 | exactly the selected types are sent as `search_movement_type`, in order, whatever the criteria hold |
| StockMovementHistoryPage.SelectedTypesFilterServer | backend/src/inventory/rest_views.py:457-473 | with some type selected, every movement the server lists is of a selected type |
| StockMovementHistoryPage.NoTypeListsEveryType | backend/src/inventory/rest_views.py:471-473 | with no type selected, whether a movement is listed does not depend on its type |
| StockMovementHistoryPage.CriterionSent | frontend/src/pages/StockMovementHistory.tsx:68-70 | a non-blank criterion other than `movement_type` is sent as `search_<key>` |
| StockMovementHistoryPage.QueryOnlyFromSearch | frontend/src/pages/StockMovementHistory.tsx:58-72 | every parameter sent is the page, the page size, a selected type or a non-blank criterion |
| StockMovementHistoryPage.ResetListsEverything | frontend/src/pages/StockMovementHistory.tsx:155-167 | after a reset only the page and page size are sent, so the server lists every movement |
| StockMovementHistoryPage.HistoryCountInfo | frontend/src/pages/StockMovementHistory.tsx:194-202 | no count shows the empty line; for a real page the line shows its first and last row numbers, which lie in 1..count and span one page or the rest |
| StockMovementHistoryPage.PaginationControls | frontend/src/pages/StockMovementHistory.tsx:254-304 | the controls show exactly when there is more than one page of rows, with the pages within 3 of the current one, and the jump box exactly past 7 pages |
| StockMovementHistoryPage.PageWindowBounds | frontend/src/pages/StockMovementHistory.tsx:258-264 | the page window holds at most seven pages, all real, and the current page when it is real |
| StockMovementHistoryPage.PageAfterChange | frontend/src/pages/StockMovementHistory.tsx:169-173 | the page moves exactly when the target is another real page; otherwise it stays |
| StockMovementHistoryPage.PageAfterJump | frontend/src/pages/StockMovementHistory.tsx:179-186 | a jump ends on the current page or on a real page, and a changed page is what the box text parses to |
| StockMovementHistoryPage.JumpToShownPageStays | frontend/src/pages/StockMovementHistory.tsx:128-130 | going to the page the box shows after a change changes nothing |
| StockMovementHistoryPage.CellSource | frontend/src/pages/StockMovementHistory.tsx:236-246 | a column other than the type and the operator shows the row member of its own name |
| StockMovementHistoryPage.CellValue | frontend/src/pages/StockMovementHistory.tsx:248 | a cell is never null: it shows the member when present and not null, and blank otherwise |
| StockMovementHistoryPage.HistoryHeader | frontend/src/pages/StockMovementHistory.tsx:217 | a header is the display name when given, else the verbose name |
| StockMovementHistoryPage.HistoryPaginationOf | frontend/src/pages/StockMovementHistory.tsx:110-116 | the count and links as given; missing pages and current page read as 1 |
| StockMovementHistoryPage.Screen.constructor | frontend/src/pages/StockMovementHistory.tsx:24-50 | the first render: no rows, loading, blank criteria, all types selected, no active search, page 1 and the box showing 1 |
| StockMovementHistoryPage.Screen.SetCurrentPage | frontend/src/pages/StockMovementHistory.tsx:128-130 | the page is set, and the jump box shows it when it changed |
| StockMovementHistoryPage.Screen.HandleSearchChange | frontend/src/pages/StockMovementHistory.tsx:132-135 | the criteria become `SetCriterion` of the old ones; nothing else changes |
| StockMovementHistoryPage.Screen.HandleTypeToggle | frontend/src/pages/StockMovementHistory.tsx:137-148 | the type is toggled, the page returns to 1 and the criteria with the new types become the active search |
| StockMovementHistoryPage.Screen.HandleSearch | frontend/src/pages/StockMovementHistory.tsx:150-153 | the page returns to 1 and the criteria with the selected types become the active search |
| StockMovementHistoryPage.Screen.HandleReset | frontend/src/pages/StockMovementHistory.tsx:155-167 | blank criteria, all types, page 1 and an empty active search |
| StockMovementHistoryPage.Screen.HandlePageChange | frontend/src/pages/StockMovementHistory.tsx:169-173 | the page becomes `PageAfterChange`, and the box shows it when it changed |
| StockMovementHistoryPage.Screen.HandleJumpPageChange | frontend/src/pages/StockMovementHistory.tsx:175-177 | the box holds the typed text |
| StockMovementHistoryPage.Screen.HandleJumpPageGo | frontend/src/pages/StockMovementHistory.tsx:179-186 | a real page in the box is gone to; anything else puts the current page back in the box |
| StockMovementHistoryPage.Screen.FetchHistory | frontend/src/pages/StockMovementHistory.tsx:54-122 | the query is `HistoryQuery` of the page and active search; columns are rebuilt when both settings answers are OK and kept otherwise; an OK data answer replaces rows and pagination, a failure sets the error; loading ends |
| StockMovementHistoryPage.Screen.BuildColumns | frontend/src/pages/StockMovementHistory.tsx:84-102 | the visible and searchable columns of the combined settings |
| StockMovementHistoryPage.Screen.Show | frontend/src/pages/StockMovementHistory.tsx:97-116 | the columns are shown, then the rows and pagination, or the error with the old rows kept |
| StockMovementHistoryPage.Screen.BuildQuery | frontend/src/pages/StockMovementHistory.tsx:58-72 | the parameters appended one by one are exactly `HistoryQuery` |
| StockMovementHistoryPage.Screen.AppendEntry | frontend/src/pages/StockMovementHistory.tsx:62-71 | one member adds exactly its own parameters to those before it |
| UsersMiddleware.ShouldCheck | backend/src/users/middleware.py:8-38 | an anonymous request is never checked; an unresolved one always is; a resolved one is checked exactly when its view is not exempt and it is not an admin view |
| UsersMiddleware.ProcessView | backend/src/users/middleware.py:40-54 | the request is refused exactly when it is checked and the password is expired, and the refusal is a 403 with code password_expired and its message |
| UsersMiddleware.ExemptViewsReachable | backend/src/users/middleware.py:21-32 | the login, logout, password-change, session-info and admin-logout views pass even with an expired password |
| UsersMiddleware.PasswordChangeAlwaysReachable | backend/src/users/middleware.py:21-32 | the password-change endpoint passes for an expired password, so the user can always renew it |
| UsersMiddleware.OrdinaryViewChecked | backend/src/users/middleware.py:31-54 | an ordinary API view outside the admin app is refused exactly when the password is expired |
| UsersMiddleware.FreshPasswordPasses | backend/src/users/middleware.py:40-54 | a password changed at the current time lets every request through |
| UsersModels.ExpirationDays | backend/src/users/models.py:137 | an unset expiry setting means 180 days; a set one is taken as it is, None included |
| UsersModels.NeverExpiresWhenDisabled | backend/src/users/models.py:139-141 | with no expiry period or a non-positive one a password never expires, whatever the dates |
| UsersModels.ExpiredIff | backend/src/users/models.py:139-150 | with a positive period a password is expired exactly when it has no last-change time or the period after that time has passed |
| UsersModels.FreshPasswordNotExpired | backend/src/users/models.py:120-150 | a password changed at the current time is not expired under any setting |
| UsersModels.DefaultPeriodIs180Days | backend/src/users/models.py:137-150 | under the default setting a password expires exactly when more than 180 days have passed since its change |
| UsersModels.ExpiryIsMonotone | backend/src/users/models.py:148-150 | once expired a password stays expired at every later time |
| UsersModels.StoredEmail | backend/src/users/models.py:109-116 | a missing or empty e-mail is stored as None; any other is stored normalised |
| UsersModels.StoredEmailIdempotent | backend/src/users/models.py:109-116 | saving twice stores the same e-mail as saving once, when normalisation is idempotent |
| UsersModels.FullNameOfTwoNames | backend/src/users/models.py:97-99 | two names without surrounding spaces give "first last" with one space |
| UsersModels.FullNameOfFirstOnly | backend/src/users/models.py:97-99 | with an empty last name the full name is the first name alone, without the trailing space |
| UsersModels.FullNameOfNoNames | backend/src/users/models.py:97-99 | with both names empty the full name is empty |
| UsersModels.CreateError | backend/src/users/models.py:18-42 | creation fails exactly for an empty custom id, or for a superuser explicitly given is_staff or is_superuser false; each failure carries its own message, staff checked first |
| UsersModels.FlagOf | backend/src/users/models.py:28-34 | a flag the caller passes is kept; a missing one defaults to false for a user and true for a superuser |
| UsersModels.CreatedSuperuserIsStaff | backend/src/users/models.py:32-39 | every superuser that create_superuser accepts is both staff and superuser |
| UsersModels.PlainUserHasNoPrivileges | backend/src/users/models.py:27-30 | a user created with a custom id and no flags is accepted and is neither staff nor superuser |
| UsersModels.CustomUser.constructor | backend/src/users/models.py:46-77 | a new user has the given id, e-mail and flags, empty names, is active, and its password was last changed now |
| UsersModels.CustomUser.SetPassword | backend/src/users/models.py:120-125 | the password hash is stored and the change time becomes now; no other field changes |
| UsersModels.CustomUser.Save | backend/src/users/models.py:109-117 | the e-mail becomes its stored form; no other field changes |
| UsersModels.CreateUser | backend/src/users/models.py:18-42 | the error is CreateError's; otherwise a fresh user with the given id, stored e-mail, defaulted flags, hashed password, changed now and active, whose password is not expired |
| UsersSerializers.LoginValidate | backend/src/users/serializers.py:27-63 | the login succeeds exactly when both values are present and authenticate returns a user, and then that user is the result |
| UsersSerializers.Login | backend/src/users/serializers.py:21-63 | field errors come exactly from an invalid custom_id or password field, listed in field order; otherwise the outcome is validate's on the cleaned values, the password untrimmed |
| UsersSerializers.MissingCredentialsBeforeAuthentication | backend/src/users/serializers.py:24-25 | a missing or empty id or password is refused as a field error, whatever authenticate would answer |
| UsersSerializers.RefusalReasonOrder | backend/src/users/serializers.py:40-60 | a failed authentication is explained as unknown id, then wrong password, then inactive account, then the generic refusal |
| UsersSerializers.ModelBackendLogin | backend/src/users/serializers.py:37-55 | with Django's model backend the generic refusal never happens, and login succeeds exactly for a known active user with the right password |
| UsersSerializers.MissingCredentialsMessageUnreachable | backend/src/users/serializers.py:32-34 | the "must include" message can never be returned, because the fields already refuse missing and blank values |
| UsersSerializers.OldPasswordField | backend/src/users/serializers.py:97-105 | the old password is valid exactly when the field is valid and the current user's password checks; a wrong one gives its message |
| UsersSerializers.PasswordChangeErrors | backend/src/users/serializers.py:94-113 | field errors are reported in field order; without them the change is refused exactly when the two new passwords differ, on new_password2 |
| UsersSerializers.PasswordChangeAcceptedIff | backend/src/users/serializers.py:94-113 | a change with non-blank values is accepted exactly when the old password checks and the two new ones agree after trimming |
| UsersSerializers.WrongOldPasswordReported | backend/src/users/serializers.py:101-105 | a wrong old password is the only error reported, even when the new ones differ |
| UsersSerializers.RegistrationPassword | backend/src/users/serializers.py:11-14 | the registration password is accepted exactly when it is a valid field of 5 to 128 characters (the user model's password column holds 128); a longer one gets the maximum-length message and a shorter one the minimum-length message |
| UsersSerializers.RegistrationOutput | backend/src/users/serializers.py:11-14 | the output holds custom_id, username and email and never the write-only password |
| WorkProgressPage.DefaultStatusesAreOpen | frontend/src/pages/WorkProgress.tsx:6-16 | the page starts with the open statuses selected: pending, in progress and on hold |
| WorkProgressPage.OpenStatusesKept | frontend/src/pages/WorkProgress.tsx:6-16 | the options marked as selected at start are the first, second and fourth, in order |
| WorkProgressPage.StatusesMatchServer | frontend/src/pages/WorkProgress.tsx:6-12 | the statuses on offer are the plan statuses the server defines, in the same order (backend/src/production/models.py:15-21) |
| WorkProgressPage.ToggleStatusMeaning | frontend/src/pages/WorkProgress.tsx:142-150 | a status check box flips the membership of its own status and of no other |
| WorkProgressPage.SetFilter | frontend/src/pages/WorkProgress.tsx:137-140 | each of the four filter inputs sets exactly its own filter; any other name leaves the filters as they were |
| WorkProgressPage.NextSorting | frontend/src/pages/WorkProgress.tsx:162-165 | the clicked column becomes the sort field; it is descending exactly when it was already the ascending sort field |
| WorkProgressPage.ClickingTwiceFlips | frontend/src/pages/WorkProgress.tsx:162-165 | two clicks on one column sort it in both directions; starting from another column the second click is descending |
| WorkProgressPage.OrderingOf | frontend/src/pages/WorkProgress.tsx:61-62 | the `ordering` parameter is the field, with a leading `-` exactly when descending |
| WorkProgressPage.OrderingReadsBack | frontend/src/pages/WorkProgress.tsx:61-62 | for a field not starting with `-`, the direction and the field can be read back from the `ordering` value |
| WorkProgressPage.DayEnd | frontend/src/pages/WorkProgress.tsx:68 | the "start before" date is sent extended to the end of that day, and is sent exactly when given |
| WorkProgressPage.StatusParams | frontend/src/pages/WorkProgress.tsx:71-73 | `status__in` is sent, once, exactly when some but not all statuses are selected, as the selection joined by commas |
| WorkProgressPage.PlanQueryValues | frontend/src/pages/WorkProgress.tsx:57-75 | what the server reads under each key: the page size, the ordering, each given filter under its own name, and the status selection |
| WorkProgressPage.ServerReadsStatusParam | frontend/src/pages/WorkProgress.tsx:71-73 | the server's `status__in` value is the joined selection for a proper non-empty subset and absent otherwise |
| WorkProgressPage.StatusesRoundTrip | backend/src/production/rest_views.py:79-83 | the server's split of the joined selection gives back the selected statuses when each is a plain status key |
| WorkProgressPage.ServerListsSelectedStatuses | backend/src/production/rest_views.py:61-83 | with a proper subset selected, every plan the server lists is in a selected status |
| WorkProgressPage.ServerReadsPlanName | backend/src/production/rest_views.py:65-75 | the server filters plan names by the page's plan-name field exactly when that field is not empty |
| WorkProgressPage.WithPageSize | frontend/src/pages/WorkProgress.tsx:48-56 | a followed page link always carries a page size, and keeps all of its own parameters in order |
| WorkProgressPage.RequestFor | frontend/src/pages/WorkProgress.tsx:48-76 | a non-empty page link is followed with a page size added; otherwise the query is built from the filters, statuses and sorting |
| WorkProgressPage.TotalPages | frontend/src/pages/WorkProgress.tsx:117 | for a positive count, the number of pages of ten that holds exactly that many plans |
| WorkProgressPage.CurrentPage | frontend/src/pages/WorkProgress.tsx:104-118 | a request that names its page shows that page |
| WorkProgressPage.FirstPageIsOne | frontend/src/pages/WorkProgress.tsx:104-118 | the first request, with no page named and a next link to page 2, shows page 1 |
| WorkProgressPage.NamedPageIsShown | frontend/src/pages/WorkProgress.tsx:104-118 | a request naming page n shows page n whatever the links |
| WorkProgressPage.OpenedQuantities | frontend/src/pages/WorkProgress.tsx:174-189 | a COMPLETED plan opens with its planned quantity as made and good and no defects; any other plan opens with blank quantities |
| WorkProgressPage.IntOrZero | frontend/src/pages/WorkProgress.tsx:198-201 | a quantity text that parses as an integer counts as that integer, and any other text as 0 |
| WorkProgressPage.EditQuantities | frontend/src/pages/WorkProgress.tsx:196-205 | an edit changes only its own field, and the good quantity becomes made minus defective, never below 0 |
| WorkProgressPage.CheckCompleted | frontend/src/pages/WorkProgress.tsx:213-226 | a COMPLETED report is accepted exactly when all three counts are integers ≥ 0 and good + defective ≤ made, and then reports those counts |
| WorkProgressPage.EditedReportAccepted | frontend/src/pages/WorkProgress.tsx:196-226 | after any edit that leaves valid counts with no more defects than made, the report is accepted and good + defective equals made |
| WorkProgressPage.OpenedCompletedAccepted | frontend/src/pages/WorkProgress.tsx:174-226 | a COMPLETED plan submitted as opened reports its planned quantity, all good and none defective |
| WorkProgressPage.PayloadData | frontend/src/pages/WorkProgress.tsx:211-230 | the body always carries the status; without a report it carries nothing else |
| WorkProgressPage.ReportPassesServer | backend/src/production/rest_views.py:396-452 | the server reads from the body of an accepted report exactly its good, made and defective counts |
| WorkProgressPage.ProgressFailure | frontend/src/pages/WorkProgress.tsx:238 | a failed report shows the server's `error`, else its `detail`, else the fixed failure message |
| WorkProgressPage.InfoFor | frontend/src/pages/WorkProgress.tsx:104-121 | a positive count shows the count, the total pages and the current page; no plans shows the empty line |
| WorkProgressPage.Screen.constructor | frontend/src/pages/WorkProgress.tsx:20-45 | the first render: no plans, loading, the initial filters, the open statuses, the initial sorting and the modal closed and blank |
| WorkProgressPage.Screen.FetchProductionPlans | frontend/src/pages/WorkProgress.tsx:78-130 | with no status selected the list is emptied and nothing is requested; otherwise the built request is made and its answer shown or its error reported; loading always ends |
| WorkProgressPage.Screen.Show | frontend/src/pages/WorkProgress.tsx:100-127 | a finished fetch sets the plans, the links, the counter and the error, and ends loading |
| WorkProgressPage.Screen.HandleFilterChange | frontend/src/pages/WorkProgress.tsx:137-140 | the filters become the result of `SetFilter` on the old ones |
| WorkProgressPage.Screen.HandleStatusFilterChange | frontend/src/pages/WorkProgress.tsx:142-150 | the selected statuses become the old ones with the status toggled |
| WorkProgressPage.Screen.HandleReset | frontend/src/pages/WorkProgress.tsx:156-160 | the filters, statuses and sorting return to their initial values |
| WorkProgressPage.Screen.HandleSort | frontend/src/pages/WorkProgress.tsx:162-165 | the sorting becomes `NextSorting` of the old one |
| WorkProgressPage.Screen.OpenModal | frontend/src/pages/WorkProgress.tsx:174-189 | the modal opens on the plan with its status, no error and the quantities for its status |
| WorkProgressPage.Screen.CloseModal | frontend/src/pages/WorkProgress.tsx:191-194 | the modal closes and no plan is selected |
| WorkProgressPage.Screen.HandleModalStatusChange | frontend/src/pages/WorkProgress.tsx:386 | the modal's status becomes the chosen one |
| WorkProgressPage.Screen.HandleQuantityChange | frontend/src/pages/WorkProgress.tsx:196-205 | the quantities become `EditQuantities` of the old ones |
| WorkProgressPage.Screen.HandleProgressSubmit | frontend/src/pages/WorkProgress.tsx:207-231 | nothing is sent without a plan or a status; another status is sent alone; a COMPLETED report is sent with its counts or refused with the check's message |
| WorkProgressPage.Screen.FinishProgress | frontend/src/pages/WorkProgress.tsx:232-244 | success closes the modal; a failure or a rejection shows its message and leaves the modal open |

## Left out

- Network I/O, timers (`setTimeout`, the polling interval), `BroadcastChannel`, the camera and the QR decoder: the fetch answers are parameters of the page methods, and the scanned text is an input.
- `alert` pop-ups (ProductionPlan, QualityMasterCreation, DataImport): their text is not part of the page state. The `window.confirm` dialogs guard only the delete handlers left out below.
- Floating point: quantities are integers, and `Math.round` of the import percentage is computed exactly on rationals.
- Date parsing and formatting: times are integers of seconds in the server's current time zone, and a `__date` lookup compares their day (`Common.DayOf`). Reading a date or a date-time text is a function parameter: `readDate` for the bounds Django converts as dates, `readDateTime` for `parse_datetime`. Other dates of the pages are opaque text.
- InventoryViews.InventoryList: only which rows are listed is stated; the rows keep the table's order, and `order_by("part_number", "warehouse", "location")` (backend/src/inventory/rest_views.py:98) is not modelled.
- InventoryViews.ByLocation: only which rows are listed is stated; `order_by("part_number")` (backend/src/inventory/rest_views.py:111-113) is not modelled.
- InventoryViews.PurchaseOrderList: only which orders are listed is stated; the order by expected arrival with nulls last, then by order number (backend/src/inventory/rest_views.py:263-265), is not modelled.
- InventoryViews.SalesOrderList: only which orders are listed is stated; `order_by("expected_shipment", "order_number")` (backend/src/inventory/rest_views.py:431) is not modelled.
- InventoryViews.MovementList: only which movements are listed is stated; `order_by("-movement_date", "part_number")` (backend/src/inventory/rest_views.py:489) is not modelled.
- ProductionViews.PlanList: only which plans are listed is stated; the `OrderingFilter` (the `ordering` parameter over five fields, newest planned start first by default, backend/src/production/rest_views.py:51-59) is not modelled.
- ProductionViews.PlanList: `parse_datetime` raises `ValueError` (a 500) on a text that has the shape of a date-time but is not a real one, such as "2024-02-30T00:00"; the model takes every text `readDateTime` refuses as a bound that is not applied.
- BaseTasks.CellOf: a date cell is kept as its text and the format that read it, not as the stored value. `DateTimeField` is a subclass of `DateField`, so the `isinstance` test of backend/src/base/tasks.py:87-88 holds for date-time fields too and the time of a date-time cell is dropped; the model does not show that loss.
- Common.IntegerText: Python's `int` also accepts digit separators such as "1_000", and JavaScript's `Number` also reads "1.0" and "1e3" as whole numbers; the model refuses all three.
- Celery and file storage: the import task's row loop is modelled, but queueing, the worker revoke inside `cancel_task` and storing the uploaded file are not.
- Python `exec` and `re.match`: abstract functions. Script compilation, a script's result and a pattern's match are parameters.
- `normalize_email`, `authenticate`, `check_password` and password hashing: function parameters.
- `decodeURIComponent` of the template file name in DataImport: the name is taken as already decoded.
- Case folding beyond ASCII in the mobile user-agent test: only ASCII letters are folded.
- JSON text of request and response bodies: bodies are records of values, not text. The shelf QR text is the exception and is written out in full.
- DRF pagination internals: a page is given as its `results`, `count` and `next`/`previous` links.
- ProtectedRoute, Header, SideMenu, LoginPage and VersionModal are not part of this model.
- Handlers that only flip one boolean or copy one input into state (modal show/hide toggles, plain text inputs) are left out where no rule depends on them.
- GoodsReceipt and InventoryInquiry `handleSearch`: they only refetch with the current inputs, which the fetch methods model.
- QualityMasterCreation `handleDelete` and QrCodeActionSettings `fetchActions`/`handleDelete`: each is one request followed by a refetch, with no rule of its own.
- InventoryViewSet `adjust` (a 501 placeholder) and PurchaseOrderViewSet `distinct_values` (a plain `values_list(...).distinct()` query).
- The `form_data` action of the quality views: it only serialises an item and its details.
- An allocation item that is not a dictionary: the source fails with `AttributeError` (500); the model takes every item as a record.
- DataImportPage handlers: their `requires KnownType(t)` holds because only the cards of known types call them; `fetchListData` also accepts the empty type.
- Common.ParseInt: its own contract only says that a number needs a digit in the text; the exact reading is stated by `Common.ParseIntOfIntToString` and by the concrete lemmas of the pages that use it.
- BaseTasks.ImportJob.Finish: the soft time limit is taken to fire between two rows (the `limit` parameter of `ImportJob.Run`), where it rolls back and records "タイムアウトしました。" like any other exception. A limit firing inside a row, or during the checks before the rows (which records the same message), is not modelled.
- GoodsReceiptPage.NoUpperBound: the browser's own constraint validation of the quantity input (`required min="1" max={remaining}`, frontend/src/pages/GoodsReceipt.tsx:397, in the form of lines 380-412) is not modelled. A browser that enforces it never submits a quantity above what remains, so the lemma is about the submit handler alone.
- HTML constraint validation in general (`required`, `min`, `max`, `pattern` on form inputs): the page methods model the handlers, which run only once the browser lets the form submit.
- Json.NumField: reads only JSON numbers. A JavaScript comparison would turn `null` into 0 and a numeric string into its number; the model treats both as absent.
- QualityMasterPage.DetailValue: a fractional number input such as "1.5" is taken as null, while `Number` gives 1.5; values are integers in this model.
- Common.IsSpace: covers the ASCII whitespace, U+00A0 and U+3000 only. The other Unicode spaces that `str.strip()` and `trim()` remove (U+1680, U+2000 to U+200A, U+2028, U+2029, U+202F, U+205F, and U+FEFF for `trim`) are not modelled.
- BaseApi.MappingErrorsEmptyIff: a row with a truthy `is_active` and an explicit null `csv_header` makes `.strip()` raise (a 500, backend/src/base/api.py:245); the model reads the null header as "" and skips the row.
- QualityViews.RecordResult: `decode` gives `None` both for a text `json.loads` rejects and for JSON that is not a list of objects. The source answers the first with the malformed-payload message; the second fails inside the loop and gets the generic 400 "検査結果の登録中にエラーが発生しました。" (backend/src/quality/rest_views.py:176-181).
- WorkProgressPage.CurrentPage: `new URL(...)` of the next or previous link (frontend/src/pages/WorkProgress.tsx:111,114) throws on a relative link. DRF's pagination links are absolute, so the model reads them as parsed.
- The `partial` default of `update` in the quality views (backend/src/quality/rest_views.py:55) is not a member of its own. PUT and PATCH both update only the fields sent, which is how `QualityStore.UpdateItem` takes its `attrs`.

## Findings

| source | as written | input that shows it | evidently intended | confidence | as-written member | corrected member |
|---|---|---|---|---|---|---|
| frontend/src/pages/ProductionPlan.tsx:76-91 | the current page is read from the previous link's `page` parameter plus one; DRF's link to page 1 carries no `page` parameter, so `parseInt(null) + 1` is NaN | on page 2 of 2 the previous link has no `page`, and the current page shows as NaN | the current page is the page that was asked for (2) | not executed | ProductionPlanPage.SecondLastPageShowsNaN | ProductionPlanPage.PageShownIsCurrent |
| frontend/src/components/quality/InspectionResultModal.tsx:100-103 | the error text is `Object.values(errors).flat().join('; ')`, and the backend's `errors` can be a plain string | `errors` = "ab" shows "a; b" | the string itself is shown | not executed | InspectionResultForm.TextErrorsSpelledOut | InspectionResultForm.ErrorDetails |
| frontend/src/pages/mobile/MobileLocationTransferPage.tsx:238-250 | the legacy `updateFields` branch declares its own `let handled`, shadowing the outer flag, so the default setter still runs with the raw text | a result `{updateFields: {sourceLocation: "A-01"}}` with no action and a default setter applies the field and then also calls the setter with the scanned text | one effect per scan: the fields are applied and the setter is not called | not executed | MobileLocationTransfer.LegacyPathAlsoCallsSetter | MobileLocationTransfer.IntendedIsOneOutcome |
| backend/src/base/admin.py:25-35 | with configured list columns `get_list_display` calls `self.get_list_editable(request)`, which neither the mixin nor Django's `ModelAdmin` defines, so it raises `AttributeError` | one display setting with `is_list_display` for `csv_column_mapping` makes the CSV-mapping admin's change list fail | the configured columns completed by the admin's `list_editable` | not executed | BaseAdmin.ConfiguredCsvMappingAdminRaises | BaseAdmin.ListDisplayCoversEditable |
