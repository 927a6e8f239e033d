# Support-ticket app: a verified model of its data layer

This project models the logic of a small React support-ticket application in Dafny and proves
properties of that model. Tickets carry a name, surname, company, email, description, priority
("high", "medium" or "low") and a creation time. The model covers:

- **Import.** The validation pipeline turns parsed CSV or JSON records into an import preview
  (`ImportUtils`): the field checks, row numbering, ticket building, the preview counters, format
  dispatch and format detection. On top of it sit the file-upload check and progress state
  (`FileUpload`) and the three-step import wizard (`ImportDialog`).
- **Forms.** `FormValidation` is the generic rule-based validator; `TicketForm` is the ticket
  form with its fixed rule table.
- **Ticket collections.**
  - the storage-backed list hook (`LocalTickets`);
  - the mock server array, changed in place (`MockApi`);
  - the query cache with its optimistic create/update/delete, priority, bulk import and bulk update
    mutations, each with a snapshot, rollback on error and invalidation on settle (`QueryCache`,
    `TicketApi`, `PriorityMutation`, `TicketImport`).
- **Export.** The CSV column projection, the priority histogram, the JSON document and file names
  (`ExportUtils`), and the export hook with its flags (`TicketExport`).
- **List views.** The search filter, the direction-aware sort and the sort-button state machine
  (`SearchSort`); the paginated list (`PaginatedList`); the three priority columns
  (`PriorityColumns`) with their drop rule and card numbering (`PriorityColumnView`).
- **Small state machines.** The drag-and-drop state (`DragDrop`) and the app's view and
  selection (`App`).

Code that updates state in the source is modelled as classes whose methods state the whole new
state, often through a specification function whose properties are proved as lemmas. The CSV and
JSON record processors, the histogram `reduce` and the progress loop are methods with loops proved
against those functions. Pure code is modelled as functions and lemmas. Shared building blocks live
in `Text` (trim, ASCII lower case, `includes`, `split`), `Seqs` (filter, map), `Types`,
`Constants` and `Wrappers`.

The clock is a parameter: `Date.now()` is a number and `new Date().toISOString()` is a string.
Converting a record's `createdAt` is a parameter function that may fail with the message it throws.
The creation-time order and `localeCompare` are given as integer keys (`SearchSort.Orders`).

## Model

| member | source | states |
|---|---|---|
| ImportUtils.ValidateEmail | src/utils/importUtils.ts:10-12 | the check holds exactly when the address matches the email pattern: one '@' with text before it, a dot strictly inside the domain part, no whitespace |
| ImportUtils.ValidPriorityNormalizes | src/utils/importUtils.ts:14-24 | a priority that validates has no outer whitespace, so normalising it only lower-cases it |
| ImportUtils.ValidatePriority | src/utils/importUtils.ts:14-16 | the check does not trim: a priority that passes is non-empty and neither starts nor ends with whitespace |
| ImportUtils.NormalizePriority | src/utils/importUtils.ts:18-24 | the result is always a priority level: the trimmed, lower-cased input when that is a level, otherwise "medium" |
| ImportUtils.PaddedPriorityRejectedButNormalized | src/utils/importUtils.ts:14-24 | a level with leading whitespace fails validation, which does not trim, although normalising it, which trims, gives the level |
| ImportUtils.AcceptedIffFilledAndFormatted | src/utils/importUtils.ts:55-121 | a record passes the CSV field checks exactly when every field is filled in and the email and priority are well formed |
| ImportUtils.CsvFieldErrors | src/utils/importUtils.ts:55-121 | each field yields at most one error, carrying the row number and the field, and none exactly when the field is accepted |
| ImportUtils.CsvErrorsFor | src/utils/importUtils.ts:55-121 | over distinct fields: at most one error per field, each numbered with the row and naming a checked field, and none exactly when every field is accepted |
| ImportUtils.CsvRowErrors | src/utils/importUtils.ts:51-121 | a CSV record yields at most six errors, one per field at most, all on its row number, and none exactly when the record is valid |
| ImportUtils.CsvErrorsOfField | src/utils/importUtils.ts:55-121 | the errors about one field are exactly that field's own check |
| ImportUtils.CsvInvalidEmailSingleError | src/utils/importUtils.ts:82-96 | a filled but malformed email gives exactly one email error, "Invalid email format" |
| ImportUtils.JsonRequiredErrors | src/utils/importUtils.ts:189-200 | each blank field yields its "<Field> is required" error on the record's row; none exactly when all are filled |
| ImportUtils.JsonFormatErrors | src/utils/importUtils.ts:202-220 | an error for a truthy email that is malformed and one for a truthy priority that is not a level; none exactly when both are fine |
| ImportUtils.JsonRowErrors | src/utils/importUtils.ts:186-220 | a JSON record yields at most eight errors on its row number, none exactly when it is valid |
| ImportUtils.LeadingSpaceEmailInvalid | src/utils/importUtils.ts:10-12 | an address starting with whitespace is malformed, since validation does not trim |
| ImportUtils.EmailRequiredMessage | src/utils/importUtils.ts:196 | the capitalised message for the email field is "Email is required" |
| ImportUtils.JsonBlankEmailTwoErrors | src/utils/importUtils.ts:192-210 | a whitespace-only email is reported twice, as required and as malformed, unlike in CSV |
| ImportUtils.GeneratedIdsDistinct | src/utils/importUtils.ts:126 | ids generated in one pass for different indices differ |
| ImportUtils.TicketOf | src/utils/importUtils.ts:125-134 | a built ticket has the given id and time stamp and a normalised priority level |
| ImportUtils.BuildTicket | src/utils/importUtils.ts:124-135 | building fails exactly when converting the record's time stamp throws; otherwise the ticket has the record's id or a generated one, the converted time and a priority level |
| ImportUtils.FilledFieldTrims | src/utils/importUtils.ts:127-131 | a filled field's stored text is its trimmed value: non-empty and without outer whitespace |
| ImportUtils.ImportedTicketFields | src/utils/importUtils.ts:123-134 | a ticket built from a valid record has all five text fields non-empty and the lower-cased priority of the record |
| ImportUtils.RowNumber | src/utils/importUtils.ts:51 | the row number is the index plus 2 for CSV and plus 1 for JSON |
| ImportUtils.RowErrors | src/utils/importUtils.ts:51-121 | the errors of a record are empty exactly when it is valid, and all carry its row number |
| ImportUtils.Fold | src/utils/importUtils.ts:50-139 | a pass that completes keeps at most one ticket per record |
| ImportUtils.Accepted | src/utils/importUtils.ts:124 | the accepted indices are in increasing order, each passes its checks, and every index that passes is among them |
| ImportUtils.FoldTickets | src/utils/importUtils.ts:123-138 | the k-th imported ticket is the one built from the k-th accepted record, so tickets keep the records' order |
| ImportUtils.FoldErrors | src/utils/importUtils.ts:136-138 | the errors of a completed pass are the errors of the rejected records in order |
| ImportUtils.AllErrorsNumbered | src/utils/importUtils.ts:51 | every collected error carries a row number within the range of the records |
| ImportUtils.FoldErrorsNumbered | src/utils/importUtils.ts:51 | every error of a completed pass carries a row number within the range of the records |
| ImportUtils.FoldFails | src/utils/importUtils.ts:123-138 | a pass throws exactly when some accepted record fails to build |
| ImportUtils.PrefixFailurePersists | src/utils/importUtils.ts:50 | once a prefix of the records throws, the whole pass throws the same error |
| ImportUtils.ProcessRowsErrorRows | src/utils/importUtils.ts:51 | every error of a completed pass is numbered between the first and the last record's row number |
| ImportUtils.HandlersNumberRows | src/utils/importUtils.ts:51 | the checks number each error with its record's index plus the format's first row number |
| ImportUtils.RowErrorsNumbered | src/utils/importUtils.ts:51 | a record's errors all carry its index plus the format's first row number |
| ImportUtils.AcceptedAreValidRows | src/utils/importUtils.ts:124 | the records turned into tickets are exactly the valid ones |
| ImportUtils.BuiltTicketImported | src/utils/importUtils.ts:125-134 | a ticket built from a valid record carries the record's trimmed fields, its normalised priority and its id or a generated one |
| ImportUtils.ImportedTickets | src/utils/importUtils.ts:46-148 | in a completed pass there is one ticket per valid record, in order, each with its record's trimmed text fields, its id or a generated one, and its lower-cased level |
| ImportUtils.ProcessRowsFailsOnBadDate | src/utils/importUtils.ts:133 | a pass throws exactly when some valid record has a time stamp the date conversion rejects |
| ImportUtils.ProcessRecords | src/utils/importUtils.ts:141-147 | the preview counts all records, the tickets made and the errors collected |
| ImportUtils.ProcessCSVData | src/utils/importUtils.ts:46-148 | the CSV preview is the pass over the records, and its errors are numbered from 2 up to the record count plus 1 |
| ImportUtils.ProcessJSONData | src/utils/importUtils.ts:173-247 | a document without a tickets array gives one error with no row and empty counts; otherwise errors are numbered from 1 up to the record count |
| ImportUtils.ImportFromFile | src/utils/importUtils.ts:249-258 | CSV parses then processes, a parser error reading "CSV parsing failed: "; JSON fails with "Failed to read file" when the file cannot be read and with "JSON parsing failed: " when parsing or processing throws, and otherwise gives the processed preview; any other format fails with "Unsupported import format: " |
| ImportUtils.DetectFileFormat | src/utils/importUtils.ts:260-271 | a "csv" or "json" extension decides, in any letter case; otherwise the MIME type decides; otherwise detection fails with its fixed message |
| ImportUtils.ExtensionOverridesMime | src/utils/importUtils.ts:263-264 | with a known extension the MIME type plays no part |
| FormValidation.MinLengthMessage | src/hooks/useFormValidation.ts:20 | the length message is never empty, so a failed length check always counts as an error |
| FormValidation.FirstFailureOfThree | src/hooks/useFormValidation.ts:14-31 | the checks run in the order required, minimum length, email, and the first failing one supplies the message |
| FormValidation.ValidateField | src/hooks/useFormValidation.ts:14-31 | the message is that of the first failing check on the trimmed value, and it is empty exactly when the value passes every rule |
| FormValidation.ErrorMapBy | src/hooks/useFormValidation.ts:38-53 | every field whose rules fail is a key of the error map, and no recorded message is empty |
| FormValidation.ErrorMapKeysFail | src/hooks/useFormValidation.ts:41-49 | every key of the error map is a field whose rules fail |
| FormValidation.ErrorMapMessages | src/hooks/useFormValidation.ts:45-48 | with distinct field names, the message stored for a failing field is the one its validation produced |
| FormValidation.ErrorMapByEmpty | src/hooks/useFormValidation.ts:38-53 | the error map is empty exactly when no field with rules fails |
| FormValidation.ErrorMapEmptyIffAllPass | src/hooks/useFormValidation.ts:38-53 | validation returns true exactly when every field with rules passes them; fields without rules are skipped |
| FormValidation.FormValidator.constructor | src/hooks/useFormValidation.ts:33-36 | the validator starts with its rules and no errors |
| FormValidation.FormValidator.Validate | src/hooks/useFormValidation.ts:38-53 | the stored errors become the error map of the form, and the result is true exactly when that map is empty |
| FormValidation.FormValidator.ClearErrors | src/hooks/useFormValidation.ts:55 | the errors are emptied |
| TicketForm.RequiredOnlyPasses | src/hooks/useTicketForm.ts:16-18 | a required-only field passes exactly when its trimmed value is non-empty |
| TicketForm.EmailRulesPass | src/hooks/useTicketForm.ts:19 | the email field passes exactly when its trimmed value is non-empty and matches the email pattern |
| TicketForm.DescriptionRulesPass | src/hooks/useTicketForm.ts:20 | the description passes exactly when its trimmed value has at least 10 characters |
| TicketForm.TablePassesIff | src/hooks/useTicketForm.ts:15-21 | the rule table passes exactly when each of its five fields passes its own rules |
| TicketForm.TicketFormValidIff | src/hooks/useTicketForm.ts:15-21 | the ticket form validates exactly when name, surname and company are filled, the email is well formed and the description has at least 10 characters after trimming |
| TicketForm.BlankDescriptionIsRequired | src/hooks/useFormValidation.ts:15-21 | a blank description reports "Required", never the length message |
| TicketForm.DescriptionLengthBoundary | src/hooks/useFormValidation.ts:19-21 | a trimmed description of 10 characters passes; one of 9 reports "Must be at least 10 characters" |
| TicketForm.TicketForm.constructor | src/hooks/useTicketForm.ts:12-21 | the form starts with the initial data and no errors |
| TicketForm.TicketForm.HandleChange | src/hooks/useTicketForm.ts:23-27 | only the named field takes the new value |
| TicketForm.TicketForm.ResetForm | src/hooks/useTicketForm.ts:29-32 | the form returns to the five empty fields and the errors are cleared |
| TicketForm.TicketForm.UpdateForm | src/hooks/useTicketForm.ts:34-36 | the given fields override the form, the others are kept |
| TicketForm.TicketForm.Validate | src/hooks/useTicketForm.ts:15-21 | the errors become the ticket form's error map, and the result is true exactly when the form is acceptable |
| LocalTickets.LoadTickets | src/hooks/useTickets.ts:4-11 | a missing or empty stored value, or one that fails to parse, loads as the empty list; otherwise the parsed list is loaded |
| LocalTickets.AddedTickets | src/hooks/useTickets.ts:22-29 | adding prepends exactly one ticket carrying the new id, the creation time and the submitted data; the old list follows unchanged |
| LocalTickets.UpdatedTickets | src/hooks/useTickets.ts:31-39 | every ticket whose id matches takes the new data, keeping its id and creation time; every other ticket is unchanged; the length is kept |
| LocalTickets.UpdateAbsentIdIsNoop | src/hooks/useTickets.ts:31-39 | updating an id no ticket has leaves the list as it was |
| LocalTickets.DeletedTickets | src/hooks/useTickets.ts:41-43 | a ticket survives deletion exactly when it was present and its id differs from the deleted id |
| LocalTickets.DeleteKeepsOrder | src/hooks/useTickets.ts:41-43 | deletion distributes over concatenation, so the survivors keep their relative order |
| LocalTickets.DeleteAbsentIdIsNoop | src/hooks/useTickets.ts:41-43 | deleting an id no ticket has leaves the list as it was |
| LocalTickets.DeleteUndoesAdd | src/hooks/useTickets.ts:22-43 | adding a ticket under a fresh id and then deleting that id restores the original list |
| LocalTickets.TicketStore.constructor | src/hooks/useTickets.ts:13-14 | the store starts with the list loaded from storage |
| LocalTickets.TicketStore.AddTicket | src/hooks/useTickets.ts:22-29 | the new list is the added list of the old one |
| LocalTickets.TicketStore.UpdateTicket | src/hooks/useTickets.ts:31-39 | the new list is the updated list of the old one |
| LocalTickets.TicketStore.DeleteTicket | src/hooks/useTickets.ts:41-43 | the new list is the old one without the tickets carrying the id |
| App.UpdatedSelection | src/App.tsx:28-32 | the open ticket takes the new data only when its id is the one updated; no selection stays no selection |
| App.SelectionFollowsStore | src/App.tsx:25-33 | after an update the open ticket equals the updated copy held in the store |
| App.DeletedTicketStaysOpen | src/App.tsx:35-37 | deleting the open ticket removes it from the store but does not clear the selection |
| App.AppState.constructor | src/App.tsx:11-13 | the app starts on the form view with no ticket selected |
| App.AppState.DetailShown | src/App.tsx:68-75 | the detail view is rendered only when the detail view is chosen and a ticket is open |
| App.AppState.HandleAdd | src/App.tsx:15-18 | the ticket is added to the store and the list view is shown, so no detail is rendered |
| App.AppState.HandleTicketClick | src/App.tsx:20-23 | the clicked ticket becomes the selection and the detail view is shown |
| App.AppState.HandleTicketUpdate | src/App.tsx:25-33 | the store is updated, the selection follows the update, the view is unchanged, and the detail stays rendered exactly when it was |
| App.AppState.HandleTicketDelete | src/App.tsx:35-37 | only the store changes |
| App.AppState.HandleCloseDetail | src/App.tsx:39-42 | the selection is cleared and the list view is shown, so the detail pane is hidden |
| App.AppState.SetView | src/App.tsx:49-60 | the menu buttons switch the view and leave the selection alone; the detail is then rendered only if that view is chosen with a ticket open |
| DragDrop.DraggingIffTicket | src/context/DragDropContext.tsx:12-25 | every sequence of start, stop and drag-over events preserves "dragging exactly when a ticket is held" |
| DragDrop.DraggingIffTicketFromStart | src/context/DragDropContext.tsx:8-25 | from the initial state, dragging holds exactly when a ticket is held, whatever the events |
| DragDrop.DragDropState.constructor | src/context/DragDropContext.tsx:8-10 | nothing is dragged, nothing is hovered, not dragging |
| DragDrop.DragDropState.StartDragging | src/context/DragDropContext.tsx:12-15 | the ticket is held and dragging is on; the hovered column is untouched |
| DragDrop.DragDropState.StopDragging | src/context/DragDropContext.tsx:17-21 | all three fields are reset |
| DragDrop.DragDropState.SetDraggedOver | src/context/DragDropContext.tsx:23-25 | only the hovered column changes |
| DragDrop.UseDragDrop | src/context/DragDropContext.tsx:43-48 | outside a provider the hook fails with its fixed message; inside it returns the provider's state |
| MockApi.FirstIndexOf | src/services/api.ts:103 | the index found is the first ticket carrying the id; none is found exactly when no ticket carries it |
| MockApi.NewServerTicket | src/services/api.ts:84-89 | a created ticket keeps the submitted fields, gets a clock-derived id and creation time, and always gets "medium" priority |
| MockApi.ServerIdsDistinct | src/services/api.ts:86 | ids made at different milliseconds differ |
| MockApi.RemoveAt | src/services/api.ts:143 | removing one index shifts the later tickets down by one and keeps the earlier ones |
| MockApi.WithPriority | src/services/api.ts:125-128 | only the priority changes |
| MockApi.MockTicketStore.constructor |  src/services/api.ts:16-67 | the store starts with the given seed list |
| MockApi.MockTicketStore.GetTickets | src/services/api.ts:71-77 | returns the stored list |
| MockApi.MockTicketStore.FindIndex | src/services/api.ts:103 | returns the first index with the id, or -1 |
| MockApi.MockTicketStore.CreateTicket | src/services/api.ts:80-94 | the new ticket is appended and returned |
| MockApi.MockTicketStore.UpdateTicket | src/services/api.ts:97-111 | an unknown id fails with "Ticket not found" and changes nothing; otherwise the first match is merged with the patch, stored and returned |
| MockApi.MockTicketStore.UpdateTicketPriority | src/services/api.ts:114-131 | an unknown id fails with "Ticket not found" and changes nothing; otherwise the first match gets the new priority |
| MockApi.MockTicketStore.DeleteTicket | src/services/api.ts:134-145 | an unknown id fails and changes nothing; otherwise exactly the first match is removed |
| MockApi.DeleteRemovesOnlyFirst | src/services/api.ts:138-143 | a later ticket with the same id survives the deletion |
| QueryCache.TicketQueryCache.constructor | src/hooks/useTicketApi.ts:49-56 | the cache entry starts with the given list and is fresh |
| QueryCache.TicketQueryCache.GetQueryData | src/hooks/useTicketApi.ts:20-23 | the snapshot is the cached list, absent before the first fetch |
| QueryCache.TicketQueryCache.SetQueryData | src/hooks/useTicketApi.ts:28 | the cached list is replaced; staleness is untouched |
| QueryCache.TicketQueryCache.Invalidate | src/hooks/useTicketApi.ts:33-35 | the entry becomes stale and its data is kept |
| QueryCache.RollbackOnError | src/hooks/useTicketApi.ts:26-30 | a snapshot in the context is written back; without one the cache is left as it is |
| QueryCache.InvalidateAndRefetch | src/hooks/useTicketApi.ts:33-35 | the entry is marked stale, data unchanged |
| TicketApi.TempIdIsNotServerId | src/hooks/useTicketApi.ts:71 | an optimistic "temp-" id never equals an id the server makes, whatever the two clock readings |
| TicketApi.OptimisticCreate | src/hooks/useTicketApi.ts:69-78 | the optimistic ticket, with a temporary id and the current time, is put in front of the cached list (an absent list counts as empty) |
| TicketApi.OptimisticUpdate | src/hooks/useTicketApi.ts:105-109 | every cached ticket carrying the id is merged with the patch; the others and the length are kept |
| TicketApi.EmptyPatchIsNoop | src/hooks/useTicketApi.ts:105-109 | an update with an empty patch leaves the cached list as it was |
| TicketApi.OptimisticDelete | src/hooks/useTicketApi.ts:135-137 | a cached ticket survives exactly when its id differs from the deleted one |
| TicketApi.OptimisticDeleteKeepsOrder | src/hooks/useTicketApi.ts:135-137 | the delete distributes over concatenation, so the survivors keep their cached order and every copy of a surviving ticket is kept |
| TicketApi.DeleteUndoesCreate | src/hooks/useTicketApi.ts:65-81 | deleting the temporary id right after an optimistic create restores the list before it |
| TicketApi.OnMutate | src/hooks/useTicketApi.ts:65-81 | the context holds the previous list (or the empty list) and the cache holds the optimistic list |
| TicketApi.RunMutation | src/hooks/useTicketApi.ts:82-86 | on success the optimistic list remains; on failure the snapshot, the empty list when the cache was empty, is restored; the entry is always invalidated |
| PriorityMutation.OptimisticPriority | src/hooks/useTicketPriorityMutation.ts:20-25 | an absent cache stays absent; otherwise every ticket carrying the id takes the new priority and every other ticket is unchanged |
| PriorityMutation.OptimisticPriorityKeepsOtherFields | src/hooks/useTicketPriorityMutation.ts:22-24 | the optimistic change touches no field but the priority |
| PriorityMutation.OptimisticPriorityIdempotent | src/hooks/useTicketPriorityMutation.ts:20-25 | applying the same priority change twice is the same as once |
| PriorityMutation.OnMutate | src/hooks/useTicketPriorityMutation.ts:12-28 | the context holds the previous cache value and the cache holds the optimistic list |
| PriorityMutation.RunPriorityMutation | src/hooks/useTicketPriorityMutation.ts:30-41 | on success the optimistic list remains; on failure the previous value is back (an absent one restores nothing, which leaves it absent); the entry is always invalidated |
| TicketImport.TicketsToImport | src/hooks/useTicketImport.ts:16-26 | every duplicate policy sends the tickets unchanged |
| TicketImport.ImportOnMutate | src/hooks/useTicketImport.ts:31-39 | the bulk import snapshots the cache and changes nothing |
| TicketImport.RunBulkImport | src/hooks/useTicketImport.ts:31-56 | success or failure, the cached list ends as it was, and it is invalidated |
| TicketImport.FindUpdate | src/hooks/useTicketImport.ts:78 | the entry found carries the id; none is found exactly when no entry carries it |
| TicketImport.FirstUpdateWins | src/hooks/useTicketImport.ts:78 | when several entries carry the id, the first one is found |
| TicketImport.OptimisticBulkUpdate | src/hooks/useTicketImport.ts:75-81 | an absent cache stays absent; the length is kept and a ticket with no entry is unchanged |
| TicketImport.BulkUpdateUsesFirstPatch | src/hooks/useTicketImport.ts:77-80 | a ticket is merged with the patch of the first entry carrying its id |
| TicketImport.UpdateOnMutate | src/hooks/useTicketImport.ts:67-84 | the context holds the previous cache value and the cache holds the optimistic list |
| TicketImport.RunBulkUpdate | src/hooks/useTicketImport.ts:67-101 | on success the optimistic list remains; on failure the previous value is back; the entry is always invalidated |
| ExportUtils.CsvRecordOf | src/utils/exportUtils.ts:6-15 | a ticket's CSV record has the eight columns in the fixed order id, name, surname, company, email, description, priority, createdAt |
| ExportUtils.CsvRecordRoundTrip | src/utils/exportUtils.ts:6-15 | reading the eight values back from a ticket's record gives the ticket, so no field is lost or swapped |
| ExportUtils.CsvRecords | src/utils/exportUtils.ts:6-15 | one record per ticket, in list order |
| ExportUtils.Count | src/utils/exportUtils.ts:28-31 | the number of tickets with a priority is at most the list's length |
| ExportUtils.CountOccurs | src/utils/exportUtils.ts:28-31 | a priority's count is positive exactly when some ticket has it |
| ExportUtils.DistributionCounts | src/utils/exportUtils.ts:28-31 | the distribution has a key exactly for each priority some ticket has, and maps it to the number of such tickets |
| ExportUtils.Keys | src/utils/exportUtils.ts:28-31 | the keys in first-seen order are distinct |
| ExportUtils.KeysOccur | src/utils/exportUtils.ts:28-31 | the keys listed are exactly the priorities that occur |
| ExportUtils.DistributionTotals | src/utils/exportUtils.ts:28-38 | the distribution's counts add up to the total number of tickets |
| ExportUtils.KeysAreDistributionKeys | src/utils/exportUtils.ts:28-31 | the keys listed are exactly the keys of the distribution |
| ExportUtils.DistributionAppend | src/utils/exportUtils.ts:28-31 | one more ticket adds one to the count of its priority, starting a missing count at 0 |
| ExportUtils.PriorityDistribution | src/utils/exportUtils.ts:28-31 | the reduce loop computes the distribution |
| ExportUtils.JsonExport | src/utils/exportUtils.ts:33-41 | the document holds the tickets, the export date and version "1.0"; metadata is present exactly when asked for, with the ticket count and the distribution |
| ExportUtils.BaseName | src/utils/exportUtils.ts:24 | an empty or missing file name falls back to "tickets"; any other is kept |
| ExportUtils.ExportTickets | src/utils/exportUtils.ts:63-74 | "csv" and "json" produce a download named base name, dot, format, with the CSV records or the JSON document and its MIME type; any other format fails with "Unsupported export format: " and the format |
| ExportUtils.ExtensionAppendedTwice | src/utils/exportUtils.ts:24 | a CSV file name that already ends in ".csv" gets a second ".csv" |
| ExportUtils.GenerateDefaultFilename | src/utils/exportUtils.ts:76-79 | the default name starts with "tickets_" and ends with a dot and the format |
| ExportUtils.BeforeFirstOfSplit | src/utils/exportUtils.ts:77 | the first part of splitting at 'T' is the text before the first 'T' |
| ExportUtils.DefaultFilenameOfIso | src/utils/exportUtils.ts:76-79 | for an ISO time stamp the default name is "tickets_", the date part, a dot and the format |
| TicketExport.EffectiveOptions | src/hooks/useTicketExport.ts:24-27 | the format and metadata flag are kept; an empty or missing file name is replaced by the default name for the format, a given one is kept |
| TicketExport.ExportOutcome | src/hooks/useTicketExport.ts:17-42 | an empty list fails with "No tickets to export"; an unknown format fails with the unsupported-format message; success reports the effective file name, the format and the ticket count, with a download whose name is that file name plus the extension |
| TicketExport.DefaultCsvNameGetsExtensionTwice | src/hooks/useTicketExport.ts:24-37 | with no file name a CSV export reports "tickets_" plus the date plus ".csv", while the file it writes ends in ".csv.csv" |
| TicketExport.TicketExporter.constructor | src/hooks/useTicketExport.ts:7-8 | not exporting, no error |
| TicketExport.TicketExporter.ExportTicketData | src/hooks/useTicketExport.ts:10-46 | success returns the result and the download and clears the error; failure returns the message, writes no file and records the message; exporting ends off in both cases |
| TicketExport.TicketExporter.ExportToCSV | src/hooks/useTicketExport.ts:48-54 | a CSV export without metadata: on success the result and the file of the general export with the error cleared; on failure (an empty list gives "No tickets to export") that failure, no file, and the message recorded as the error |
| TicketExport.TicketExporter.ExportToJSON | src/hooks/useTicketExport.ts:56-66 | a JSON export whose metadata flag defaults to true: on success the result and the file of the general export with the error cleared; on failure (an empty list gives "No tickets to export") that failure, no file, and the message recorded as the error |
| TicketExport.TicketExporter.ClearError | src/hooks/useTicketExport.ts:68-70 | the error is cleared and nothing else changes |
| SearchSort.SearchFilter | src/hooks/useTicketSearchSort.ts:16-25 | a blank query keeps the list; otherwise a ticket is kept exactly when its lower-cased name, surname, email or full name contains the trimmed, lower-cased query; the result is a sub-multiset of the input |
| SearchSort.CompanyIsNotSearched | src/hooks/useTicketSearchSort.ts:19-24 | a query found only in the company does not match |
| SearchSort.SortTickets | src/hooks/useTicketSearchSort.ts:27-44 | the result is sorted on the signed key of the chosen field and direction, and is a permutation of the input |
| SearchSort.SortOrder | src/hooks/useTicketSearchSort.ts:31-43 | ascending order puts smaller field keys first; descending puts larger ones first |
| SearchSort.SearchAndSort | src/hooks/useTicketSearchSort.ts:13-45 | the result is sorted, is a permutation of the filtered list, holds only input tickets, and is a permutation of the whole input when the query is blank |
| SearchSort.NextSort | src/hooks/useTicketSearchSort.ts:54-63 | the clicked field becomes the sort field; clicking the current field flips the direction; a new field starts descending for the date and ascending otherwise |
| SearchSort.NextSortTwiceIsIdentity | src/hooks/useTicketSearchSort.ts:55-57 | clicking the current field twice restores the direction |
| SearchSort.SortHandlers.constructor | src/hooks/useTicketSearchSort.ts:48-53 | the handlers start from the given field and direction |
| SearchSort.SortHandlers.HandleSort | src/hooks/useTicketSearchSort.ts:54-63 | the new field and direction are those of the click transition |
| PaginatedList.ClampIndex | src/components/PaginatedTicketList.tsx:73 | a slice bound is clamped into the list |
| PaginatedList.JsSlice | src/components/PaginatedTicketList.tsx:73 | a slice is never longer than the list, holds only its elements, and for ordered bounds is the clamped sub-range |
| PaginatedList.PageOf | src/components/PaginatedTicketList.tsx:70-74 | a page holds at most 20 tickets of the list, and page p is the clamped range from (p-1)*20 to p*20 |
| PaginatedList.TotalPages | src/components/PaginatedTicketList.tsx:76-78 | the page count is the ceiling of n/20: the least count whose pages hold n tickets |
| PaginatedList.PagesUpToPrefix | src/components/PaginatedTicketList.tsx:70-78 | the first k pages together are the list's prefix of k*20 tickets, clamped |
| PaginatedList.PagesCoverList | src/components/PaginatedTicketList.tsx:70-78 | the pages up to the page count, put together, are the whole list |
| PaginatedList.PageBeyondLastIsEmpty | src/components/PaginatedTicketList.tsx:70-74 | a page past the last one shows nothing |
| PaginatedList.ShowingRange | src/components/PaginatedTicketList.tsx:137-139 | the "showing" note appears exactly above 20 tickets, starts at (page-1)*20+1 and ends at the lesser of page*20 and the count |
| PaginatedList.ShowingRangeMatchesPage | src/components/PaginatedTicketList.tsx:70-74 | for a page in range, the note's range has as many numbers as the page has tickets |
| PaginatedList.PaginationIffRange | src/components/PaginatedTicketList.tsx:250 | the pager is shown exactly when the "showing" note is |
| PaginatedList.IndexOf | src/components/PaginatedTicketList.tsx:202 | the index is that of the first equal ticket, and -1 exactly when there is none |
| PaginatedList.CardNumber | src/components/PaginatedTicketList.tsx:202 | a card's `#n` is 0 for a ticket not in the unfiltered list, and otherwise the position, from 1, of the first equal ticket in it |
| PaginatedList.TicketListView.constructor | src/components/PaginatedTicketList.tsx:31-34 | no search, sorted by date descending, on page one |
| PaginatedList.TicketListView.Listed | src/components/PaginatedTicketList.tsx:36-68 | the listed tickets are sorted, are a permutation of the filtered tickets, and are all input tickets |
| PaginatedList.TicketListView.Shown | src/components/PaginatedTicketList.tsx:70-74 | at most 20 tickets are shown, each from the list and each numbered between 1 and the list's length |
| PaginatedList.TicketListView.HandleSort | src/components/PaginatedTicketList.tsx:80-90 | the sort follows the click transition and the page returns to one |
| PaginatedList.TicketListView.HandlePageChange | src/components/PaginatedTicketList.tsx:92-95 | only the page changes |
| PaginatedList.TicketListView.HandleSearchChange | src/components/PaginatedTicketList.tsx:97-100 | the query is replaced and the page returns to one; the sort is kept |
| PriorityColumns.LevelName | src/types/dragDrop.ts:3 | every level's name is one of the priority levels |
| PriorityColumns.LevelNamesArePriorityLevels | src/hooks/useTicketPriority.ts:10 | the columns' levels, in order, are "high", "medium", "low" |
| PriorityColumns.Titles | src/hooks/useTicketPriority.ts:14 | the column titles are "High Priority", "Medium Priority" and "Low Priority" |
| PriorityColumns.IconsDistinct | src/hooks/useTicketPriority.ts:15 | the three columns have different icons |
| PriorityColumns.PriorityColumnsOf | src/hooks/useTicketPriority.ts:9-23 | there are three columns in the order high, medium, low, each with its title and icon, and a column holds exactly the tickets whose priority is its level, in list order |
| PriorityColumns.ColumnsPartitionTickets | src/hooks/useTicketPriority.ts:21 | when every priority is a known level, the columns together hold every ticket exactly once |
| PriorityColumns.UnknownPriorityIsHidden | src/hooks/useTicketPriority.ts:21 | a ticket whose priority is not a known level appears in no column |
| PriorityColumnView.DropFor | src/components/PriorityColumn.tsx:42-44 | a drop is reported exactly when a ticket is dragged and its priority differs from the column's, and it names the ticket, its old priority and the column |
| PriorityColumnView.IsDraggedOver | src/components/PriorityColumn.tsx:27 | a column is highlighted exactly when the hovered priority's name equals the column's |
| PriorityColumnView.HighlightsOneColumn | src/components/PriorityColumn.tsx:27 | on the three-column board no column is highlighted without a hover, and exactly one, the hovered one, with it |
| PriorityColumnView.DropChangesPriority | src/components/PriorityColumn.tsx:42-44 | a reported drop always moves the ticket to a different priority |
| PriorityColumnView.DropOnOwnColumnIsIgnored | src/components/PriorityColumn.tsx:42-44 | dropping a ticket on its own column reports nothing |
| PriorityColumnView.HandleDragOver | src/components/PriorityColumn.tsx:27-32 | the column becomes the hovered one; the dragged ticket and the dragging flag are kept |
| PriorityColumnView.HandleDragLeave | src/components/PriorityColumn.tsx:34-36 | no column is hovered; the dragged ticket and the dragging flag are kept |
| PriorityColumnView.HandleDrop | src/components/PriorityColumn.tsx:38-46 | the drop reported is the one for the ticket dragged before, and the drag state is back to its initial value |
| PriorityColumnView.ColumnCardNumbers | src/components/PriorityColumn.tsx:105-109 | each card is numbered by its position in the column, from 1 |
| PriorityColumnView.ColumnNumbersAreOneToN | src/components/PriorityColumn.tsx:105-109 | the numbers in a column run strictly upwards between 1 and the column's length |
| FileUpload.DottedExtensionShape | src/hooks/useFileUpload.ts:23 | the extension tested is a dot followed by the lower-cased text after the name's last dot, or the whole lower-cased name when it has no dot |
| FileUpload.ValidateFileIff | src/hooks/useFileUpload.ts:16-29 | a file passes exactly when it is at most 10 MB and its MIME type or its extension is supported; the size is checked first and reports the size message, then the type message |
| FileUpload.ValidateFile | src/hooks/useFileUpload.ts:16-29 | every rejection carries a non-empty message, so the upload's `if (validationError)` check always sees it |
| FileUpload.SizeLimitBoundary | src/constants/index.ts:6 | a file of exactly 10 MB is accepted and one byte more is refused |
| FileUpload.UpperCaseExtensionAccepted | src/hooks/useFileUpload.ts:23-24 | "DATA.CSV" with no MIME type passes, because the extension is lower-cased |
| FileUpload.UpperCaseExtension | src/hooks/useFileUpload.ts:23 | the extension of "DATA.CSV" is ".csv" |
| FileUpload.UpperCaseSegment | src/hooks/useFileUpload.ts:23 | the last dot-separated part of "DATA.CSV" is "CSV" |
| FileUpload.ProgressSteps | src/hooks/useFileUpload.ts:48-51 | the progress loop reports 0, 10, 20, … in steps of ten |
| FileUpload.FullProgressClimbs | src/hooks/useFileUpload.ts:48-51 | the eleven reports run strictly upwards from 0 to 100 |
| FileUpload.FileUploadState.constructor | src/hooks/useFileUpload.ts:8-14 | not uploading, progress 0, no error, no file |
| FileUpload.FileUploadState.UploadFile | src/hooks/useFileUpload.ts:31-67 | the file's name and size are recorded and uploading ends; an invalid file fails with its validation message, progress 0 and that error; a valid one is returned after progress 0 to 100, with no error |
| FileUpload.FileUploadState.SimulateProgress | src/hooks/useFileUpload.ts:48-51 | the loop reports the eleven steps and ends at 100, touching nothing else |
| FileUpload.FileUploadState.ResetUpload | src/hooks/useFileUpload.ts:69-77 | the state returns to its initial value |
| ImportDialog.ImportWizard.constructor | src/components/ImportDialog.tsx:55-63 | step 0, no preview, not importing, no error, options CSV with skipped duplicates and no validate-only |
| ImportDialog.ImportWizard.HandleFileSelect | src/components/ImportDialog.tsx:67-79 | an undetected format records its message and changes nothing else; a detected one is stored in the options; a load that fails records its message; one that succeeds stores the preview, moves to step 1 and clears the error |
| ImportDialog.ImportWizard.ApplySelection | src/components/ImportDialog.tsx:69-78 | the same transitions, given the detection's verdict |
| ImportDialog.ImportWizard.HandleImport | src/components/ImportDialog.tsx:81-95 | without a preview nothing happens; otherwise the preview's tickets and the options are handed on, success moves to step 2 with no error, failure records the message, and importing ends off |
| ImportDialog.ImportWizard.ImportEnabled | src/components/ImportDialog.tsx:294 | the Import button is enabled only with a preview and no import running, so a click always hands tickets on; for a preview whose valid-row count is its ticket count, enabled exactly when there is a ticket to import |
| ImportDialog.ImportWizard.GoBack | src/components/ImportDialog.tsx:286 | only the step changes, back to 0 |
| ImportDialog.ImportWizard.HandleClose | src/components/ImportDialog.tsx:97-103 | step 0, no preview, no error, not importing; the options are kept |
| ImportDialog.ListedErrors | src/components/ImportDialog.tsx:154 | at most five errors are listed, they are the first ones, and all are listed when there are at most five |
| ImportDialog.MoreErrorsNote | src/components/ImportDialog.tsx:159-163 | the "more errors" note appears exactly when there are more than five errors |
| ImportDialog.ErrorListAccountsForAll | src/components/ImportDialog.tsx:154-163 | the listed errors plus the number the note gives equal the total, and the note's number is the unlisted count |
| ImportDialog.ErrorLineShape | src/components/ImportDialog.tsx:156 | each line ends with the error's message and starts with "Row " when the error has a positive row |
| Text.TrimStart | src/hooks/useFormValidation.ts:15 | the result is a suffix of the input, only whitespace is removed, and it does not start with whitespace |
| Text.TrimEnd | src/hooks/useFormValidation.ts:15 | the result is a prefix of the input, only whitespace is removed, and it does not end with whitespace |
| Text.Trim | src/hooks/useFormValidation.ts:15 | `trim()` is empty exactly for all-whitespace input, and otherwise has no whitespace at either end |
| Text.BlankIffTrimEmpty | src/utils/importUtils.ts:55 | a string is all whitespace exactly when its trim is empty |
| Text.TrimNoop | src/utils/importUtils.ts:19 | a string without outer whitespace trims to itself |
| Text.LowerCharWhitespace | src/utils/importUtils.ts:19 | lower-casing neither creates nor removes whitespace |
| Text.ToLower | src/utils/importUtils.ts:15 | `toLowerCase()` keeps the length and lower-cases each character |
| Text.ToLowerKeepsNonUpper | src/utils/importUtils.ts:15 | a string with no upper-case letter is its own lower case |
| Text.Includes | src/hooks/useTicketSearchSort.ts:20-23 | `includes` holds exactly when the query occurs at some position |
| Text.LastSegment | src/hooks/useFileUpload.ts:23 | `split(sep).pop()` is the suffix after the last separator, or the whole string when there is none |
| Text.LastSegmentAfter | src/utils/importUtils.ts:261 | whatever precedes the last separator, the last segment is the text after it |
| Text.BeforeFirst | src/utils/exportUtils.ts:77 | `split(sep)[0]` is the prefix before the first separator, or the whole string |
| Text.NatToString | src/components/ImportDialog.tsx:161 | a number's decimal text is a non-empty run of digits |
| Text.NatToStringInjective | src/components/ImportDialog.tsx:156 | different numbers print differently |
| Seqs.Filter | src/hooks/useTickets.ts:42 | `filter` keeps exactly the elements satisfying the test, in order, never more than the input holds |
| Seqs.FilterConcat | src/hooks/useTickets.ts:42 | filtering distributes over concatenation |
| Seqs.FilterKeepsAll | src/hooks/useTickets.ts:42 | a filter every element passes returns the input |
| Seqs.FilterDropsAll | src/hooks/useTicketPriority.ts:21 | a filter no element passes returns the empty list |
| Seqs.FilterPartition3 | src/hooks/useTicketPriority.ts:21 | three filters that sort every element into exactly one of them split the input: their results together are a permutation of it |
| Seqs.MapWhere | src/hooks/useTickets.ts:33-37 | a `map` that rewrites the selected elements keeps the length and leaves the others alone |

## Left out

- The CSV tokenizer and `JSON.parse`, with the file reading around them: the processors start from parsed records, and a parser or reader failure arrives as its message.
- JSON values that are not strings (numbers, booleans, nested objects in a record): a record maps field names to strings, and an absent key stands for `undefined` or `null`.
- JSON records that are not objects: an element of `tickets` that is `null` or a primitive makes the read of `ticketData[field]` throw, so the whole import fails with "JSON parsing failed: ..." (src/utils/importUtils.ts:160-161, 190-191); a record here is a map of fields and cannot be such a value.
- Dates: `Date.now()`, `toISOString()` and `new Date(s)` are parameters, and `getTime` and `localeCompare` are integer keys; time zones and locales are not modelled.
- `toLowerCase` and `toUpperCase` are modelled on ASCII letters only; other characters are left unchanged.
- SearchSort.SortTickets: the order it gives tickets with equal keys is not stated, and the source's sort is stable, so only "sorted and a permutation" is proved.
- `indexOf` for card numbers compares tickets by value, whereas the source compares object references; two equal tickets get the same number here.
- react-query itself: the cache is one entry with a stale flag, `cancelQueries` and the refetch after invalidation are not modelled, and the success or failure of the server call is a parameter. Concurrent mutations are not modelled.
- The bulk import and bulk update server calls are not defined in the source; their outcome is a parameter.
- The mock server's seed tickets are a constructor parameter. `getTickets` returns the array itself, so later changes show through it; the model returns a copy of the sequence.
- Saving the ticket list to storage after every change and `JSON.stringify` of it are not modelled; loading takes the stored text and a parse function as parameters.
- Simulated delays and timers (`setTimeout`), `window.scrollTo`, console logging.
- FileUpload.TooLargeMessage: the size with two decimals (`toFixed(2)`) is a parameter function, since floating point is not modelled.
- FileUpload.FileUploadState.UploadFile: only the final state is stated; the intermediate writes are recorded in a ghost progress log.
- The import wizard's `onImport` and file loading, and the export download, are parameters or results: `downloadFile`, `Papa.unparse` quoting and `JSON.stringify` formatting stop at the records, the document, the file name and the MIME type.
- ExportUtils.Count and ExportUtils.Keys: their own contracts state bounds and distinctness only; the counts and keys are tied to the tickets by ExportUtils.CountOccurs, ExportUtils.DistributionCounts and ExportUtils.KeysOccur.
- Rendering, styling and theme, `useDebounce`, keyboard navigation and the axios instance, which the mock never uses.
- The `minLength` rule is a natural number; a negative or fractional minimum is not modelled.
- FormValidation.ValidateField, TicketForm.DescriptionRulesPass, TicketForm.DescriptionLengthBoundary and TicketForm.TicketFormValidIff: a length is counted in Unicode characters, whereas JavaScript's `length` counts UTF-16 code units. A character outside the Basic Multilingual Plane counts once here and twice in the source, so a description of five emoji fails the 10-character minimum here but passes it in the source (src/hooks/useFormValidation.ts:19).
- ImportUtils.ProcessRecords, ImportUtils.Fold and ImportUtils.GeneratedIdsDistinct: one clock reading serves the whole pass, whereas the source reads `Date.now()` and `new Date()` again for each accepted record (src/utils/importUtils.ts:126, 133, 225, 232). Every generated id and default `createdAt` of one pass therefore shares one instant here, and generated ids differ by their index alone.
- ExportUtils.DistributionCounts and ExportUtils.DistributionTotals: the histogram is a map from priority strings, whereas the source counts into a plain object (src/utils/exportUtils.ts:28-31). For a priority that names an `Object.prototype` member, such as `"__proto__"` (never stored as a key) or `"toString"` (the count becomes string concatenation), these contracts do not describe the source.
