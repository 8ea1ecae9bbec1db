# Invoice-collection dashboard: a verified model of its in-memory core

The dashboard manages automated communication processes. Each process has a
status (not started, in progress, completed), a pause flag, a progress
counter against a total, messages, and optionally the invoice rows it works
through. This project models the part of the dashboard that is plain
sequential computation and proves what it does:

- **Editable invoice table** (`EditableTable`). It is a class with the
  working copy `tableData`, the snapshot `originalData` and the dirty flag
  `hasChanges`. It also records the rows passed to `onDataChange` and the
  number of `onSave` calls. Edits, added rows and deletions all go to the
  working copy, and discard restores the snapshot (`EditThenDiscard`). Inside
  the card, every reported change comes back as a new snapshot, so discard
  keeps cell edits and deletions there (see Findings). The
  amount cell's `parseFloat(value) || 0` is modelled in euro cents, with a
  round-trip lemma.
- **Process lifecycle**. The processes page (`ProcessesPage`) updates its
  list locally. The dashboard (`Dashboard`) sends each change through the
  simulated persistence service (`Api`). Each reply is applied to the list.
  The service's defaults, its record merge and its NotFound error are stated
  exactly.
- **Process card** (`AgentCard`). It covers the displayed total and
  percentage, the effect that reports a new invoice count upward, title
  editing, and the status badge and card accent.
- **Upload widget** (`FileUpload`). It covers the type and size check and
  the selection, upload-guard and cancel state.
- **Filters and partitions**. These are the kanban columns (`KanbanBoard`),
  the page filters (`ProcessesPage`, `CommunicationPage`) and the metric
  counts.
- **Route guard** (`Middleware`). It covers which paths are protected and
  whether a request passes or is redirected to `/login`.

Two support modules hold shared pieces. `Seqs` is the order-preserving
`filter`, with subsequence, membership and multiset lemmas. `Text` holds the
string operations the code calls, over ASCII: `toLowerCase`, `includes`,
`startsWith`, `lastIndexOf` and `substring`, plus the digit reading used by
`parseInt` and `parseFloat`. `Types` holds the records of `lib/types.ts` and
the invoice row, plus the id-keyed `map`, `filter` and `find` shapes that
every handler is built from.

Each awaited call in the dashboard is an input `Result`: the reply, or the
error it threw. Each handler returns the update it sends, so its reply can
be taken from `Api.UpdateProcess` to follow a whole interaction. Clocks,
`Math.random` and `Date.now` do not appear as such. Timestamps, the random
part of row ids and process ids are all parameters.

Where the code and the intended design differ, the model follows the code:

- The table's initialise effect does not reset `hasChanges`.
- Add row and discard do not call `onDataChange`.
- No start, pause or complete handler checks the current status. The
  buttons are only offered in the fitting state, but the handlers
  themselves would, for example, restart a completed process
  (`ProcessesPage.StartSpec`).
- The processes page computes each row's percentage without a zero guard.
  At a total of 0 it is NaN; the model returns `None` there
  (`ProcessesPage.ListPercent`). The card's percentage is guarded
  (`AgentCard.ProgressPercent`).

## Model

| member | source | states |
|---|---|---|
| Types.UpdateWhereId | components/processes-page.tsx:90-95 | `map` by id: same length, processes with the id replaced by `f` of themselves, all others unchanged |
| Types.ReplaceWhereId | components/dashboard.tsx:57 | every process with the id is replaced by the given record, every other one kept, length kept |
| Types.RemoveIdSpec | components/processes-page.tsx:110 | removal by id keeps the others in order (subsequence), keeps exactly those without the id, and keeps each one's number of occurrences |
| Types.FindById | services/api.ts:16 | `find`: none exactly when no process has the id; otherwise the first one with the id |
| Text.LastIndexOf | components/file-upload.tsx:46 | -1 exactly when the character is absent; otherwise its last position |
| Text.LastIndexOfToLower | components/file-upload.tsx:46 | lower-casing does not move the last dot, so taking the extension and lower-casing can be done in either order |
| Text.EmptySearchMatches | components/processes-page.tsx:43 | every name contains the empty search term |
| Api.MergeOverridesPresentKeys | services/api.ts:52 | the object spread overrides exactly the keys present in the update and keeps every other field; an empty update changes nothing |
| Api.MergeThen | services/api.ts:52 | two spreads in a row equal one spread of the combined update |
| Api.FetchProcessById | services/api.ts:14-18 | `find`: the first stored process with the id, and null exactly when no stored process has it |
| Api.CreateProcess | services/api.ts:20-42 | the new record is not started, with progress 0, not paused and no messages; an empty name gives "Neuer Prozess", a zero or missing total gives 5, a missing or empty target date gives the week-ahead default and any other is kept |
| Api.UpdateProcess | services/api.ts:44-61 | fails with NotFound(id) exactly when no stored process has the id; otherwise returns the first such record merged with the updates |
| Api.UpdatesDoNotAccumulate | services/api.ts:47-52 | any later update starts again from the fixture record, whatever was updated before |
| Api.DeleteProcess | services/api.ts:63-72 | answers true for every id |
| Api.FetchMessages | services/api.ts:75-80 | the messages of the first process with the id, or empty when there is none |
| Api.AddMessage | services/api.ts:82-101 | the message carries the given sender and content and the supplied time |
| Api.UpdateAndStore | services/api.ts:44-61 | corrected service: same reply as `updateProcess`, and the merged record is written back in place of the process with the id |
| Api.CreateAndStore | services/api.ts:20-42 | corrected service: same record as `createProcess`, appended to the store |
| Api.StoredUpdatesAccumulate | services/api.ts:47-60 | with write-back, a second update is merged on top of the first |
| Api.FindFirstAt | services/api.ts:47 | `find` returns the process at the first position holding the id |
| Api.CreatedThenUpdatable | services/api.ts:20-61 | with write-back, a process just created can be updated |
| KanbanBoard.ColumnSpec | components/kanban-board.tsx:32-34 | a column holds exactly the processes of its status, in input order |
| KanbanBoard.ColumnsPartition | components/kanban-board.tsx:32-34 | the three columns together are a permutation of the input (multiset equality) |
| KanbanBoard.ExactlyOneColumn | components/kanban-board.tsx:32-34 | a process is in a column exactly when the column's status is its status |
| KanbanBoard.ColumnSizesSum | components/kanban-board.tsx:32-34 | the column lengths add up to the number of processes |
| Middleware.Decide | middleware.ts:18-24 | redirect exactly when the path is protected and the user is not authenticated; the redirect goes to /login with `from` = the path |
| Middleware.EveryRequestPasses | middleware.ts:7-24 | with the constant authentication flag every request passes |
| Middleware.UnprotectedPasses | middleware.ts:18-24 | an unprotected path passes whatever the authentication state |
| Middleware.ProtectedPathSpec | middleware.ts:10-15 | protected exactly when the path equals /prozesse, /kommunikation or /konfiguration, or lies below one of them |
| Middleware.SegmentMatching | middleware.ts:13-15 | /prozessefoo, / and /login are not protected; /prozesse/42 and /konfiguration are |
| AgentCard.CurrentTotalItems | components/agent-card.tsx:81 | the invoice count when there are rows, the process's total otherwise |
| AgentCard.RoundRatio | components/agent-card.tsx:82 | the integer nearest to n/d, halves rounded up (the bounds of `Math.round`) |
| AgentCard.ProgressPercent | components/agent-card.tsx:82 | 0 for a total that is not positive; otherwise progress/total as a rounded percentage |
| AgentCard.PercentInRange | components/agent-card.tsx:82 | for 0 ≤ progress ≤ total the percentage is within [0, 100], and exactly 100 when progress = total > 0 |
| AgentCard.PercentExamples | components/agent-card.tsx:82 | 3 of 4 is 75, 1 of 3 is 33, 2 of 3 is 67, an empty process is 0 |
| AgentCard.StatusBadge | components/agent-card.tsx:149-179 | completed ⇔ "Abgeschlossen", not started ⇔ "Nicht gestartet" (pause ignored), in progress ⇔ "Pausiert" or "Aktiv" by the pause flag |
| AgentCard.CardAccent | components/agent-card.tsx:181-188 | green ⇔ completed, orange ⇔ in progress and paused, blue ⇔ in progress and running, amber ⇔ not started |
| AgentCard.BadgeMatchesAccent | components/agent-card.tsx:149-188 | two cards have the same badge exactly when they have the same accent |
| AgentCard.Card.constructor | components/agent-card.tsx:74-77 | the editor is closed, the edited title is the prop title, the rows are the prop rows, the remembered length is their count |
| AgentCard.Card.Display | components/agent-card.tsx:81-82 | the card shows the effective total and its guarded percentage, which is within [0, 100] when progress is within the total |
| AgentCard.Card.ReplaceInvoiceData | components/agent-card.tsx:129-135 | an upload, a table change or a new prop replaces the rows wholesale and nothing else |
| AgentCard.Card.InvoicePropEffect | components/agent-card.tsx:90-92 | the rows become the prop exactly when the prop is a new object; nothing else changes |
| AgentCard.UploadThenRenderFreshDefault | components/agent-card.tsx:64-92 | as written: without the prop, the fresh `[]` default wipes uploaded rows at the next render, so the start is not offered and a start would send no rows |
| AgentCard.UploadThenRenderStableDefault | components/agent-card.tsx:129-131 | corrected: with a default that keeps its identity, uploaded rows survive the next render, a not-started card offers the start, and the start sends those rows |
| AgentCard.Card.ReportTotalEffect | components/agent-card.tsx:94-105 | reports (id, progress, count) exactly when a callback exists and the count differs from both the remembered count and the total; the remembered count changes only then; afterwards the effect would not fire again |
| AgentCard.Card.TitleClick | components/agent-card.tsx:107-111 | opens the editor unless the process is completed |
| AgentCard.Card.TitleChange | components/agent-card.tsx:75 | the edited title follows the input |
| AgentCard.Card.TitleSave | components/agent-card.tsx:113-118 | closes the editor and passes the title to `onEdit` only when it changed |
| AgentCard.Card.TitleKeyDown | components/agent-card.tsx:120-127 | Enter saves; Escape restores the prop title and closes without reporting; other keys change nothing |
| AgentCard.Card.InvoiceDataRequest | components/agent-card.tsx:137-147 | with a callback, it receives the card's id and current rows; without one, nothing |
| FileUpload.Extension | components/file-upload.tsx:46 | without a dot, the whole name lower-cased; otherwise the lower-cased suffix that starts at the last dot (a dot with no dot after it) |
| FileUpload.ValidateFile | components/file-upload.tsx:44-57 | accepted ⇔ allowed type (MIME or extension) and size ≤ 5 MiB; a bad type is reported as such, a good type over the cap as too large |
| FileUpload.AllowedMimeIgnoresName | components/file-upload.tsx:44-45 | with an allowed MIME type only the size decides |
| FileUpload.NoDotRejected | components/file-upload.tsx:46-50 | without an allowed MIME type a name without a dot is rejected as a bad type |
| FileUpload.ExtensionCaseInsensitive | components/file-upload.tsx:46-47 | names that differ only in letter case get the same verdict |
| FileUpload.SizeBoundary | components/file-upload.tsx:52-55 | exactly 5 MiB is accepted, one byte more is too large |
| FileUpload.TypeCheckedFirst | components/file-upload.tsx:45-55 | a bad type that is also too large reports the type error |
| FileUpload.UpperCaseExtensionAccepted | components/file-upload.tsx:46-47 | "Rechnungen.CSV" is accepted without a MIME type |
| FileUpload.LastDotCounts | components/file-upload.tsx:46 | "q3.final.xlsx" is accepted: only the part after the last dot counts |
| FileUpload.InnerExtensionIgnored | components/file-upload.tsx:46-49 | "daten.xlsx.pdf" is rejected |
| FileUpload.OversizedCsvRejected | components/file-upload.tsx:52-55 | a 6.5 MiB CSV is too large |
| FileUpload.Choose | components/file-upload.tsx:59-84 | only the first file counts; a valid one becomes the selection with no error, an invalid one keeps the previous selection and sets its message; no file keeps the selection |
| FileUpload.Uploader.constructor | components/file-upload.tsx:17-22 | nothing selected, not dragging, not uploading, progress 0, no messages |
| FileUpload.Uploader.HandleDrop | components/file-upload.tsx:59-72 | dragging ends, success is cleared, selection and error are those of `Choose` |
| FileUpload.Uploader.HandleFileChange | components/file-upload.tsx:74-84 | success is cleared, selection and error are those of `Choose` |
| FileUpload.Uploader.BeginUpload | components/file-upload.tsx:86-91 | starts exactly when a file is selected, then uploading with progress 0 and no error; otherwise nothing changes |
| FileUpload.Uploader.HandleCancel | components/file-upload.tsx:125-129 | file, error and success are all cleared |
| FileUpload.Uploader.SetDragging | components/file-upload.tsx:32-42 | drag over sets, drag leave clears the dragging flag |
| EditableTable.AmountFromInput | components/editable-table.tsx:173 | unparsable input (NaN) is stored as 0; otherwise the parsed amount |
| EditableTable.NoDigitIsZero | components/editable-table.tsx:173 | any input without a digit stores 0 |
| EditableTable.CentsRoundTrip | components/editable-table.tsx:168-173 | the `toFixed(2)` rendering of an amount, typed into the number input, parses back to that amount |
| EditableTable.UnparsableExamples | components/editable-table.tsx:173 | "", "abc" and "-" store 0 |
| EditableTable.DecimalExample | components/editable-table.tsx:173 | "12.50" stores 1250 cents |
| EditableTable.WithRowIds | components/editable-table.tsx:41-44 | same rows in the same order; every id is non-empty; a non-empty id is kept, a missing or empty one becomes a generated "row-" id; no other field changes |
| EditableTable.SetCell | components/editable-table.tsx:52 | the named field gets the value and every other field is kept |
| EditableTable.ChangeCell | components/editable-table.tsx:50-55 | same length and order; rows with the id get the cell value, other rows are unchanged; with no matching row the rows are unchanged |
| EditableTable.BlankRow | components/editable-table.tsx:63-70 | a generated id, empty phone and invoice number, amount 0, new and editing |
| EditableTable.RemoveRowsSpec | components/editable-table.tsx:77 | deletion keeps the other rows in order with their multiplicities, drops exactly the rows with the id, and changes nothing for an absent id |
| EditableTable.InvoiceTable.constructor | components/editable-table.tsx:34-37 | empty working copy and snapshot, not dirty |
| EditableTable.InvoiceTable.Initialize | components/editable-table.tsx:39-47 | working copy and snapshot both become the rows with ids filled in; the dirty flag is not touched |
| EditableTable.InvoiceTable.HandleCellChange | components/editable-table.tsx:49-60 | the cell edit is applied, the table is dirty even when no row matched, and the new rows are reported |
| EditableTable.InvoiceTable.HandleAddRow | components/editable-table.tsx:62-74 | exactly one blank row is appended, the table is dirty, nothing is reported; a fresh suffix gives the new row an id no other row has |
| EditableTable.InvoiceTable.HandleDeleteRow | components/editable-table.tsx:76-81 | the rows with the id are removed, the table is dirty, the new rows are reported |
| EditableTable.InvoiceTable.HandleSaveChanges | components/editable-table.tsx:83-88 | the snapshot becomes the working copy, not dirty, `onSave` called once when given |
| EditableTable.InvoiceTable.HandleDiscardChanges | components/editable-table.tsx:90-93 | the working copy becomes the snapshot, not dirty, snapshot unchanged, nothing reported |
| EditableTable.InvoiceTable.Apply | components/editable-table.tsx:49-81 | one edit changes the working copy as `Step` says, keeps the snapshot, and marks dirty |
| EditableTable.EditThenDiscard | components/editable-table.tsx:83-93 | any run of edits followed by discard restores the snapshot of the last save or initialisation, clean, with the snapshot unchanged |
| EditableTable.EditSaveDiscard | components/editable-table.tsx:83-93 | after edits and a save, the snapshot is the edited rows and a discard changes nothing |
| EditableTable.IdentifiedRowsKeepIds | components/editable-table.tsx:39-47 | rows that all carry an id come out of the initialise effect unchanged |
| EditableTable.EditEchoedThenDiscard | components/agent-card.tsx:133-135 | as written: a cell edit echoed back by the card as the table's new `data` re-runs the initialise effect, so the following discard keeps the edited rows |
| EditableTable.EchoedEditExample | components/editable-table.tsx:49-60 | one edited amount makes the rows differ from the snapshot, so the echoed edit is visible after discard |
| ProcessesPage.ParseIntRoundTrip | components/processes-page.tsx:186 | a written whole number reads back as itself |
| ProcessesPage.ParseIntWithoutDigits | components/processes-page.tsx:186 | a field without digits reads as NaN |
| ProcessesPage.DefaultTotal | components/processes-page.tsx:72 | NaN and 0 give 5; every other value is kept; the result is never 0 |
| ProcessesPage.NewProcess | components/processes-page.tsx:67-78 | the new process has the given id and times, the name or "Neuer Prozess", the defaulted total, and is not started, at progress 0, not paused, without messages |
| ProcessesPage.StartSpec | components/processes-page.tsx:89-97 | the processes with the id become in progress with the start date, nothing else changes; no status is checked |
| ProcessesPage.TogglePauseTwice | components/processes-page.tsx:99-107 | pausing twice gives back the list |
| ProcessesPage.TogglePauseSpec | components/processes-page.tsx:99-107 | the pause flag of the processes with the id flips and nothing else changes |
| ProcessesPage.CompleteSpec | components/processes-page.tsx:114-127 | the processes with the id become completed with the date and progress = their own total; nothing else changes |
| ProcessesPage.CompletedShowsFull | components/processes-page.tsx:116-122 | a completed process with a positive total shows 100 per cent in its list row (line 244), which is also what the card's formula gives |
| ProcessesPage.PageFilter | components/processes-page.tsx:41-51 | a process is listed exactly when it matches the search and the status filter |
| ProcessesPage.PageFilterSpec | components/processes-page.tsx:41-51 | the list is a subsequence of the processes, every listed name matches, and a status filter keeps only its status |
| ProcessesPage.UnknownFilterIsAll | components/processes-page.tsx:45-50 | an unrecognised filter value lists the same as "all" |
| ProcessesPage.EmptySearchAllKeepsEverything | components/processes-page.tsx:43-45 | "all" with an empty search lists every process in order |
| ProcessesPage.ColumnList | components/processes-page.tsx:339-340 | a status column lists exactly the processes of that status matching the search |
| ProcessesPage.StatusCounts | components/processes-page.tsx:331 | the three column counts are the status counts and add up to the number of processes |
| ProcessesPage.ListPercent | components/processes-page.tsx:244 | the row percentage is undefined exactly at a zero total |
| ProcessesPage.ListPercentAgreesWithCard | components/processes-page.tsx:244 | for a positive total the row shows the card's percentage; at zero the card shows 0 and the row has none |
| ProcessesPage.Page.constructor | components/processes-page.tsx:29-38 | the initial processes, a blank form (total 5), the dialog closed |
| ProcessesPage.Page.SetTotalItemsText | components/processes-page.tsx:186 | the form's total becomes `parseInt` of the text, nothing else changes |
| ProcessesPage.Page.HandleCreate | components/processes-page.tsx:67-87 | exactly one new process is appended at the end, the form is reset and the dialog closed |
| ProcessesPage.Page.HandleStart | components/processes-page.tsx:89-97 | the list becomes the started list |
| ProcessesPage.Page.HandlePause | components/processes-page.tsx:99-107 | the list becomes the toggled list |
| ProcessesPage.Page.HandleDelete | components/processes-page.tsx:109-112 | the processes with the id are removed |
| ProcessesPage.Page.HandleComplete | components/processes-page.tsx:114-127 | the list becomes the completed list |
| Dashboard.StartTotal | components/dashboard.tsx:53 | the row count when rows were given and there are some, otherwise the process's total, so an empty list does not zero it |
| Dashboard.StartPatch | components/dashboard.tsx:50-55 | sends in progress, the start time, the start total and the rows (the key is present even without rows), and no other key |
| Dashboard.PausePatch | components/dashboard.tsx:76-78 | sends only the flipped pause flag of the process as the caller saw it |
| Dashboard.CompletePatch | components/dashboard.tsx:120-124 | sends only completed, the completion time, and progress = the caller's total |
| Dashboard.SaveInvoicePatch | components/dashboard.tsx:169-172 | sends only the rows and their count, which may be 0 |
| Dashboard.TotalPatch | components/dashboard.tsx:209-211 | sends only the new total |
| Dashboard.ApplyReply | components/dashboard.tsx:57 | on success the returned record replaces the processes with the id and nothing else; on failure the list is unchanged |
| Dashboard.OptimisticTotal | components/dashboard.tsx:192-216 | unknown id or equal total: nothing changes and nothing is sent; otherwise the process's total is set locally and the total is sent |
| Dashboard.OptimisticTotalKept | components/dashboard.tsx:198-211 | the process shows the new total before, and regardless of, the backend's answer |
| Dashboard.Metrics | components/dashboard.tsx:219-222 | active, not-started and completed counts are the status counts and add up to the number of processes |
| Dashboard.StartReply | components/dashboard.tsx:48-57 | against the service, a start answers in progress with the start time, the sent rows (none clears them) and the start total, other fields from the store |
| Dashboard.PauseAfterStartReverts | components/dashboard.tsx:74-80 | as written: pausing a just-started process answers with the store's not-started status and start date |
| Dashboard.PauseAfterStartKeepsStatus | components/dashboard.tsx:74-80 | corrected: with write-back, the pause keeps in progress and the start date and flips the flag |
| Dashboard.PauseAfterSaveReverts | components/dashboard.tsx:164-189 | as written: rows saved on a card come back in the reply, but a later pause answers with the store's rows and total |
| Dashboard.PauseAfterSaveKeepsRows | components/dashboard.tsx:164-189 | corrected: with write-back, the pause keeps the saved rows and their count and flips the flag |
| Dashboard.CreatedProgressReportFails | components/dashboard.tsx:192-216 | as written: a created process's new row count is set locally and sent, and the service answers NotFound for its id |
| Dashboard.CreatedCannotStart | components/dashboard.tsx:143-147 | as written: a created process is unknown to the service, so starting it fails with NotFound and the list is unchanged |
| Dashboard.Board.constructor | components/dashboard.tsx:16-19 | the initial processes, loading |
| Dashboard.Board.Load | components/dashboard.tsx:23-41 | the fetched list replaces the initial one, a failure keeps it, loading ends either way |
| Dashboard.Board.HandleStart | components/dashboard.tsx:48-72 | sends the start update; the list becomes the reply applied |
| Dashboard.Board.HandlePause | components/dashboard.tsx:74-95 | sends the pause update; the list becomes the reply applied |
| Dashboard.Board.HandleComplete | components/dashboard.tsx:118-141 | sends the complete update; the list becomes the reply applied |
| Dashboard.Board.HandleDelete | components/dashboard.tsx:97-116 | the processes with the id are removed only after the service confirms; on failure the list is unchanged |
| Dashboard.Board.HandleCreate | components/dashboard.tsx:143-162 | the created record is appended; on failure the list is unchanged |
| Dashboard.Board.HandleSaveInvoice | components/dashboard.tsx:164-189 | an unknown id sends nothing and changes nothing; otherwise the rows and their count are sent and the reply applied |
| Dashboard.Board.HandleUpdateProgress | components/dashboard.tsx:192-216 | the list and the update sent are those of the optimistic rule |
| CommunicationPage.WithMessages | components/communication-page.tsx:21 | exactly the processes with at least one message |
| CommunicationPage.Filtered | components/communication-page.tsx:24-32 | listed exactly when the process has messages, matches the search and passes the status filter |
| CommunicationPage.FilteredSpec | components/communication-page.tsx:24-32 | the list is a subsequence of the candidates, which are a subsequence of all processes; every listed one has messages and matches; "active" keeps in progress, "completed" keeps completed |
| CommunicationPage.OtherFilterIsAll | components/communication-page.tsx:27-31 | any value other than "active" and "completed" lists the same as "all" |
| CommunicationPage.EmptySearchListsAllCandidates | components/communication-page.tsx:25-27 | "all" with an empty search lists every process with messages |
| CommunicationPage.LastActivityOf | components/communication-page.tsx:107-109 | the last message's timestamp, and no activity exactly when there are no messages |
| CommunicationPage.ListedHaveActivity | components/communication-page.tsx:107-109 | every listed process shows a last activity time |
| CommunicationPage.AppendedMessageIsLast | components/communication-page.tsx:107-109 | after a new message, it is the last activity |

## Left out

- Rendering, styling, dialogs, toasts, console output, collapse and read-only display of the table, the communication page's selected process, and the card's modals are not modelled. They decide nothing about the data.
- The sort of the processes page (`localeCompare`, date parsing, a progress ratio that is NaN at a zero total) is not modelled. The filter is modelled before sorting.
- The upload request, its progress to 100, the success message, `onFileUploaded` and the delayed reset are not modelled. They talk to an external server.
- The `newInteractions` metric is not modelled. It compares message dates with today's date from the clock.
- Simulated latency in the service, and the order in which concurrent handlers' replies arrive, are not modelled. Each dashboard handler applies its reply to the current list, so stale closures are not modelled.
- The fixture list `initialProcesses` is not part of this model. It is the `store` parameter of `Api` and the initial list of the pages.
- `fetchPrioritizedClients` and the prioritized-clients widget are not modelled.
- The Next.js `matcher` configuration is not modelled.
- The `Transport` case of `Api.ApiError` has no counterpart in the service, which only ever fails with NotFound. It stands for any other rejected call that the dashboard's `catch` branches handle.
- EditableTable.AmountFromInput: the amount is read in cents from the decimal form only. Digits after the second fraction digit are cut off rather than kept as a float. Exponents, "Infinity" and other float spellings are not read.
- AgentCard.ProgressPercent: rounding is done on the exact ratio, not on the floating-point quotient times 100.
- ProcessesPage.ListPercent: same exact-ratio rounding; NaN and Infinity at a zero total are both `None`.
- ProcessesPage.NewProcess: the form's date is converted to ISO form by the caller (`targetIso`). The exception `toISOString` throws on an invalid date is not modelled.
- EditableTable.WithRowIds: the random part of a generated id is a caller-supplied suffix. A fresh id is stated as a hypothesis (in `HandleAddRow`), not guaranteed.
- Text.ToLower: lower-casing is ASCII only. Full Unicode case mapping is not modelled.
- AgentCard.Card.TitleSave: `onEdit(id, { title })` is recorded as the title only.
- AgentCard.Card: the props `title`, `status`, `progress`, `totalItems` and `paused` are constants of a card. In the app they can change between renders, and the effect of components/agent-card.tsx:96-105 also re-runs when `progress` or `totalItems` changes. A changed prop is modelled as a new card, so that re-run is not captured. Only the `invoiceData` prop changes within a card (`InvoicePropEffect`).
- React's render loop is not modelled. Each effect is a method the caller invokes, with prop identity as a parameter. The endless re-rendering caused by the fresh `[]` default is stated in prose only (see Findings).

## Findings

| source | as written | input that shows it | evidently intended | confidence | as-written member | corrected member |
|---|---|---|---|---|---|---|
| services/api.ts:44-61 | `updateProcess` merges the updates into the fixture record and never stores the result | on an in-progress fixture card, edit the invoice rows and save them (components/dashboard.tsx:164-189), then pause the process: the pause reply carries the fixture's rows and total, so the saved rows are gone from the list. The same loss hits a start followed by a pause (`PauseAfterStartReverts`), but the start button is masked by the last row of this table | the simulated store keeps each update, so the next one builds on it | medium, not executed | Dashboard.PauseAfterSaveReverts | Dashboard.PauseAfterSaveKeepsRows |
| services/api.ts:20-42 | `createProcess` returns the new record without storing it | create a process on the dashboard, then upload a file on its card: the card reports the new row count (components/agent-card.tsx:96-105), `handleUpdateProgress` (components/dashboard.tsx:192-216) sends it, `updateProcess` finds no such id and throws, and the error is only logged. A start would fail the same way (`CreatedCannotStart`) once the last row of this table is corrected | the created record is stored, so later updates find it | medium, not executed | Dashboard.CreatedProgressReportFails | Api.CreatedThenUpdatable |
| components/agent-card.tsx:133-135 | the card's `onDataChange` handler sets the rows that it passes back to the table as `data` (lines 299-301); the new prop re-runs the table's initialise effect (components/editable-table.tsx:39-47), which snapshots the edited rows | open the invoice table, change one amount, press discard: the changed amount stays | discard restores the rows of the last save or of the card's own data | medium, not executed | EditableTable.EditEchoedThenDiscard | EditableTable.EditThenDiscard |
| components/agent-card.tsx:64 | `invoiceData = []` is a new array at every render of a card given no prop, which the not-started column does (components/not-started-column.tsx:123-141), so the effect at lines 90-92 fires after every render, resets the rows to `[]` and renders again | upload a valid file on a not-started card: the rows are wiped at the next render and "Speichern & Starten" is not offered | the effect fires only for a new prop, so uploaded rows stay until the start | medium, not executed | AgentCard.UploadThenRenderFreshDefault | AgentCard.UploadThenRenderStableDefault |
