# Administrador de personas — a Dafny model of its core

The dashboard keeps employees, vehicles, leave requests and shifts in four in-memory stores.
On top of them sit:

- forms that validate their input with zod schemas and append new records;
- detail screens that approve, reject or change the status of a record;
- dashboard counters;
- a credential (ID-card) pipeline that draws a card on a canvas, turns it into a PDF document and downloads it, one employee at a time or as a batch with progress reporting.

The model covers each part in the form the code has:

- **Stores.** Each store is a class whose list fields are sequences. Its actions reassign them and state the new value and what stays unchanged. Entries are merged and removed by key, as `KeyedLists.MergeWhere` and `KeyedLists.RemoveWhere`.
- **Credentials.** Card drawing works on a `Canvas` class that logs draw operations. The documents are a `PdfDoc` class holding pages. The batch loop is a method with loop invariants, proved against the specification function `Credentials.BatchCredentials`.
- **Generation hook.** The hook is a class over `generating`, `progress` and `error`. Its two operations are described by two-state predicates; the screens that use it hold one and say how their own state changes with it.
- **Schemas.** A schema is a function from the form input to the list of zod issues, in zod's order. An error shown under a field is the first issue on that path. A submit handler is a method that appends to the store only when the issue list is empty.
- **Pure screen logic.** Role gates, offered actions, histories, counters, search and selection are functions with lemmas.

Things that come from outside the program are parameters:

- fresh ids and `new Date().toISOString()` timestamps;
- the current year;
- date parsing (`new Date(s)`, as an `Option<int>` of milliseconds, `None` for an invalid date);
- zod's email pattern;
- `toLowerCase`;
- whether an image loads;
- whether the browser has a 2D canvas context;
- object URLs;
- whether a download click throws.

An image whose `onload` never fires leaves its promise pending forever, because the code installs no `onerror`. The model calls this outcome `Pending`.

Notable behaviours of the code, which the model follows as written:

- **Batch pages.** A batch of N ≥ 1 employees yields 2N pages. The guard `if (i > 0) doc.addPage()` aims at one page per card, but every iteration also calls `addPage` before `addImage`. So every card sits on an odd page (0-based) after a blank page.
- **Empty batch.** An empty batch does not fail. It resolves to the document's single blank page, with no progress calls.
- **Barcode payload.** The batch passes `data:image/svg+xml;base64,` + `btoa(rut)` as the barcode image, not a barcode of the employee's id. `btoa` throws on a RUT with a character above U+00FF, and that rejects the whole batch. The payload decodes to the bare RUT, not SVG markup, and the batch generator does not call `generateBarcode` from src/utils/barcode.ts (only the single-card path of the hook does). If the browser provides a 2D context but refuses to load such an image, every non-empty batch with a Latin-1 first RUT hangs, and `generating` stays true (`CredentialHook.RawRutBarcodeHangs`).
- **Progress.** It is reported as the fraction `(i + 1) / N`. The hook turns it back into `floor(fraction · N)`.
- **Download URL.** It is revoked only on the success path.
- **Batch screen.** `CredentialBatch.handleGenerate` navigates back when the `error` captured at render time was null or empty (`if (!error)`), which is the error before the call. A batch that fails after an earlier success still navigates away.
- **Generator screen.** The "Generar Credencial" button of `CredentialGenerator` only marks the row as downloaded; it generates nothing.
- **Employee form.** Without `initialData` the employee form has nothing registered for the phone, birth date, gender, address, department, position, start date or emergency contact. Every submit is then rejected (`EmployeeForm.BlankFormRejected`).

## Model

| member | source | states |
|---|---|---|
| EmployeeStore.EmployeeStore.constructor | src/store/employeeStore.ts:19-22 | the store starts with no employees, empty filters, not loading and no error |
| EmployeeStore.EmployeeStore.SetEmployees | src/store/employeeStore.ts:23 | the list is replaced by the given one; filters, loading and error are unchanged |
| EmployeeStore.EmployeeStore.AddEmployee | src/store/employeeStore.ts:24-25 | the new employee is appended after the unchanged old list; nothing else changes |
| EmployeeStore.EmployeeStore.UpdateEmployee | src/store/employeeStore.ts:26-31 | every employee with the id has the patch merged in, the others stay in place (via `KeyedLists.MergeWhereAt`); nothing else changes |
| EmployeeStore.EmployeeStore.DeleteEmployee | src/store/employeeStore.ts:32-35 | exactly the employees with the id are removed, the rest keep their order; nothing else changes |
| EmployeeStore.EmployeeStore.SetFilters | src/store/employeeStore.ts:36 | only the filters change |
| EmployeeStore.EmployeeStore.SetLoading | src/store/employeeStore.ts:37 | only the loading flag changes |
| EmployeeStore.EmployeeStore.SetError | src/store/employeeStore.ts:38 | only the error changes |
| VehicleStore.VehicleStore.constructor | src/store/vehicleStore.ts:19-22 | the store starts with no vehicles, empty filters, not loading and no error |
| VehicleStore.VehicleStore.SetVehicles | src/store/vehicleStore.ts:23 | the list is replaced; filters, loading and error are unchanged |
| VehicleStore.VehicleStore.AddVehicle | src/store/vehicleStore.ts:24-25 | the vehicle is appended after the unchanged old list; nothing else changes |
| VehicleStore.VehicleStore.UpdateVehicle | src/store/vehicleStore.ts:26-31 | the patch is merged into exactly the vehicles with the id; length and order are kept; nothing else changes |
| VehicleStore.VehicleStore.DeleteVehicle | src/store/vehicleStore.ts:32-35 | exactly the vehicles with the id are removed, in order; nothing else changes |
| VehicleStore.VehicleStore.SetFilters | src/store/vehicleStore.ts:36 | only the filters change |
| VehicleStore.VehicleStore.SetLoading | src/store/vehicleStore.ts:37 | only the loading flag changes |
| VehicleStore.VehicleStore.SetError | src/store/vehicleStore.ts:38 | only the error changes |
| LeaveStore.LeaveStore.constructor | src/store/leaveStore.ts:21-26 | no requests, no balances, empty filters, not loading, no error |
| LeaveStore.LeaveStore.SetRequests | src/store/leaveStore.ts:27 | the requests are replaced; balances and the rest are unchanged |
| LeaveStore.LeaveStore.AddRequest | src/store/leaveStore.ts:28-29 | one request is appended; balances and the rest are unchanged |
| LeaveStore.LeaveStore.UpdateRequest | src/store/leaveStore.ts:30-35 | the patch is merged into the requests with the id only; balances are unchanged |
| LeaveStore.LeaveStore.DeleteRequest | src/store/leaveStore.ts:36-39 | the requests with the id are removed, the rest in order; balances are unchanged |
| LeaveStore.LeaveStore.SetBalances | src/store/leaveStore.ts:40 | the balances are replaced; requests are unchanged |
| LeaveStore.LeaveStore.UpdateBalance | src/store/leaveStore.ts:41-48 | the patch is merged into the balances keyed by that employee id; requests are unchanged |
| LeaveStore.LeaveStore.SetFilters | src/store/leaveStore.ts:49 | only the filters change |
| LeaveStore.LeaveStore.SetLoading | src/store/leaveStore.ts:50 | only the loading flag changes |
| LeaveStore.LeaveStore.SetError | src/store/leaveStore.ts:51 | only the error changes |
| LeaveStore.UpdateBalanceAt | src/store/leaveStore.ts:41-48 | the merged balance list has the same length, and position i holds the merged balance iff its `employeeId` matches, the old one otherwise |
| ShiftStore.ShiftStore.constructor | src/store/shiftStore.ts:43-49 | empty shifts, templates and change requests, empty filters, not loading, no error |
| ShiftStore.ShiftStore.SetShifts | src/store/shiftStore.ts:51 | shifts are replaced; templates, change requests, filters, loading and error are unchanged |
| ShiftStore.ShiftStore.AddShift | src/store/shiftStore.ts:52-53 | the shift is appended; the other lists and fields are unchanged |
| ShiftStore.ShiftStore.UpdateShift | src/store/shiftStore.ts:54-59 | the patch is merged into the shifts with the id only; the other lists and fields are unchanged |
| ShiftStore.ShiftStore.DeleteShift | src/store/shiftStore.ts:60-63 | the shifts with the id are removed, the rest in order; the other lists and fields are unchanged |
| ShiftStore.ShiftStore.SetTemplates | src/store/shiftStore.ts:65 | templates are replaced; shifts, change requests and the rest are unchanged |
| ShiftStore.ShiftStore.AddTemplate | src/store/shiftStore.ts:66-67 | the template is appended; nothing else changes |
| ShiftStore.ShiftStore.UpdateTemplate | src/store/shiftStore.ts:68-73 | the patch is merged into the templates with the id only; nothing else changes |
| ShiftStore.ShiftStore.DeleteTemplate | src/store/shiftStore.ts:74-77 | the templates with the id are removed, the rest in order; nothing else changes |
| ShiftStore.ShiftStore.SetChangeRequests | src/store/shiftStore.ts:79 | change requests are replaced; nothing else changes |
| ShiftStore.ShiftStore.AddChangeRequest | src/store/shiftStore.ts:80-83 | the change request is appended; nothing else changes |
| ShiftStore.ShiftStore.UpdateChangeRequest | src/store/shiftStore.ts:84-89 | the patch is merged into the change requests with the id only; nothing else changes |
| ShiftStore.ShiftStore.DeleteChangeRequest | src/store/shiftStore.ts:90-95 | the change requests with the id are removed, the rest in order; nothing else changes |
| ShiftStore.ShiftStore.SetFilters | src/store/shiftStore.ts:97 | only the filters change |
| ShiftStore.ShiftStore.SetLoading | src/store/shiftStore.ts:98 | only the loading flag changes |
| ShiftStore.ShiftStore.SetError | src/store/shiftStore.ts:99 | only the error changes |
| ShiftStore.UpdateThenDeleteIsDelete | src/store/shiftStore.ts:54-63 | updating an id with a patch that keeps the id and then deleting it equals deleting it directly |
| ShiftStore.RekeyingPatchEscapesDelete | src/store/shiftStore.ts:54-63 | a patch that changes the id breaks that law: the re-keyed shift survives the delete that would have removed it |
| KeyedLists.MergeWhere | src/store/employeeStore.ts:28-30 | the `map` keeps the length |
| KeyedLists.MergeWhereAt | src/store/employeeStore.ts:26-31 | position i of the result is the merged entry iff its key is the id, the old entry otherwise |
| KeyedLists.MergeWhereAbsent | src/store/employeeStore.ts:26-31 | an id that no entry has leaves the list identical |
| KeyedLists.RemoveWhere | src/store/employeeStore.ts:34 | the `filter` never grows the list |
| KeyedLists.RemoveWhereSpec | src/store/employeeStore.ts:32-35 | no remaining entry has the id, and the result is the order-preserving filter of the others |
| KeyedLists.RemoveWhereKeepsOthers | src/store/vehicleStore.ts:32-35 | the result is a subsequence, and every entry without the id keeps its multiplicity |
| KeyedLists.RemoveWhereAbsent | src/store/leaveStore.ts:36-39 | deleting an id nobody has changes nothing |
| KeyedLists.RemoveWhereIdempotent | src/store/vehicleStore.ts:32-35 | deleting twice equals deleting once |
| KeyedLists.RemoveAfterMerge | src/store/shiftStore.ts:54-63 | when the merge keeps the key, remove after merge equals remove |
| KeyedLists.FindWhere | src/components/leaves/LeaveRequestDetails.tsx:23 | `find` gives nothing iff no entry has the id, and otherwise an entry of the list with that id |
| KeyedLists.FindWhereFirst | src/components/shifts/ShiftDetails.tsx:22 | `find` returns the first entry with the id |
| KeyedLists.FindAfterMerge | src/components/leaves/LeaveRequestDetails.tsx:42-49 | after a key-keeping merge, `find` returns the merged version of what it found before |
| Credentials.DrawDetails | src/utils/credentials.ts:19-39 | on a fresh 1016×642 canvas the steps draw the white background, "EMS", the name, the position and the department, in that order |
| Credentials.DrawPlaceholder | src/utils/credentials.ts:59-68 | without a photo the outline of (40,100,200,200) and then the initials at (100,200) are appended |
| Credentials.GenerateSingleCredential | src/utils/credentials.ts:4-76 | the step-by-step drawing ends exactly as `SingleCredential` says: rejected without a context, pending on an image that never loads, else a one-page document |
| Credentials.CardLayout | src/utils/credentials.ts:19-47 | the first step is a white fill of 1016×642, followed by "EMS" at (40,60), the full name at (280,140), the position at (280,180), the department at (280,220) and the barcode into (40,320,440,100) |
| Credentials.PhotoBranches | src/utils/credentials.ts:50-69 | the photo is drawn into (40,100,200,200) iff there is one; the outline and the initials at (100,200) are drawn iff there is none; the initials are the names' first letters, with the text `undefined` in place of an empty first name's letter |
| Credentials.SingleCredentialOutcome | src/utils/credentials.ts:16-17 | it rejects iff there is no 2D context, with the fixed message; it resolves iff the barcode and any photo load, to one page holding the card |
| Base64.Btoa | src/utils/credentials.ts:95 | `btoa` succeeds iff every character is Latin-1 |
| Base64.EncodeLength | src/utils/credentials.ts:95 | every three characters (or a final one or two) become four |
| Base64.BtoaRoundTrip | src/utils/credentials.ts:95 | decoding the output of `btoa` gives back the RUT, so distinct RUTs get distinct barcode payloads |
| Credentials.BatchBarcode | src/utils/credentials.ts:95 | the barcode URL exists iff the RUT is Latin-1 |
| Credentials.CardsDone | src/utils/credentials.ts:88-107 | the loop's stopping point: every earlier card resolves and the card there (if any) does not |
| Credentials.GenerateBatchCard | src/utils/credentials.ts:93-96 | one iteration's card: rejected when `btoa` throws, else the single credential for the barcode URL |
| Credentials.AddCardPage | src/utils/credentials.ts:100-101 | `addPage` then `addImage` appends one page holding the object URL's image |
| Credentials.BatchIteration | src/utils/credentials.ts:89-106 | iteration i produces the card of employee i; when it resolves, pages, progress calls and URL events are those of i+1 iterations; otherwise the loop stops at i |
| Credentials.BatchLoop | src/utils/credentials.ts:88-107 | the loop runs exactly up to the first failing card; the document then has the pages of that many iterations |
| Credentials.GenerateBatchCredentials | src/utils/credentials.ts:78-109 | the step-by-step batch equals the specification `BatchCredentials`: how it settles, its progress calls and its URL events |
| Credentials.BatchPageCount | src/utils/credentials.ts:82-102 | N ≥ 1 iterations leave 2N pages; none leave the single initial page |
| Credentials.BatchPageLayout | src/utils/credentials.ts:90-101 | page 2j is blank and page 2j+1 holds exactly the j-th card's image |
| Credentials.ProgressCallsSpec | src/utils/credentials.ts:104-106 | there is one progress call per finished employee, the j-th with (j+1)/N |
| Credentials.UrlLogSpec | src/utils/credentials.ts:95-102 | iteration j creates a URL for the card of employee j, drawn with `btoa` of that employee's RUT, and revokes it in the same iteration |
| Credentials.BatchCredentialsSpec | src/utils/credentials.ts:78-109 | a batch resolves iff every card resolves, then with N progress calls, the last N/N; an empty batch resolves to one blank page with no calls and no URLs |
| CredentialPdf.DrawFrame | src/utils/pdf.ts:20-34 | on a fresh canvas: the white fill, "EMS", then the outline at (40,100,200,200) |
| CredentialPdf.DrawDetailText | src/utils/pdf.ts:54-61 | the name, position and department are appended at (280,140), (280,180) and (280,220) |
| CredentialPdf.Finalise | src/utils/pdf.ts:36-45 | the canvas image is saved as `credential-<rut>.pdf`, followed by one `onComplete` iff one was given |
| CredentialPdf.GenerateCredentialPdf | src/utils/pdf.ts:4-90 | the callback chain produces exactly the effects `CredentialPdfEffects` lists |
| CredentialPdf.PdfCardLayout | src/utils/pdf.ts:20-89 | white fill, "EMS" and the outline come first; a photo comes next when there is one; the three texts and then the barcode come last |
| CredentialPdf.NoInitials | src/utils/pdf.ts:47-90 | no text other than "EMS", the name, the position and the department is drawn, and nothing is drawn at (100,200) |
| CredentialPdf.PdfEffectsSpec | src/utils/pdf.ts:17-45 | without a context nothing is saved and nothing is called; otherwise it saves once iff the images load, under `credential-<rut>.pdf`, then calls `onComplete` once if given |
| CredentialHook.CredentialGeneration.constructor | src/hooks/useCredentialGeneration.ts:15-17 | not generating, no progress, no error |
| CredentialHook.CredentialGeneration.GenerateCredential | src/hooks/useCredentialGeneration.ts:19-41 | `generating` ends false unless a step hangs; `error` is the thrown message or the fixed default on failure and null on success; the download (`credential-<rut>.pdf`) and the revoke happen only on success; progress is untouched |
| CredentialHook.CredentialGeneration.ReplayProgress | src/hooks/useCredentialGeneration.ts:49-54 | each progress call sets `progress` to `floor(k/N · N)` = k of total N, in order |
| CredentialHook.CredentialGeneration.GenerateCredentials | src/hooks/useCredentialGeneration.ts:43-71 | progress starts at 0 of N, follows every call with total N, and is cleared at the end; error and download (`credentials.pdf`) as for the single case |
| CredentialHook.FloorTimesExact | src/hooks/useCredentialGeneration.ts:51 | with exact fractions, `floor((k/N)·N)` is k |
| CredentialHook.SingleOutcomeSpec | src/hooks/useCredentialGeneration.ts:19-41 | a single generation downloads iff the barcode and the card resolve and the click succeeds; a failing step's message becomes the error |
| CredentialHook.BatchOutcomeSpec | src/hooks/useCredentialGeneration.ts:43-71 | a batch downloads iff every card resolves and the click succeeds, the blob holding the 2N-page document; it hangs iff the first failing card is pending |
| CredentialHook.RawRutBarcodeHangs | src/utils/credentials.ts:95-96 | when no image `data:image/svg+xml;base64,…` loads, a non-empty batch whose first RUT is Latin-1 stops at its first card and hangs |
| CredentialHook.ProgressUpdatesSpec | src/hooks/useCredentialGeneration.ts:50-53 | the k updates are 1..k of total N |
| CredentialSearch.FilterEmployeesSpec | src/components/credentials/CredentialList.tsx:15-20 | an employee is kept iff the lower-cased first or last name contains the lower-cased search, or the RUT contains the raw search; the order is kept and an empty search keeps everyone; CredentialGenerator filters with the same predicate |
| CredentialSearch.ContainsAt | src/components/credentials/CredentialList.tsx:17-19 | `includes` holds iff the text occurs at some position |
| CredentialSearch.ToggledSpec | src/components/credentials/CredentialList.tsx:22-30 | the id is in the result iff it was absent before; other ids are untouched; toggling twice restores the set |
| CredentialSearch.SelectedSpec | src/components/credentials/CredentialList.tsx:33-35 | exactly the employees whose key is selected are passed on, as a subsequence of the store list |
| CredentialList.BulkButtonAfterToggle | src/components/credentials/CredentialList.tsx:88 | selecting an id shows the bulk button; deselecting the only selected id hides it |
| CredentialList.CredentialList.constructor | src/components/credentials/CredentialList.tsx:10-13 | empty search, empty selection, an idle generation hook |
| CredentialList.CredentialList.SetSearch | src/components/credentials/CredentialList.tsx:65 | only the search text changes |
| CredentialList.CredentialList.ToggleEmployee | src/components/credentials/CredentialList.tsx:22-30 | the selection becomes the toggled set |
| CredentialList.CredentialList.HandleGenerateSelected | src/components/credentials/CredentialList.tsx:32-38 | the batch runs on the selected employees in store order, and the selection is emptied once it returns |
| StrOrder.SortDistinctSpec | src/components/credentials/CredentialBatch.tsx:14-16 | `Array.from(new Set(...)).sort()` is strictly sorted and has exactly the members of its input |
| StrOrder.StrictlySortedUnique | src/components/credentials/CredentialBatch.tsx:14-16 | two strictly sorted lists with the same members are equal, so the department list is determined by the set of departments |
| CredentialBatch.DepartmentsSpec | src/components/credentials/CredentialBatch.tsx:14-16 | the departments are sorted, have no duplicates, and are exactly those of the employees |
| CredentialBatch.SumCountsFilter | src/components/credentials/CredentialBatch.tsx:70 | the counts of distinct departments add up to the number of employees in any of them |
| CredentialBatch.DepartmentCountsSpec | src/components/credentials/CredentialBatch.tsx:70 | every listed department has at least one employee, and the counts sum to the employee total |
| CredentialBatch.CredentialBatch.constructor | src/components/credentials/CredentialBatch.tsx:11-12 | no department selected, an idle generation hook |
| CredentialBatch.CredentialBatch.ToggleDepartment | src/components/credentials/CredentialBatch.tsx:18-26 | the department selection becomes the toggled set |
| CredentialBatch.CredentialBatch.ClickGenerate | src/components/credentials/CredentialBatch.tsx:28-36 | the click runs iff the button is enabled (a department is selected and nothing is running); the batch gets the employees of the selected departments in store order; it navigates iff the batch settled and the error captured before it was null or the empty string |
| CredentialGenerator.AvatarInitials | src/components/credentials/CredentialGenerator.tsx:48-59 | with a photo the avatar is the photo; without one it shows `firstName[0]` then `lastName[0]`, like the canvas initials when both names are non-empty, and unlike them when the first name is empty |
| CredentialGenerator.RowAfterDownload | src/components/credentials/CredentialGenerator.tsx:72-85 | after a download the row of that id shows "Descargada" and every other row is unchanged |
| CredentialGenerator.CredentialGenerator.constructor | src/components/credentials/CredentialGenerator.tsx:7-8 | empty search, nothing downloaded |
| CredentialGenerator.CredentialGenerator.SetSearch | src/components/credentials/CredentialGenerator.tsx:35 | only the search changes |
| CredentialGenerator.CredentialGenerator.HandleDownload | src/components/credentials/CredentialGenerator.tsx:18-20 | the id is added; the set only grows |
| Validation.StringMin | src/components/employees/EmployeeForm.tsx:8 | `z.string().min(n)` reports no issue iff the length is at least n, and never aborts the object |
| Validation.OptionalStringMin | src/components/employees/EmployeeForm.tsx:12 | on a field that may be undefined: no issue iff defined and long enough; it aborts iff undefined |
| Validation.Email | src/components/auth/LoginForm.tsx:12 | `z.string().email()` reports no issue iff the address matches, and never aborts |
| Validation.NumberRange | src/components/shifts/ShiftForm.tsx:17 | `z.number().min().max()` reports no issue iff the number is present and in range; NaN aborts |
| Validation.FirstError | src/components/leaves/LeaveRequestForm.tsx:39 | the message shown under a field is the first issue on its path, if there is one |
| Validation.RefineSpec | src/components/leaves/LeaveRequestForm.tsx:17-24 | the object refine adds its issue after the field issues iff it fails and no field aborted |
| LeaveForm.LeaveSchemaSpec | src/components/leaves/LeaveRequestForm.tsx:11-24 | accepted iff both dates are non-empty, the reason has ten characters and end ≥ start; the order error is shown on `endDate` |
| LeaveForm.TotalDaysSpec | src/components/leaves/LeaveRequestForm.tsx:45-50 | the result is ceil(\|end−start\| / 86 400 000) + 1 (as bounds), at least 1, symmetric, and 1 iff the dates are equal |
| LeaveForm.TotalDaysWholeDays | src/components/leaves/LeaveRequestForm.tsx:45-50 | k whole days apart gives k+1 days |
| LeaveForm.ShownTotalDaysSpec | src/components/leaves/LeaveRequestForm.tsx:75-77 | the total shown is 0 when a date is missing; the box appears iff both dates are set and parse |
| LeaveForm.NewRequestSpec | src/components/leaves/LeaveRequestForm.tsx:55-69 | the new request is pending, belongs to the user, copies dates and reason, has the attachments or an empty list, and `totalDays` ≥ 1, equal to 1 iff the dates coincide |
| LeaveForm.SubmitLeaveRequest | src/components/leaves/LeaveRequestForm.tsx:52-73 | without a user or with issues nothing is added; otherwise exactly that request is appended and the form navigates |
| LeaveDetails.DetailsViewSpec | src/components/leaves/LeaveRequestDetails.tsx:23-37 | "not found" iff there is no user or no request with the id; otherwise approve/reject are offered iff the role is admin or manager and the request is pending |
| LeaveDetails.HistorySpec | src/components/leaves/LeaveRequestDetails.tsx:234-278 | the history starts with "Solicitud creada"; a decision entry appears iff `approvedAt` is set, reading "aprobada" iff approved, "rechazada" otherwise |
| LeaveDetails.DecisionTouchesOnly | src/components/leaves/LeaveRequestDetails.tsx:42-58 | approve/reject change only status, `approvedBy`, `approvedAt` and `updatedAt` |
| LeaveDetails.DecisionIsFinal | src/components/leaves/LeaveRequestDetails.tsx:109 | after a decision the buttons are gone, the status is the decision and the history shows it |
| LeaveDetails.ClickDecision | src/components/leaves/LeaveRequestDetails.tsx:42-58 | the click updates the request iff the buttons are offered; balances and the other fields are untouched |
| ShiftForm.FieldIssuesSpec | src/components/shifts/ShiftForm.tsx:12-18 | the fields pass iff employee, date and both times are non-empty and the break is in [0,120]; only a NaN break aborts |
| ShiftForm.ShiftSchemaSpec | src/components/shifts/ShiftForm.tsx:11-26 | accepted iff the fields pass and `date T end` is after `date T start`; the order error is shown on `endTime` |
| ShiftForm.DefaultBreakTimeAccepted | src/components/shifts/ShiftForm.tsx:42-45 | the default break of 30 passes its rule |
| ShiftForm.NewShiftSpec | src/components/shifts/ShiftForm.tsx:48-57 | the new shift is scheduled, copies employee, type, date, break and notes, and stores `date T time`, whose end parses after its start |
| ShiftForm.SubmitShift | src/components/shifts/ShiftForm.tsx:48-61 | exactly one shift is appended iff the form is accepted; nothing else in the store changes |
| ShiftDetails.OfferedActionsSpec | src/components/shifts/ShiftDetails.tsx:197-228 | start is offered iff scheduled, finish iff in progress, cancel and change-request always; the only moves are scheduled→in progress, in progress→completed, any→cancelled |
| ShiftDetails.ShiftDetailsViewSpec | src/components/shifts/ShiftDetails.tsx:22-40 | "not found" iff the shift or its employee is missing; otherwise both come from the stores |
| ShiftDetails.StatusPatchTouchesOnly | src/components/shifts/ShiftDetails.tsx:49-54 | a status change touches only `status` and `updatedAt` |
| ShiftDetails.StatusChangeShown | src/components/shifts/ShiftDetails.tsx:197-223 | after an offered action the shift shows the new status and the actions of that status |
| ShiftDetails.ClickStatusButton | src/components/shifts/ShiftDetails.tsx:49-54 | the store changes iff the action is offered, by that status patch; only shifts change |
| ShiftDetails.ClickDelete | src/components/shifts/ShiftDetails.tsx:42-47 | the shift is deleted iff it is shown and the user confirms; otherwise the store is unchanged |
| VehicleForm.VehicleSchemaSpec | src/components/vehicles/VehicleForm.tsx:10-22 | accepted iff brand, model, plate and both dates are non-empty, the year is in [1900, current+1] and the mileage ≥ 0 |
| VehicleForm.VehicleYearError | src/components/vehicles/VehicleForm.tsx:14 | a year past current+1 shows the "too big" error with bound current+1 |
| VehicleForm.DefaultMileageAccepted | src/components/vehicles/VehicleForm.tsx:36-39 | the default mileage 0 passes its rule |
| VehicleForm.NewVehicleSpec | src/components/vehicles/VehicleForm.tsx:42-48 | the new vehicle copies every form field, has empty documents and maintenance records, and its year and mileage are in range |
| VehicleForm.SubmitVehicle | src/components/vehicles/VehicleForm.tsx:42-51 | exactly one vehicle is added iff accepted; filters, loading and error are unchanged |
| EmployeeForm.GenderOf | src/components/employees/EmployeeForm.tsx:14 | a gender is read iff the code is M, F or OTHER |
| EmployeeForm.GenderIssues | src/components/employees/EmployeeForm.tsx:14 | no issue iff a valid gender code is present |
| EmployeeForm.AddressIssues | src/components/employees/EmployeeForm.tsx:15-21 | no issue iff the address and its five fields are present and non-empty |
| EmployeeForm.ContactIssues | src/components/employees/EmployeeForm.tsx:25-29 | no issue iff the contact's name, relationship and phone are present and non-empty |
| EmployeeForm.EmployeeSchemaSpec | src/components/employees/EmployeeForm.tsx:7-30 | the schema reports nothing iff every field (nested ones included) is filled, the email matches and the gender is valid |
| EmployeeForm.InitialDataAcceptable | src/components/employees/EmployeeForm.tsx:49 | the form opened on an employee passes iff the employee's text fields are non-empty and the email matches |
| EmployeeForm.InitialDataRoundTrip | src/components/employees/EmployeeForm.tsx:47-50 | opened on an employee, an accepted submit hands back that employee's own values |
| EmployeeForm.BlankFormRejected | src/components/employees/EmployeeForm.tsx:47-50 | without initial data every submit is rejected, with "required" shown under phone |
| LoginForm.LoginSchemaSpec | src/components/auth/LoginForm.tsx:11-15 | accepted iff the email matches and the password has at least 6 characters; a shorter one shows the length error |
| LoginForm.SubmitLoginSpec | src/components/auth/LoginForm.tsx:30-58 | login happens iff the email is admin@example.com and the password is password123, as user "1" with the admin role and the entered email, with a success toast; any other valid form gets the error toast and no login |
| LoginForm.RememberMeDefault | src/components/auth/LoginForm.tsx:25-27 | `rememberMe` defaults to false |
| Dashboard.CountersBounded | src/pages/dashboard/DashboardPage.tsx:68-79 | each counter is at most the length of the list it filters |
| Dashboard.TodayShiftsSpec | src/pages/dashboard/DashboardPage.tsx:75-79 | a shift counts iff it is dated today and not cancelled, in either filter order |
| Dashboard.SummarySpec | src/pages/dashboard/DashboardPage.tsx:267-289 | approved + pending + rejected + cancelled = total, so the first three never exceed the total |
| Dashboard.CountersAfterAppend | src/pages/dashboard/DashboardPage.tsx:68-79 | appending an employee, a vehicle, a shift or a request raises its list's counter by one iff the record meets the counter's condition (active; in maintenance; dated today and not cancelled; in that status), and leaves it unchanged otherwise |

## Left out

- Pixels and PDF bytes. Draw calls are logged as operations; `toDataURL`, jsPDF's page size in millimetres, `addImage`, `output` and `save` are opaque values.
- Barcode rendering (JsBarcode). The single-card path takes the barcode's outcome as a parameter. src/utils/barcode.ts is not part of this model.
- Image loading. Whether an image loads is a parameter, and a load that never fires is the `Pending` outcome.
- Floating-point progress. `(i + 1) / N` is kept as an exact fraction. `Math.floor(progress * N)` is exact on it (`CredentialHook.FloorTimesExact`), though IEEE doubles round some of these products below the integer (1/49 · 49, for example).
- Asynchronous callbacks. The batch's progress callbacks are replayed into the hook after the batch returns rather than interleaved with it. The values and their order are the same.
- Strings are sequences of characters. JavaScript's UTF-16 code units, `Array.prototype.sort`'s code-unit order and `toLowerCase` are approximated by characters, a lexicographic order and an abstract function.
- LoginForm.SubmitLoginSpec: the browser's own check of the `type="email"` input runs before `handleSubmit`, because no form sets `noValidate`; an address zod accepts but the browser refuses is blocked with no toast, while the model passes it to the schema and the credential check. The employee form's `type="email"` input has the same unmodelled check.
- ShiftForm.SubmitShift: the browser's `min="0" max="120"` check on the break input runs before `handleSubmit`; a break outside [0,120] is blocked by the browser, so zod's range message under `breakTime` is never shown, while the model reports it.
- zod: the email pattern is an abstract predicate; numbers are integers; default zod messages are issue kinds rather than texts.
- Enum fields bound to a `<select>` (the leave `type`, the shift `type`, the vehicle `type`, `status` and `fuelType`) are typed by construction as datatypes, so their `z.enum`/`z.nativeEnum` checks can never fire and are not part of `LeaveIssues`, `ShiftIssues` or `VehicleIssues`.
- Dates: `new Date(...)`, `toDateString` and the clock are parameters (a parse function, a day function, today's day, the current year, timestamps).
- Store patches can set optional fields but cannot clear them (no `undefined` in a spread).
- Navigation, toasts and `window.confirm` are outputs or parameters. The login's simulated delay and its `catch` branch are left out: nothing in the `try` block can throw once `login` is a plain state update.
- src/store/authStore.ts is not part of this model. The logged-in user is a parameter of the screens that read it.
- CredentialHook.CredentialGeneration.GenerateCredentials: the object URL of the download is a parameter rather than fresh for each call.
