# Expense report generator: a verified model

This project models the core of a web application that French medical
practitioners use to build expense reports ("Note de Frais") and debit notes
("Note de Débit"). The user drops receipts and, optionally, a service contract
and a bank document (RIB). An extraction service reads them. The user
completes a profile and bank details. The application then composes a PDF:
- a header, the expense table and its total, and a bank summary;
- an appendix: a section of receipt frames, a contract section and a bank section.

The Dafny modules follow the program's structure:

- `Types` (types.dfy): the records of types.ts. A browser `File` is a class, so that file identity is object identity, as it is for a JavaScript `Set`. This module also holds thrown values, the shared id source and the total of a list of expenses.
- `Strings` (strings.dfy): the JavaScript string operations the components rely on. These are `trim` and `\s`, the pattern `/^\S+@\S+\.\S+$/`, `toFixed(2)` on cents, `indexOf`, `replace` with a string pattern, and `join`.
- `Layout` (layout.dfy): the fit-to-box arithmetic of frame images.
- `PdfDocument` (pdf_document.dfy): the jsPDF document as a class over a sequence of pages. The autoTable plugin is included as a library whose page layout is given.
- `PdfGenerator` (pdf_generator.dfy): `generateExpenseReport`, `addFileToPdf` and `processFiles` as methods on the document. Each method is proved against a function giving the pages it must produce.
- `App` (app.dfy): the expense list, readiness, the missing-parts message, the contract merge and the generation guard. These are pure functions, plus a class for the application state.
- `RibManager`, `ProfileManager`, `ActionPanel`, `ExpenseUploader` and `ContractUploader`: one class per component. It holds the component's state fields and a `calls` log of what the component hands to its callbacks, in order.

The extraction service is an oracle: each uploader takes what the service returns or throws as a `Result`. Other inputs are parameters:
- what the decoders report for a file (image size, PDF page sizes), or that they cannot read it;
- what autoTable does with the rows;
- the generation date, and the locale's rendering of each row's date;
- "today".

Where the code's behaviour differs from what one might expect, the model follows the code:
- Receipts are deduplicated by object identity (`new Set`). Two different `File` objects with equal attributes both appear.
- The contract filter compares name, size and modification time.
- A file that is neither an image nor a PDF adds no page and no notice.
- The total line is drawn on every page the table touches (`didDrawPage`), not once.
- The saved file name replaces only the first space of the title: "Note_de Frais_<date>.pdf".
- The bank fallback page in the appendix requires only non-empty IBAN and BIC, not the form's length gate.
- The generator itself does not refuse an empty expense list. Only the application's readiness check does.
- A receipt, contract or bank document that jsPDF or pdf.js cannot read stops the whole report. For an image, the `onload` handler throws after the page and caption are drawn, `resolve()` is never reached and the generation never finishes. For a PDF, the rejection of `getDocument` propagates out of `handleGenerateReport`, which has no `catch`. Either way nothing is saved and no success notice is added.
- The RIB form's validity uses trimmed lengths over 14 and 7. The application's own readiness check only asks for non-empty fields.

## Model

| member | source | states |
|---|---|---|
| Layout.Fit | utils/pdfGenerator.ts:99-103 | the fitted frame lies within the box, keeps the source's aspect ratio, and fills the box's width or its height |
| Layout.FitBounds | utils/pdfGenerator.ts:130-134 | with ratio = min(bw/sw, bh/sh), the scaled PDF page fits the box, keeps its proportions and touches one side |
| Layout.FitIdempotent | utils/pdfGenerator.ts:99-103 | fitting an already fitted frame into the same box changes nothing |
| Layout.FitExample | utils/pdfGenerator.ts:99-103 | a 1000 x 500 frame in a 400 x 400 box becomes 400 x 200 |
| Strings.Trim | components/RibManager.tsx:54-66 | the trimmed string neither starts nor ends with white space, is empty exactly when the input is all white space, and is the input when it has none |
| Strings.TrimStart | components/ProfileManager.tsx:43-47 | the result is a suffix of the input and everything dropped is white space |
| Strings.TrimEnd | components/ProfileManager.tsx:43-47 | the result is a prefix of the input and everything dropped is white space |
| Strings.EmailShapeOfParts | components/ProfileManager.tsx:47 | any non-empty local part, domain and suffix without white space form an address of the accepted shape |
| Strings.EmailShapeIsTrimmed | components/ActionPanel.tsx:39 | a well-shaped address is non-empty and is its own trim |
| Strings.NatToString | utils/pdfGenerator.ts:127 | a page number renders as a non-empty string of decimal digits |
| Strings.NatToStringRoundTrip | utils/pdfGenerator.ts:127 | the decimal rendering reads back as the same number |
| Strings.NatToStringInjective | App.tsx:65 | different counts render differently |
| Strings.FormatCentsRoundTrip | utils/pdfGenerator.ts:22 | `toFixed(2)` on an amount in cents loses nothing: it reads back as the same number of cents, negative amounts included |
| Strings.IndexOf | utils/pdfGenerator.ts:190 | the index found is at most the length |
| Strings.IndexOfSpec | utils/pdfGenerator.ts:190 | the index holds the element, no earlier position does, and it equals the length exactly when the element is absent |
| Strings.IndexOfAppend | utils/pdfGenerator.ts:150 | appending keeps the first occurrence of what was already present, and a new element's first occurrence is the end |
| Strings.ReplaceFirstSpec | utils/pdfGenerator.ts:190 | `replace(' ', '_')` changes only the first occurrence and keeps the length; without an occurrence it changes nothing |
| Types.TotalCentsAppend | App.tsx:159 | the total of a concatenation is the sum of the totals |
| Types.IdSource.Reserve | App.tsx:60-67 | hands out the next n consecutive ids and advances past them |
| PdfDocument.Document.constructor | utils/pdfGenerator.ts:19 | a new document has exactly one blank page |
| PdfDocument.Document.AddPage | utils/pdfGenerator.ts:94 | a blank page is appended and becomes the current one |
| PdfDocument.Document.Text | utils/pdfGenerator.ts:28 | the string is drawn on the current page only |
| PdfDocument.Document.AddImage | utils/pdfGenerator.ts:104 | the image is placed on the current page only |
| PdfDocument.Document.AutoTable | utils/pdfGenerator.ts:63-77 | the table starts on the current page and continues on the pages its layout needs; the result is the final cursor, or 80 when it is 0 |
| PdfDocument.TextOnLast | utils/pdfGenerator.ts:28 | drawing keeps the page count |
| PdfDocument.ImageOnLast | utils/pdfGenerator.ts:104 | placing an image keeps the page count |
| PdfDocument.TextsOnLast | utils/pdfGenerator.ts:80-86 | drawing several strings keeps the page count |
| PdfDocument.TextsOnLastStep | utils/pdfGenerator.ts:28-46 | drawing nothing changes nothing, and drawing one more string extends what was drawn on the current page |
| PdfDocument.OnAppended | utils/pdfGenerator.ts:94-104 | drawing on a page just added touches that page only |
| PdfDocument.TablePages | utils/pdfGenerator.ts:63-75 | the table touches exactly as many pages as its layout has |
| PdfDocument.TablePagesKeepRows | utils/pdfGenerator.ts:63-75 | the table's pages hold every body row exactly once, in order, after what the first page already held |
| PdfDocument.TablePagesCarryHook | utils/pdfGenerator.ts:69-74 | every page the table touches has a table block and carries the hook's total line at that page's cursor plus 15 |
| PdfGenerator.FileNames | utils/pdfGenerator.ts:190 | the file name is "Note_de Frais_<date>.pdf" or "Note_de Débit_<date>.pdf" |
| PdfGenerator.FirstSpaceAtFour | utils/pdfGenerator.ts:190 | for a title starting "Note ", the replace turns only that space into '_' |
| PdfGenerator.ImageFilePages | utils/pdfGenerator.ts:90-108 | an image adds exactly one page, captioned "prefix : name"; the frame is on it exactly when jsPDF reads the image, and otherwise the generation stalls |
| PdfGenerator.PdfFilePages | utils/pdfGenerator.ts:109-137 | a PDF with N pages adds exactly N pages, the i-th captioned "prefix : name (Page i/N)", in ascending order; a PDF pdf.js cannot open adds none and rejects |
| PdfGenerator.OtherFilePages | utils/pdfGenerator.ts:89-139 | a file of any other type adds no page and never stops the generation |
| PdfGenerator.FilePagesFit | utils/pdfGenerator.ts:99-104 | every page shows at most one image, at (14, 25) and inside the box, and exactly one when the file completes |
| PdfGenerator.ExpenseFiles | utils/pdfGenerator.ts:142-148 | every file kept is an expense's file that does not look like the contract, and every such file is kept |
| PdfGenerator.Distinct | utils/pdfGenerator.ts:150 | the result has the same elements as the input, each exactly once |
| PdfGenerator.ReceiptsMembership | utils/pdfGenerator.ts:142-150 | the receipts are exactly the expense files that do not look like the contract, without duplicates, and none of them looks like the contract |
| PdfGenerator.ReceiptsOrder | utils/pdfGenerator.ts:150 | the receipts come in the order in which their files first occur among the expenses |
| PdfGenerator.ReceiptsOrderStep | utils/pdfGenerator.ts:150 | one more expense keeps the receipts in first-occurrence order |
| PdfGenerator.SharedFileOnce | utils/pdfGenerator.ts:150-160 | two expenses sharing one file object put that file in the receipts exactly once |
| PdfGenerator.MainPagesTotals | utils/pdfGenerator.ts:69-74 | every main page carries the total line |
| PdfGenerator.MainPagesEnds | utils/pdfGenerator.ts:28-46 | the first page opens with the seven header strings, and the last page ends with the bank summary 30, 38 and 43 below the table's end |
| PdfGenerator.MainPagesRows | utils/pdfGenerator.ts:54-75 | the tables of the main pages hold one row per expense, in list order |
| PdfGenerator.FilesStatusAppend | utils/pdfGenerator.ts:158-176 | awaiting two lists of files in turn ends as the first does when it does not complete, and as the second otherwise |
| PdfGenerator.FilesStatusSpec | utils/pdfGenerator.ts:158-176 | the files complete together exactly when each one completes; otherwise the outcome is that of the first file that does not |
| PdfGenerator.AppendixCompletes | utils/pdfGenerator.ts:141-193 | the document is saved exactly when every receipt, the contract and the bank document complete |
| PdfGenerator.TablePagesHeadFirst | utils/pdfGenerator.ts:63-66 | the table's first page keeps what was already drawn on the current page |
| PdfGenerator.AppendixStructure | utils/pdfGenerator.ts:152-188 | the receipts heading is present exactly when some receipt remains; the receipts, contract and bank sections come in that order; with neither receipts, contract nor bank document the appendix is the restated bank details when IBAN and BIC are both present, and empty otherwise |
| PdfGenerator.BuildTableRows | utils/pdfGenerator.ts:54-61 | one row per expense, in order: the stored date as the locale renders it, the type and the amount to two decimals |
| PdfGenerator.AddFramePage | utils/pdfGenerator.ts:94-106 | appends one page with the caption and the fitted image |
| PdfGenerator.AddFileToPdf | utils/pdfGenerator.ts:89-139 | appends exactly the pages the file's type and content call for, and ends as the decoders allow: completed, stalled or rejected |
| PdfGenerator.AddTextPage | utils/pdfGenerator.ts:153-156 | appends one page carrying one string |
| PdfGenerator.AddReceiptsSection | utils/pdfGenerator.ts:152-161 | stops at the first receipt that does not complete and reports its status; when all complete, a heading page, then each receipt's pages in list order, or nothing without receipts |
| PdfGenerator.AddContractSection | utils/pdfGenerator.ts:163-169 | the contract heading and its pages when a contract is present, otherwise nothing; the status is the contract's |
| PdfGenerator.AddRibSection | utils/pdfGenerator.ts:171-188 | the bank section of whichever of the three cases applies; the status is the bank document's |
| PdfGenerator.AddRibFallbackPage | utils/pdfGenerator.ts:177-188 | appends the page restating the IBAN and BIC |
| PdfGenerator.ProcessFiles | utils/pdfGenerator.ts:141-191 | the status is that of the first appendix file that does not complete; when all complete, the appendix sections in their fixed order, and the document is saved under the computed name exactly then |
| PdfGenerator.DrawHeader | utils/pdfGenerator.ts:28-46 | the first page holds the title, the date, the practitioner, the RPPS number, the e-mail and the recipient |
| PdfGenerator.DrawRibSummary | utils/pdfGenerator.ts:77-86 | the bank summary is drawn on the current page below the table's end |
| PdfGenerator.DrawMainPages | utils/pdfGenerator.ts:28-86 | a new document ends up holding exactly the main pages: the header page carrying the table's start, the table's further pages, and the bank summary on the last of them |
| PdfGenerator.GenerateExpenseReport | utils/pdfGenerator.ts:6-194 | when every appendix file completes, the saved report is the header and table pages followed by the appendix, under the computed file name; otherwise nothing is saved |
| App.RemoveById | App.tsx:101-103 | what remains excludes the removed id, comes from the list, and is the whole list when no expense has the id |
| App.RemoveByIdAppend | App.tsx:102 | removal works element by element and keeps the order of what stays |
| App.RemoveByIdKeeps | App.tsx:102 | every expense with another id stays |
| App.RemoveByIdTotal | App.tsx:159 | the total splits into what removal keeps and what it drops |
| App.RecategoriseSpec | App.tsx:105-109 | only the expenses with the id get the category; everything else is kept |
| App.RecategoriseTotal | App.tsx:105-109 | changing a category never changes the total |
| App.RecategoriseIdempotent | App.tsx:105-109 | recategorising twice is recategorising once |
| App.AddedNoticesSpec | App.tsx:62-66 | no notice for an empty batch; otherwise one success notice whose message starts with the count |
| App.AddedNoticesDistinct | App.tsx:65 | batches of different sizes above one are announced differently |
| App.MissingPartsSpec | App.tsx:129-143 | each part is listed exactly when its check fails, at most once, in the order profile, receipt, bank details |
| App.ReadyIffNothingMissing | App.tsx:161-164 | ready exactly when no part is missing |
| App.MissingMessageAll | App.tsx:145-155 | with everything missing, the message lists the three parts with commas and a final "et" |
| App.MissingMessageFrame | App.tsx:145-155 | every message starts with "Veuillez compléter : " and joins one part, two parts with "et", or three parts as "a, b, et c", as the code does |
| App.MergeProfileSpec | App.tsx:84-90 | a filled field wins, an empty one takes the extracted value, and the title is never empty |
| App.MergeProfileIdempotent | App.tsx:84-90 | merging the same data again changes nothing |
| App.MergeKeepsComplete | App.tsx:84-90 | a complete profile is left unchanged by any merge |
| App.NothingFoundIff | App.tsx:96-98 | "nothing usable" is announced exactly when nothing was found, and it is then the only notice |
| App.AppState.constructor | App.tsx:14-23 | the application starts with no expenses, no profile, no bank data and no files |
| App.AppState.AddExpenses | App.tsx:60-67 | the batch is appended, announced by its count, and the total grows by its sum |
| App.AppState.RemoveExpense | App.tsx:101-103 | the list becomes the filtered list, and the total drops by the removed amounts |
| App.AppState.UpdateExpenseCategory | App.tsx:105-109 | the list becomes the recategorised list, and the total is unchanged |
| App.AppState.HandleContractExtracted | App.tsx:69-99 | expenses appended, address taken when non-empty, profile merged when the provider data has a value, and the notices in order |
| App.AppState.TakeRecipientEmail | App.tsx:76-80 | a non-empty address replaces the recipient and is announced |
| App.AppState.TakeProviderInfo | App.tsx:81-94 | provider data with some value is merged into the profile and announced |
| App.AppState.HandleGenerateAttempt | App.tsx:129-157 | the missing parts in order and one notice naming them, or nothing when none is missing |
| App.AppState.HandleGenerateReport | App.tsx:119-127 | without profile or bank data nothing happens; otherwise the report is saved and a success notice added exactly when every appendix file completes, and nothing changes when one stalls or rejects |
| App.AppState.SelectContractFile | App.tsx:191 | the contract uploader's selection becomes the contract file, and nothing else changes |
| App.AppState.SelectRibFile | App.tsx:220 | the bank form's selection becomes the bank document, and nothing else changes |
| RibManager.Normalize | components/RibManager.tsx:108-112 | the result is no longer than the input and contains only A-Z and 0-9 |
| RibManager.NormalizeAppend | components/RibManager.tsx:110 | normalisation works character by character |
| RibManager.NormalizeKeeps | components/RibManager.tsx:110 | text already in A-Z0-9 is left as it is |
| RibManager.NormalizeIdempotent | components/RibManager.tsx:108-118 | normalising twice is normalising once |
| RibManager.RemoveSpaces | components/RibManager.tsx:79-80 | the extracted IBAN and BIC have no white space left |
| RibManager.RemoveSpacesKeeps | components/RibManager.tsx:79-80 | text without white space is left as it is |
| RibManager.RemoveSpacesIdempotent | components/RibManager.tsx:79-80 | removing white space twice is removing it once |
| RibManager.RemoveSpacesCount | components/RibManager.tsx:79-80 | only white space is removed: the result's length plus the spaces counted is the input's length |
| RibManager.ValidIsComplete | components/RibManager.tsx:54-66 | bank details the form accepts pass the application's completeness check |
| RibManager.NormalizedValidity | components/RibManager.tsx:54-56 | for typed, normalised input the validity test is a pure length test |
| RibManager.State.constructor | components/RibManager.tsx:35-38 | empty fields, unsaved, not processing, no calls |
| RibManager.State.SyncInitialData | components/RibManager.tsx:43-52 | given data copies IBAN and BIC; no data clears both |
| RibManager.State.ValidityEffect | components/RibManager.tsx:54-66 | valid details are reported and announced only on the unsaved-to-valid transition; invalid ones report nothing and mark the form unsaved |
| RibManager.State.HandleIbanChange | components/RibManager.tsx:108-112 | the IBAN becomes the normalised text and the form unsaved |
| RibManager.State.HandleBicChange | components/RibManager.tsx:114-118 | the BIC becomes the normalised text and the form unsaved |
| RibManager.State.HandleFileChange | components/RibManager.tsx:68-90 | no file does nothing; otherwise the file is selected and the fields cleared. A successful extraction then fills them without white space and adds an info notice. A failure adds the error notice and withdraws the file. Processing ends false in every case |
| ProfileManager.OrElse | components/ProfileManager.tsx:32-36 | `x \|\| fallback`: x when non-empty, otherwise the fallback |
| ProfileManager.WithDefaultsSpec | components/ProfileManager.tsx:28-39 | filled fields are kept, an empty title becomes "Dr.", and defaulting twice is defaulting once |
| ProfileManager.ValidIsComplete | components/ProfileManager.tsx:41-58 | a profile the form accepts passes the application's completeness check |
| ProfileManager.BlankFieldInvalid | components/ProfileManager.tsx:43-47 | a last name of only white space makes the profile invalid |
| ProfileManager.DefaultsInvalid | components/ProfileManager.tsx:19-25 | the initial profile is not valid |
| ProfileManager.WithFieldSpec | components/ProfileManager.tsx:61-65 | the named field takes the value and every other field keeps its own |
| ProfileManager.WithFieldOverwrite | components/ProfileManager.tsx:63 | writing back a field's value changes nothing, and the last write wins |
| ProfileManager.State.constructor | components/ProfileManager.tsx:19-26 | the form starts at title "Dr.", with the other fields empty, unsaved |
| ProfileManager.State.SyncInitialData | components/ProfileManager.tsx:28-39 | given data replaces the form with missing fields defaulted; no data changes nothing |
| ProfileManager.State.ValidityEffect | components/ProfileManager.tsx:41-59 | a valid profile is reported, and announced only on the unsaved-to-valid transition; otherwise null is reported and the form marked unsaved |
| ProfileManager.State.HandleChange | components/ProfileManager.tsx:61-65 | only the named field changes, and the form becomes unsaved |
| ActionPanel.RejectedIffBadShape | components/ActionPanel.tsx:39 | the blank test adds nothing: an address is refused exactly when its shape is wrong |
| ActionPanel.State.constructor | components/ActionPanel.tsx:21-22 | no modal and an empty address |
| ActionPanel.State.SyncInitialEmail | components/ActionPanel.tsx:24-28 | a non-empty initial address overwrites the typed one; an empty one leaves it |
| ActionPanel.State.HandleGenerateClick | components/ActionPanel.tsx:30-36 | when ready the modal opens and nothing is called; otherwise the attempt handler is called and the modal stays as it was |
| ActionPanel.State.HandleSelectReportType | components/ActionPanel.tsx:38-46 | a refused address raises the alert and changes nothing else; an accepted one requests the report once, closes the modal and clears the address |
| ActionPanel.State.HandleEmailChange | components/ActionPanel.tsx:89 | the typed text becomes the address as it is; the modal and the calls are untouched |
| ActionPanel.State.HandleCancel | components/ActionPanel.tsx:48-51 | the modal closes and the address is kept |
| ExpenseUploader.ToExpensesSpec | components/ExpenseUploader.tsx:37-41 | one expense per record, in order, with the record's date, amount and type, the file it came from and a fresh id |
| ExpenseUploader.ErrorTextNamesFile | components/ExpenseUploader.tsx:47 | both forms of the error notice name the file |
| ExpenseUploader.FileCallsShape | components/ExpenseUploader.tsx:32-50 | one file is marked as processed and passes on exactly its own expenses |
| ExpenseUploader.TraceInOrder | components/ExpenseUploader.tsx:31-51 | every file is processed once, in list order, whatever the others give: an error stops nothing |
| ExpenseUploader.TraceIds | components/ExpenseUploader.tsx:37-42 | the expenses passed on number one per record found and carry consecutive ids |
| ExpenseUploader.ConsecutiveDistinct | components/ExpenseUploader.tsx:39 | no two expenses passed on share an id |
| ExpenseUploader.TraceExtractsNonEmpty | components/ExpenseUploader.tsx:36-42 | an expense list is passed on only when it is non-empty |
| ExpenseUploader.TraceNotices | components/ExpenseUploader.tsx:43-50 | a file without receipts gives the info notice naming it, and a failing file gives the error notice naming it |
| ExpenseUploader.State.constructor | components/ExpenseUploader.tsx:22 | not processing, no calls |
| ExpenseUploader.State.ProcessFile | components/ExpenseUploader.tsx:32-50 | one pass of the loop: the file is marked, and then its expenses, its info notice or its error notice |
| ExpenseUploader.State.HandleFileChange | components/ExpenseUploader.tsx:25-55 | no file does nothing; otherwise the trace of every file in order, then processing ends and the application is told that no file is being processed |
| ContractUploader.ToExpensesSpec | components/ContractUploader.tsx:39-44 | one expense per predefined charge, keeping amount and type, dated today and attached to the contract file |
| ContractUploader.UploadCallsSpec | components/ContractUploader.tsx:25-56 | no file only deselects. Success hands over exactly one extraction, with the address and provider passed through. Failure hands over none and keeps the file selected. The processing mark is cleared last |
| ContractUploader.State.constructor | components/ContractUploader.tsx:22 | not processing, no calls |
| ContractUploader.State.HandleFileChange | components/ContractUploader.tsx:25-56 | the calls are those of the upload, and processing ends false whenever a file was given |

## Left out

- Fonts, font sizes, colours, bold/normal switches, the table theme and JPEG quality: they do not change what is drawn where.
- The pdf.js worker URL, canvas creation and `canvas.toDataURL`, the image format string, and the `if (context)` guard around rendering: what the decoders report for a file is an input of the model, so a context that cannot be created is not modelled.
- A decoder fails for a whole file or not at all. A PDF whose `getPage` or `render` rejects after some pages were added is not modelled; neither is an `image/*` file whose `FileReader` errors, which stalls like an image jsPDF cannot read.
- autoTable's placement of rows (startY 68, row heights, page breaks): the number of rows per page and the cursor at each page's end are an input (`TablePage`), required only to place every row exactly once.
- Dates: `toLocaleDateString('fr-FR')`, `new Date()` and `toISOString()` are locale and clock functions. The generation date and "today" are opaque strings, given as parameters. Each row's date is `displayDate` applied to the stored date, where `displayDate` is a function parameter standing for `new Date(d).toLocaleDateString('fr-FR')`; its rendering ("2024-03-15" as "15/03/2024" in a time zone at or east of UTC) is not modelled.
- Amounts are whole cents (`int`). Floating-point rounding in `reduce` and `toFixed` is not modelled.
- localStorage persistence, the "remember me" box and JSON parsing in App.tsx: these are I/O. The application state starts empty.
- The extraction service (services/geminiService.ts) and its base64 reading of files: each result is an oracle input. services/geminiService.ts is not part of this model.
- `crypto.randomUUID`: ids are naturals handed out by `Types.IdSource`, so the expenses of one upload are distinct.
- React effect scheduling, `async`/`await` interleaving and a second click during generation: each handler and effect is modelled as one atomic step, and a `calls` log orders the callbacks.
- Notification ids, timers and `removeNotification`: a notice is its message and kind.
- The setters `handleProfileInfoChange` and `handleRibChange`, and the `onRememberMeChange` relay. These are plain assignments of what the forms report, and the forms' `calls` logs record that.
- `console.error` calls.
- Notification.tsx, Header.tsx and ExpenseList.tsx: rendering only.
- Unicode case mapping: `RibManager.Normalize` upper-cases ASCII letters only. Letters that `toUpperCase` maps into A-Z from outside ASCII (such as 'ß' to "SS", 'ı' to 'I', 'ſ' to 'S') are dropped by the model, while the code keeps them.
- White space is the set of characters JavaScript's `\s` and `trim` recognise. These include the Unicode space characters, line and paragraph separators, and the byte order mark.
- A null field in the service's JSON is modelled as the empty string. Both are falsy in every test the code makes.
- A null `FileList` is modelled as an empty list. The code treats the two alike.
- ExpenseUploader.State.HandleFileChange: `isProcessing` is true only during the loop. The model states only the final state and the ordered calls, not the intermediate renders.
- ContractUploader.State.HandleFileChange: the same holds for `isProcessing` during the analysis.
- The files being processed (`processingFiles`, `processingContract`) are application state that only the rendering reads: `processingFiles` is passed to ExpenseList and `processingContract` is read by nothing. The uploaders' `calls` logs record each `setProcessingFiles` and `setProcessingFile` call instead.
