# Incubez talent stories: a verified model of the submission logic

Incubez is a two-sided video-pitch platform. Founders post a pitch for a role and seekers send a video application. Each side fills in a five-step form, attaches a video, and unlocks the free price with the coupon `FNDRMET`. The server then receives the multipart upload, names and stores the video, and has a spreadsheet service that appends one row per submission and updates its status when called. The submit handlers themselves only keep the submission in memory. Both the server and the browser also keep small amounts of in-memory and UI state.

This project models the deterministic logic of that system in Dafny and proves what it promises:

- **Server side**
  - video object names and keys for Cloudflare R2 and Google Drive, and the temporary-file discipline of both uploads (`video_naming.dfy`, `object_store.dfy`);
  - the spreadsheet row layouts, the row id and row number arithmetic, and the status update (`sheets.dfy`, with the JSON text of multi-select fields in `json.dfy`);
  - the in-memory founder and seeker stores, with their application ids, lookups and paginated listings (`submissions.dfy`, `paging.dfy`);
  - the payment orders (`payments.dfy`) and the admin listing (`admin.dfy`);
  - the error-to-response classifier (`error_handler.dfy`), the upload routes' file filter, limits and stored names (`upload_routes.dfy`), and the CORS origin check (`cors.dfy`).
- **Browser side**
  - the shared wizard rules: coupon, step validation, draft merge and buttons (`wizard.dfy`);
  - the founder form (`founder_form.dfy`) and the seeker form with its progress-tracked submit and its retry logic, which the form's own submit never reaches (`seeker_form.dfy`);
  - the video picker (`video_uploader.dfy`);
  - the progress modal, the step indicator and the success-stories carousel (`progress_modal.dfy`, `step_indicator.dfy`, `success_stories.dfy`).

Some code changes state in place: the Sheets workbook, the stores, the payment ledger, the upload host and the React forms. That code is modelled as classes whose methods update fields and state the new state. The rest is pure functions with lemmas. Effects the model cannot perform are passed in as parameters:

- the clock, `Math.random`, uuids and the current year;
- every SDK or network call, given as its outcome, e.g. the list of answers the seeker form's posts would get.

The toasts a form shows are logged in a `notices` field. The bodies it posts, the retry waits and the progress modal's states are logged too.

Where the code departs from its own comments or from what a reader would expect, the model follows the code:

- The seeker form's upload percent is not monotone. It can show 100 while the upload runs, then 95 while saving (`SeekerForm.ProgressFallsBackAfterUpload`).
- The retry wait grows linearly, `(retryCount + 1) * 2000` ms, although a comment there calls it exponential.
- The seeker form's submit does not retry. The form passes the submit event where `onSubmit` expects a retry count, and `retryCount < maxRetries` is false on it (see "## Findings").
- Two of the seeker form's toasts are mis-encoded in its source file: the coupon toast (SeekerApplicationForm.jsx:132) reads "Amount: â‚¹0" and the refresh tip (line 335) starts with "ðŸ’¡". `SeekerForm.Notice.Text` gives those characters as the app shows them. The founder form's coupon toast has a correct `₹`.
- The pickers accept larger files than the routes: 250 MiB against 100 MiB for seekers, 500 MiB against 200 MiB for founders.
- The seeker and founder controllers only append to an in-memory array. They never call the storage, spreadsheet or email services, so the model does not chain them either.

## Model

| member | source | states |
|---|---|---|
| VideoNaming.KeepSlugOrSpace | server/src/services/cloudflareR2Service.js:116 | the result holds each letter, digit, hyphen and whitespace character of the input as often as the input does, and nothing else |
| VideoNaming.KeepSlugChars | server/src/services/googleDriveService.js:156 | the result holds each `a-z`, `0-9` and `-` character of the input as often as the input does, and nothing else |
| VideoNaming.DropLeadingSpace | server/src/services/googleDriveService.js:154 | the result is a suffix of the input that does not start with whitespace, and everything dropped before it is whitespace |
| VideoNaming.DropTrailingSpace | server/src/services/googleDriveService.js:154 | the result is a prefix of the input that does not end with whitespace, and everything dropped after it is whitespace |
| VideoNaming.Trim | server/src/services/googleDriveService.js:154 | the result of `trim` is no longer than the input and neither starts nor ends with whitespace |
| VideoNaming.TrimMiddle | server/src/services/googleDriveService.js:154 | the result of `trim` is a middle part of the input with only whitespace before and after it |
| VideoNaming.HyphenateSpaces | server/src/services/googleDriveService.js:155 | the result is no longer than the input, holds no whitespace, and each of its characters is a hyphen or a character of the input |
| VideoNaming.HyphenateKeepsOthers | server/src/services/googleDriveService.js:155 | every character that is neither whitespace nor a hyphen occurs in the result as often as in the input |
| VideoNaming.KeepConcat | server/src/services/googleDriveService.js:156 | both character filters work character by character: filtering a concatenation concatenates the filtered parts, so the kept characters stay in order |
| VideoNaming.TrimKeepsNonSpace | server/src/services/googleDriveService.js:154 | `trim` removes only whitespace: every other character occurs as often as in the input |
| VideoNaming.HyphenateRun | server/src/services/googleDriveService.js:155 | a run of whitespace followed by a non-space character, or by the end, becomes exactly one hyphen |
| VideoNaming.Prefix | server/src/services/cloudflareR2Service.js:118 | `substring(0, n)` is a prefix of at most n characters, and the whole text when it is no longer than n |
| VideoNaming.R2Slug | server/src/services/cloudflareR2Service.js:114-118 | the object-store slug holds only `a-z`, `0-9` and `-` and is at most 50 characters long |
| VideoNaming.DriveSlug | server/src/services/googleDriveService.js:152-156 | the Drive slug holds only `a-z`, `0-9` and `-` and is no longer than the name |
| VideoNaming.R2SlugKeepsLettersAndDigits | server/src/services/cloudflareR2Service.js:114-118 | the object-store slug holds each lower-case letter and digit of the lower-cased name at most as often as the name, and exactly as often when the name has at most 50 characters |
| VideoNaming.DriveSlugKeepsLettersAndDigits | server/src/services/googleDriveService.js:152-156 | the Drive slug holds each lower-case letter and digit of the lower-cased name exactly as often as the name |
| VideoNaming.R2SlugOfSlug | server/src/services/cloudflareR2Service.js:114-118 | a slug of at most 50 characters is its own object-store slug |
| VideoNaming.DriveSlugOfSlug | server/src/services/googleDriveService.js:152-156 | a slug is its own Drive slug |
| VideoNaming.LowerOfSlug | server/src/services/googleDriveService.js:153 | lower-casing leaves a slug unchanged |
| VideoNaming.KeepSlugOrSpaceOfSlug | server/src/services/cloudflareR2Service.js:116 | the object-store filter keeps a slug unchanged |
| VideoNaming.KeepSlugCharsOfSlug | server/src/services/googleDriveService.js:156 | the Drive filter keeps a slug unchanged |
| VideoNaming.HyphenateSpacesNoSpace | server/src/services/googleDriveService.js:155 | text without whitespace is left unchanged by the hyphen replacement |
| VideoNaming.R2SlugIdempotent | server/src/services/cloudflareR2Service.js:114-118 | cleaning an object-store slug again gives the same slug |
| VideoNaming.DriveSlugIdempotent | server/src/services/googleDriveService.js:152-156 | cleaning a Drive slug again gives the same slug |
| VideoNaming.TrimDropsOuterSpace | server/src/services/googleDriveService.js:154 | whitespace added around a text does not change its `trim` |
| VideoNaming.DriveSlugIgnoresOuterSpace | server/src/services/googleDriveService.js:152-156 | whitespace around a name does not change its Drive slug, because `trim` runs before the hyphen replacement |
| VideoNaming.R2SlugKeepsLeadingSpace | server/src/services/cloudflareR2Service.js:114-118 | the object-store variant has no trim: a leading space becomes a leading hyphen |
| VideoNaming.IndexOf | server/src/services/googleDriveService.js:158 | the first position of a character, or nothing when it does not occur |
| VideoNaming.IndexOfSlugThenUnderscore | server/src/services/googleDriveService.js:158 | in `slug_rest` the first underscore is the one after the slug |
| VideoNaming.VideoFileNameSplits | server/src/services/googleDriveService.js:158 | `${slug}_${applicationId}.mp4` splits back into that slug and that application id |
| VideoNaming.GeneratedNamesSplit | server/src/services/cloudflareR2Service.js:112-122 | the file names of both services split back into their slug and the application id |
| VideoNaming.R2FolderPrefix | server/src/services/cloudflareR2Service.js:29 | the folder is `founders/` exactly for `'founder'` and `seekers/` for any other folder type |
| VideoNaming.R2KeyFolder | server/src/services/cloudflareR2Service.js:29-30 | the key starts with `founders/` exactly for founders, with `seekers/` otherwise, and the file name follows the folder |
| VideoNaming.DriveFilePrefix | server/src/services/googleDriveService.js:42 | the Drive name starts with `FOUNDER_` exactly for `'founder'` and `SEEKER_` for any other folder type |
| ObjectStore.UploadHost.constructor | server/src/services/cloudflareR2Service.js:5-14 | the host starts with the given scratch files, an empty bucket and an empty Drive folder |
| ObjectStore.UploadHost.Unlink | server/src/services/cloudflareR2Service.js:58-63 | the temp file is gone when the unlink succeeds; a failed unlink only logs and changes nothing |
| ObjectStore.UploadHost.UploadVideoToR2 | server/src/services/cloudflareR2Service.js:24-84 | succeeds exactly when the temp file exists and the put succeeds; it then stores the key `founders/` or `seekers/` + file name with its content type and returns the public URL and that key; a failure leaves the bucket unchanged and carries the `Failed to upload video to Cloudflare R2: ` prefix; the temp file is removed on both paths when unlinking works |
| ObjectStore.UploadHost.UploadVideoToDrive | server/src/services/googleDriveService.js:34-106 | succeeds exactly when the temp file exists and both Drive calls succeed; it then appends one public file named `FOUNDER_`/`SEEKER_` + file name and returns its id and links; a failed permission call leaves the created private file behind; failures carry the `Failed to upload video to Google Drive: ` prefix; the temp file is removed on both paths when unlinking works |
| Sheets.TextOrEmpty | server/src/services/googleSheetsService.js:48 | a present text is written as itself, an absent one as `''` |
| Sheets.AmountOrZero | server/src/services/googleSheetsService.js:61 | a present amount is written as itself, an absent one as 0 |
| Sheets.ListCell | server/src/services/googleSheetsService.js:119-122 | a multi-select list is written as JSON text, `[]` when absent |
| Sheets.FounderRow | server/src/services/googleSheetsService.js:42-63 | the founder row has 20 cells (A to T): the id first, the application id second, `Pending` last |
| Sheets.SeekerRow | server/src/services/googleSheetsService.js:108-131 | the seeker row has 22 cells (A to V): the id first, the application id second, `Pending` last |
| Sheets.SeekerProfile | server/src/services/googleSheetsService.js:109-118 | columns A to J of the seeker row are ten cells |
| Sheets.SeekerListCells | server/src/services/googleSheetsService.js:119-122 | columns K to N of the seeker row are the four list cells |
| Sheets.SeekerClosing | server/src/services/googleSheetsService.js:123-130 | columns O to V of the seeker row are eight cells |
| Sheets.FounderRowDefaults | server/src/services/googleSheetsService.js:48-61 | with the optional fields absent, LinkedIn, video link, video id and coupon cells are `''` and the amount cell is 0 |
| Sheets.SeekerRowDefaults | server/src/services/googleSheetsService.js:114-129 | the same defaults at the seeker row's positions (F, Q, R, T, U) |
| Sheets.ListCellRoundTrip | server/src/services/googleSheetsService.js:119-122 | a list cell's JSON text decodes back to the list, or to the empty list when the list was absent |
| Sheets.SeekerRowLists | server/src/services/googleSheetsService.js:119-122 | each of the seeker row's cells K to N decodes back to the corresponding list of the application |
| Sheets.StatusColumnIsLastColumn | server/src/services/googleSheetsService.js:166 | the status column updated (T for founders, V for seekers) is the last column of the row that kind appends |
| Sheets.ColumnLength | server/src/services/googleSheetsService.js:33-38 | a column read returns rows up to the last row whose cell there is filled, and nothing after it is filled |
| Sheets.RowCount | server/src/services/googleSheetsService.js:38 | the row count is the column's length, or 1 when the read returns no values |
| Sheets.FindIndex | server/src/services/googleSheetsService.js:175 | `findIndex` returns the first row whose first cell equals the id, or nothing when no row matches |
| Sheets.SetCell | server/src/services/googleSheetsService.js:182-189 | writing one cell changes exactly that cell, padding a short row with blanks |
| Sheets.RowNumberIsAppendedRow | server/src/services/googleSheetsService.js:75-78 | when every row has its ID cell filled, the reported row number is the row the submission is appended at |
| Sheets.EmptySheetRowNumber | server/src/services/googleSheetsService.js:38-78 | on a sheet without a header the row is appended as row 1 but reported as row 2 |
| Sheets.Workbook.constructor | server/src/services/googleSheetsService.js:29-30 | the workbook holds the two sheets given |
| Sheets.Workbook.SaveFounderSubmission | server/src/services/googleSheetsService.js:26-85 | on success exactly one founder row, with ID = row count, is appended and row count + 1 is reported; any failure leaves the sheet unchanged and the error is the `Failed to save data to Google Sheets: ` prefix plus the cause |
| Sheets.Workbook.SaveSeekerApplication | server/src/services/googleSheetsService.js:92-153 | the same for the seeker sheet and the 22-cell row |
| Sheets.Workbook.UpdateApplicationStatus | server/src/services/googleSheetsService.js:161-198 | picks the sheet and status column by kind, finds the first matching id in column B and overwrites only that row's status cell; no values, no match or a failed call are errors that change nothing; the other sheet never changes |
| Text.Upper | client/src/components/forms/SeekerApplicationForm.jsx:866 | upper-casing keeps the length and maps each letter a to z to its capital, leaving every other character alone |
| Text.ZeroPaddedNumberRoundTrip | server/src/controllers/founderController.js:12 | a number padded with zeros to a width has at least that width, only digits, and reads back as the same number |
| Json.EncodeStringsRoundTrip | client/src/components/forms/SeekerApplicationForm.jsx:160-166 | the JSON text a list of strings is sent as decodes back to exactly that list |
| Json.EncodeStringsInjective | client/src/components/forms/SeekerApplicationForm.jsx:160-166 | two different lists are never sent as the same JSON text |
| Submissions.Price | server/src/controllers/founderController.js:33 | the response asks for 999 for a founder pitch and 499 for a seeker application (seekerController.js line 33) |
| Submissions.ApplicationId | server/src/controllers/founderController.js:12 | the id starts with `INC-FND-` for founders and `INC-SKR-` for seekers |
| Submissions.ApplicationIdSerial | server/src/controllers/seekerController.js:12 | the serial after the year reads back as the number it was made from, has at least four digits, and exactly four below 10000 |
| Submissions.ApplicationIdKindLetter | server/src/controllers/founderController.js:12 | the fifth character of an id is `F` for founders and `S` for seekers |
| Submissions.ApplicationIdInjective | server/src/controllers/founderController.js:12 | equal ids come from the same kind, and within one year from the same number |
| Submissions.NewRecord | server/src/controllers/founderController.js:15-23 | the record holds `id` and `applicationId` unless the body overrides them, every other body field, the upload path or null, `pending_payment` and the two times, and no other keys |
| Submissions.UploadVideo | server/src/controllers/founderController.js:46-63 | no file gives 400 `No video file provided`; otherwise the answer is `/uploads/` plus the stored name |
| Submissions.SubmittedVideoUrlMatchesUpload | server/src/controllers/founderController.js:19 | a submission with a file records the same path that `uploadVideo` answers with |
| Submissions.Find | server/src/controllers/founderController.js:77 | `find` returns the first record whose `id` or `applicationId` equals the id, or nothing when none does |
| Submissions.FilterStatus | server/src/controllers/founderController.js:104-108 | an absent or empty status keeps every record; otherwise exactly the records with that status are kept, in order |
| Submissions.FilterStatusSplits | server/src/controllers/founderController.js:104-108 | the filter works record by record: filtering a concatenation concatenates the filtered parts, and one record is kept or dropped by its status alone, so order and repeats are kept |
| Submissions.FilterOfPending | server/src/controllers/founderController.js:106-107 | since every stored record is `pending_payment`, the filter keeps all records for that status and none for any other |
| Submissions.PendingAppend | server/src/controllers/founderController.js:20-26 | storing a new record keeps every record pending payment |
| Submissions.Store.constructor | server/src/controllers/founderController.js:4 | the store starts empty |
| Submissions.Store.Submit | server/src/controllers/founderController.js:6-35 | the id numbers the submission after the records stored, exactly one record is appended, and the answer carries `order_` + uuid, the kind's price and its message |
| Submissions.Store.GetById | server/src/controllers/founderController.js:74-89 | found exactly when some record answers to the id, and then it is the first record answering to it, as `find` returns; otherwise 404 with the kind's `not found` message |
| Submissions.Store.GetAll | server/src/controllers/founderController.js:100-121 | page and limit default to 1 and 10; the total counts the filtered records, the page is echoed, the data is the requested page of them and the page count is `Math.ceil(total / limit)`; with both defaults at most 10 records come back |
| Submissions.FoundAfterAppend | server/src/controllers/founderController.js:77 | a record just appended is what a lookup of its id finds when no earlier record answers to that id |
| Submissions.NewRecordAnswersToId | server/src/controllers/founderController.js:15-18 | a fresh record answers to the application id given, unless the body carries its own `applicationId` |
| Paging.SliceBound | server/src/controllers/founderController.js:113 | a slice bound is clamped to the sequence; a negative bound counts back from the end |
| Paging.JsSlice | server/src/controllers/founderController.js:113 | both bounds are clamped as JavaScript does; the result is exactly the elements from the start bound up to the end bound, in order, and empty when the end bound is not past the start |
| Paging.TotalPages | server/src/controllers/founderController.js:120 | `Math.ceil(n / limit)` is not finite exactly when the limit is 0; with a positive limit it is the least page count whose pages hold n items |
| Paging.Paginate | server/src/controllers/founderController.js:111-121 | the listing reports every item in its total, echoes the page, returns at most `limit` items and reports `Math.ceil(total / limit)` pages |
| Paging.PageOfPositive | server/src/controllers/founderController.js:111-113 | page p of a positive limit holds the items from `(p-1)*limit` up to `p*limit`, and nothing past the end |
| Paging.ConcatIsPrefix | server/src/controllers/founderController.js:111-113 | pages 1 to k laid end to end are exactly the first `k*limit` items |
| Paging.PagesCoverAll | server/src/controllers/founderController.js:111-120 | pages 1 to `totalPages` cover every item once and in order, and every later page is empty |
| Paging.PageZeroEmpty | server/src/controllers/founderController.js:111-113 | page 0 is always empty |
| Paging.NegativePageCountsFromEnd | server/src/controllers/founderController.js:111-113 | a negative page is not rejected: with a positive limit it holds the items from `total + (page - 1) * limit` (at least 0) up to `total + page * limit`, and nothing once that end is not positive |
| Payments.NewOrder | server/src/controllers/paymentController.js:12-20 | a new order has id `order_` + uuid, the amount times 100 (paise), INR, status `created`, and no payment id, transaction id or completion time |
| Payments.TransactionId | server/src/controllers/paymentController.js:60 | a transaction id is `TXN` followed by at least one more character |
| Payments.Complete | server/src/controllers/paymentController.js:58-61 | verification sets status `completed`, the payment id, a `TXN` transaction id and the completion time, and keeps every other field |
| Payments.FindOrder | server/src/controllers/paymentController.js:48 | `find` returns the first order with the id, or nothing when there is none |
| Payments.NewOrderStatus | server/src/controllers/paymentController.js:91-97 | a fresh order reports `created`, the rupee amount it was created with, and null transaction id and completion time |
| Payments.CompletedStatus | server/src/controllers/paymentController.js:91-97 | a verified order reports `completed`, the same amount, the stamped transaction id and completion time |
| Payments.CompleteOverwrites | server/src/controllers/paymentController.js:58-61 | verifying twice leaves the order as the second verification set it |
| Payments.Ledger.constructor | server/src/controllers/paymentController.js:4 | the ledger starts empty |
| Payments.Ledger.CreateOrder | server/src/controllers/paymentController.js:6-31 | exactly one new order is appended and the answer carries its id, its amount in paise and INR; every order stays `created` or `completed` |
| Payments.Ledger.VerifyPayment | server/src/controllers/paymentController.js:42-68 | an unknown order gives 404 `Order not found` and changes nothing; otherwise only the first order with the id is completed, and the answer carries its application id and the new transaction id |
| Payments.Ledger.GetPaymentStatus | server/src/controllers/paymentController.js:79-97 | 404 `Payment not found` exactly when no order has the id; otherwise the status of the first order with that id, as `find` returns |
| Payments.VerifiedOrderStatus | server/src/controllers/paymentController.js:48-97 | after verification the status query finds the same order and reports it completed with the returned transaction id and the created amount |
| Payments.FindAfterUpdate | server/src/controllers/paymentController.js:48 | updating the found order in place keeps the lookup pointing at it |
| Admin.Select | server/src/controllers/adminController.js:17-23 | `founder` selects the founders, `seeker` the seekers, anything else founders followed by seekers |
| Admin.FilterStatus | server/src/controllers/adminController.js:26-28 | an absent or empty status keeps everything; otherwise exactly the entries with that status, in order |
| Admin.FilterStatusSplits | server/src/controllers/adminController.js:26-28 | the filter works entry by entry: filtering a concatenation concatenates the filtered parts, and one entry is kept or dropped by its status alone, so order and repeats are kept |
| Admin.Insert | server/src/controllers/adminController.js:31 | inserting one entry lengthens the list by one |
| Admin.Sort | server/src/controllers/adminController.js:31 | sorting keeps the length |
| Admin.InsertMultiset | server/src/controllers/adminController.js:31 | inserting adds exactly that entry |
| Admin.InsertSorted | server/src/controllers/adminController.js:31 | inserting into a newest-first list keeps it newest first |
| Admin.InsertStable | server/src/controllers/adminController.js:31 | inserting keeps entries with the same creation time in their order |
| Admin.SortSpec | server/src/controllers/adminController.js:31 | the sort returns the same entries, newest first, with entries of equal time in their original order (the stable sort of `Array.prototype.sort`) |
| Admin.SortNewestFirst | server/src/controllers/adminController.js:31 | the in-place insertion sort leaves the array equal to that sort of its old contents |
| Admin.InsertLast | server/src/controllers/adminController.js:31 | one insertion step places `a[i]` into the sorted prefix and leaves the rest of the array alone |
| Admin.ShiftStep | server/src/controllers/adminController.js:31 | one shift of the insertion step moves the gap one place left |
| Admin.ShiftDone | server/src/controllers/adminController.js:31 | writing the entry into the gap gives the sorted prefix, the entry, then the rest |
| Admin.InsertShift | server/src/controllers/adminController.js:31 | an entry newer than its left neighbour belongs left of it |
| Admin.InsertStop | server/src/controllers/adminController.js:31 | an entry not newer than its left neighbour stays where it is |
| Admin.GetAllSubmissions | server/src/controllers/adminController.js:10-44 | the listing is page `page` of `limit` of the selected, status-filtered entries sorted newest first, with their count as total and the page count of `Math.ceil` |
| Admin.ListingOrder | server/src/controllers/adminController.js:17-41 | the listing holds exactly the selected entries with that status, newest first, ties in their original order, and counts all of them; with both kinds listed, the filtered founders come before the filtered seekers |
| Admin.Approve | server/src/controllers/adminController.js:55-67 | the answer echoes the id with status `approved` |
| Admin.Reject | server/src/controllers/adminController.js:78-91 | the answer echoes the id and the reason with status `rejected` |
| ErrorHandler.Overwritten | server/src/middleware/errorHandler.js:34-50 | the later checks overwrite the earlier ones: a validation error gives its joined messages and 400, else code 11000 gives the duplicate message and 400, else a cast error gives `Resource not found` and 404, else the error's own message and status code |
| ErrorHandler.Handle | server/src/middleware/errorHandler.js:1-56 | the answer is never a success; a too-large file, an unexpected file and an invalid type get their 400 answers in that order of precedence; any other error gets the status and message left by the cast, duplicate-key and validation overwrites, 500 and `Server Error` when missing; only the too-large answer carries details; the message is never empty |
| ErrorHandler.FallThrough | server/src/middleware/errorHandler.js:52-55 | an error none of the checks recognise keeps its own non-zero status or gets 500, and its own non-empty message or `Server Error` |
| ErrorHandler.LaterOverwriteWins | server/src/middleware/errorHandler.js:40-50 | a validation error that also carries code 11000 is reported as a validation error |
| ErrorHandler.FirstMatchWins | server/src/middleware/errorHandler.js:8-32 | a too-large file is reported as such even when its message also says `Invalid file type` |
| ErrorHandler.JoinParts | server/src/middleware/errorHandler.js:48 | the joined validation message of one message is that message, and of more is the join of all but the last, `, `, then the last, so every member message appears in order; its length is theirs plus 2 per separator, and it starts with the first and ends with the last |
| ErrorHandler.StatusValues | server/src/middleware/errorHandler.js:9-52 | the status answered is 400, 404, 500 or the error's own status code |
| UploadRoutes.SizeLimit | server/src/routes/founderRoutes.js:33-35 | founder uploads may be 200 MiB, seeker uploads 100 MiB (seekerRoutes.js line 34) |
| UploadRoutes.FileFilter | server/src/routes/founderRoutes.js:36-43 | a type passes exactly when it is in the allowed list; otherwise the error message starts with `Invalid file type` |
| UploadRoutes.FileFilterAccepts | server/src/routes/founderRoutes.js:37-38 | exactly `video/mp4`, `video/quicktime`, `video/x-msvideo` and `video/webm` pass |
| UploadRoutes.RejectedTypeIs400 | server/src/middleware/errorHandler.js:26-32 | the error handler answers a rejected type with 400 and the invalid-type message |
| UploadRoutes.LastIndexOf | server/src/routes/founderRoutes.js:27 | the last position of a character, or nothing when it does not occur |
| UploadRoutes.DropTrailingSlashes | server/src/routes/founderRoutes.js:27 | a prefix of the path that does not end in `/` |
| UploadRoutes.Basename | server/src/routes/founderRoutes.js:27 | the last path component has no `/` |
| UploadRoutes.Extname | server/src/routes/founderRoutes.js:27 | `path.extname` is empty or one dot followed by text without dots or slashes |
| UploadRoutes.BasenameOfPlainName | server/src/routes/founderRoutes.js:27 | a name without slashes is its own last component |
| UploadRoutes.LastIndexOfAt | server/src/routes/founderRoutes.js:27 | a character present at i and nowhere to its right is last found at i |
| UploadRoutes.ExtnameOfPlainName | server/src/routes/founderRoutes.js:27 | `stem.ext` has extension `.ext` |
| UploadRoutes.ExtnameWithoutDot | server/src/routes/founderRoutes.js:27 | a name with no dot has no extension |
| UploadRoutes.ExtnameAfterPlainHead | server/src/routes/founderRoutes.js:27 | a head without dots or slashes in front of an extension keeps that extension |
| UploadRoutes.StoredNameKeepsExtension | server/src/routes/founderRoutes.js:25-28 | the stored file name ends with the original's extension and has that same extension |
| UploadRoutes.HeadIsPlain | server/src/routes/founderRoutes.js:26-27 | `fieldname-time-random` has no dots or slashes |
| UploadRoutes.DigitsHaveNoDots | server/src/routes/founderRoutes.js:26 | decimal digits are neither dots nor slashes |
| UploadRoutes.IngestAccepts | server/src/routes/founderRoutes.js:31-48 | a request passes exactly when it has at most one file part, under `video`, of an allowed type and no larger than the limit, and that part is the file handed on |
| UploadRoutes.SecondFileUnexpected | server/src/routes/founderRoutes.js:47-48 | once a file is taken, any further file part is an unexpected file |
| UploadRoutes.IngestErrorsAre400 | server/src/middleware/errorHandler.js:8-32 | every upload rejection is answered with 400 |
| UploadRoutes.MulterErrorsAre400 | server/src/middleware/errorHandler.js:8-24 | the unexpected-file and file-too-large errors are answered with 400 |
| UploadRoutes.LimitsDiffer | server/src/routes/seekerRoutes.js:34 | a file above 100 MiB and at most 200 MiB is taken by the founder routes and refused as too large by the seeker routes |
| UploadRoutes.TooLargeForRouter | server/src/middleware/errorHandler.js:9-15 | a single video part over a router's limit is refused as too large and answered 400 with the 100MB message, on either router |
| UploadRoutes.UploadRoutes | server/src/routes/founderRoutes.js:47-48 | each router has two upload routes, the second being `/upload-video` |
| Cors.AllowedOrigins | server/server.js:32-41 | the list is the seven fixed origins, then the client URL when it is set and non-empty; no entry is empty |
| Cors.CheckOrigin | server/server.js:44-54 | a request passes exactly when it has no origin or its origin is listed; otherwise the error is `Not allowed by CORS` |
| Cors.ServerOriginCheck | server/server.js:32-54 | with the server's list, a request passes exactly when it has no origin, a fixed origin or the configured client URL |
| Wizard.ApplyCoupon | client/src/components/forms/SeekerApplicationForm.jsx:127-139 | the coupon applies exactly when the upper-cased code is `FNDRMET`; applied means amount 0 and no error, otherwise the full price and "Invalid coupon code" |
| Wizard.CouponIgnoresCase | client/src/components/forms/SeekerApplicationForm.jsx:128 | entering the code in lower or upper case gives the same coupon result |
| Wizard.StepValid | client/src/components/forms/SeekerApplicationForm.jsx:83-108 | steps 1 to 3 pass exactly when their fields validate, step 4 exactly when a video is chosen, any other step always |
| Wizard.Merge | client/src/components/forms/SeekerApplicationForm.jsx:77-81 | the merged draft has the keys of both, the new values win, and old values not overwritten are kept |
| Wizard.MergeIdempotent | client/src/components/forms/SeekerApplicationForm.jsx:78 | saving the same step values twice leaves the draft as saving them once |
| Wizard.ButtonsKeepStepInRange | client/src/components/forms/SeekerApplicationForm.jsx:941-951 | on each of the five steps at least one of Previous and Next is shown, and either one moves to a step still between 1 and 5 |
| FounderForm.SimulatedId | client/src/components/forms/FounderPitchForm.jsx:145 | the made-up id has exactly the server's application id format for a founder |
| FounderForm.SimulatedIdSerial | client/src/components/forms/FounderPitchForm.jsx:145 | the id starts with `INC-FND-` and its serial is exactly four digits whose value is the random draw |
| FounderForm.Form.constructor | client/src/components/forms/FounderPitchForm.jsx:14-21 | the form starts at step 1 with an empty coupon, no video, full price 999, not submitting, and with the saved draft loaded |
| FounderForm.Form.SaveFormData | client/src/components/forms/FounderPitchForm.jsx:69-73 | the form data becomes the merge of the old data with the step's values, and the stored draft equals it |
| FounderForm.Form.HandleNext | client/src/components/forms/FounderPitchForm.jsx:102-109 | a step that validates moves one step on and saves the step's values; one that does not stays, changes nothing and, on step 4, shows "Please upload a video pitch"; only the step, the values, the draft and the toasts can change |
| FounderForm.Form.HandlePrevious | client/src/components/forms/FounderPitchForm.jsx:111-113 | one step back, staying in range |
| FounderForm.Form.EnterCouponCode | client/src/components/forms/FounderPitchForm.jsx:696 | the coupon field holds the typed text upper-cased |
| FounderForm.Form.ApplyCouponCode | client/src/components/forms/FounderPitchForm.jsx:115-127 | applied flag, error and amount follow the coupon rule with price 999, the amount stays 0 exactly when applied, and the matching toast is shown |
| FounderForm.Form.SelectVideo | client/src/components/forms/FounderPitchForm.jsx:570 | the chosen video becomes the form's video |
| FounderForm.Form.OnSubmit | client/src/components/forms/FounderPitchForm.jsx:129-209 | without an applied coupon only the coupon toast and no navigation; with one, the draft is removed, "Pitch submitted successfully!" is shown and the success page opens with the simulated id, amount 0, the transaction id and the coupon flag; the submitting flag always ends cleared and the wizard's values are untouched |
| FounderForm.Form.HandleSubmit | client/src/components/forms/FounderPitchForm.jsx:762 | the form's submit reaches `onSubmit` only with the required terms box ticked (line 732); unticked, no toast, no navigation and no change; ticked, exactly `onSubmit`'s effects |
| FounderForm.PickerAllowsWhatRouteRefuses | client/src/components/forms/FounderPitchForm.jsx:572 | a video above 200 MiB and at most 500 MiB passes the founder form's picker and is then answered 400 as too large by the founder routes |
| SeekerForm.StagesKnownToModal | client/src/components/forms/SeekerApplicationForm.jsx:153 | every stage the form sets is one of the modal's step ids (uploading at index 0, saving at 1, complete at 3), and the form never sets "email" |
| SeekerForm.PartOfShape | client/src/components/forms/SeekerApplicationForm.jsx:160-166 | an absent value adds no part, text is sent as it is, and a list is sent as one part whose JSON text decodes back to the list |
| SeekerForm.PartsCount | client/src/components/forms/SeekerApplicationForm.jsx:160-166 | the values contribute exactly one part per present value |
| SeekerForm.PartPosition | client/src/components/forms/SeekerApplicationForm.jsx:160-166 | each present value's part sits, in key order, right after the parts of the values before it |
| SeekerForm.BodyLayout | client/src/components/forms/SeekerApplicationForm.jsx:157-175 | the body holds the values' parts, then the video exactly when one is chosen, and always ends with `couponCode` and `amountPaid` |
| SeekerForm.BuildMultipart | client/src/components/forms/SeekerApplicationForm.jsx:157-175 | the loop over the values and the appends build exactly that body |
| SeekerForm.StageFor | client/src/components/forms/SeekerApplicationForm.jsx:183-193 | an upload percent below 90 shows the uploading stage and one of 90 or more the saving stage |
| SeekerForm.StageMonotone | client/src/components/forms/SeekerApplicationForm.jsx:188-192 | once a percent reaches the saving stage every higher percent stays there |
| SeekerForm.ProgressShownAt | client/src/components/forms/SeekerApplicationForm.jsx:183-193 | the modal gets one state per reported percent, each with the stage its percent calls for |
| SeekerForm.AttemptTraceEnds | client/src/components/forms/SeekerApplicationForm.jsx:151-205 | each post starts the modal at uploading 0 and a successful one ends it at complete 100 |
| SeekerForm.AttemptStagesAgree | client/src/components/forms/SeekerApplicationForm.jsx:183-205 | in every state the modal is put in during a post, the stage is uploading exactly when the percent is below 90 |
| SeekerForm.ProgressFallsBackAfterUpload | client/src/components/forms/SeekerApplicationForm.jsx:183-198 | the shown percent is not monotone: an upload reaching 100 is followed by 95 while saving |
| SeekerForm.FailureNotices | client/src/components/forms/SeekerApplicationForm.jsx:299-340 | a server message is shown first, then its details, then its tip, each exactly when present; without one, a network error or 502 gives the busy toast and the refresh tip, anything else the generic failure toast |
| SeekerForm.SettledRun | client/src/components/forms/SeekerApplicationForm.jsx:270-296 | a post that is not retried ends the submit: one post, no wait, its own modal states and closing toasts |
| SeekerForm.FailedRun | client/src/components/forms/SeekerApplicationForm.jsx:299-340 | a failure that is not retried makes one post, waits for nothing, shows only the upload states and the failure toasts, and is not a success |
| SeekerForm.RunBounds | client/src/components/forms/SeekerApplicationForm.jsx:142 | a submit makes at most one post more than the retries left, one wait between consecutive posts, and the outcome it keeps is not retryable at the argument it reached (the count one higher per retry; the event stays the event) |
| SeekerForm.RunWaits | client/src/components/forms/SeekerApplicationForm.jsx:288 | only a call with a count retries, and the wait before its k-th retry (counting from 1) is (count + k) * 2000 ms |
| SeekerForm.FirstSubmitRetries | client/src/components/forms/SeekerApplicationForm.jsx:274-296 | called with the default count 0: one post exactly when the first failure is not transient, three exactly when the first two are, never more, and the waits are 2000 then 4000 ms |
| SeekerForm.OneRetry | client/src/components/forms/SeekerApplicationForm.jsx:274-296 | from the default count, a transient failure followed by a post that is not transient makes two posts with one wait of 2000 ms |
| SeekerForm.TwoRetries | client/src/components/forms/SeekerApplicationForm.jsx:274-296 | from the default count, two transient failures in a row make three posts with waits of 2000 then 4000 ms |
| SeekerForm.FormSubmitNeverRetries | client/src/components/forms/SeekerApplicationForm.jsx:141-296 | called with the submit event, as the form's submit handler does: one post whatever its outcome, no wait, and a transient failure goes straight to the failure toasts |
| SeekerForm.RunTrace | client/src/components/forms/SeekerApplicationForm.jsx:151-296 | across all posts of a submit the modal starts at uploading 0, stage and percent always agree, and a submit that succeeds ends at complete 100 |
| SeekerForm.Form.constructor | client/src/components/forms/SeekerApplicationForm.jsx:15-27 | the form starts at step 1 with the coupon pre-filled as FNDRMET but not applied, full price 499, no video, the modal closed at uploading 0, and the saved draft loaded |
| SeekerForm.Form.SaveFormData | client/src/components/forms/SeekerApplicationForm.jsx:77-81 | the form data becomes the merge of the old data with the step's values, and the stored draft equals it |
| SeekerForm.Form.HandleNext | client/src/components/forms/SeekerApplicationForm.jsx:110-119 | a step that validates moves one step on and saves the step's values; one that does not stays, changes nothing and, on step 4, shows "Please upload your video application" |
| SeekerForm.Form.HandlePrevious | client/src/components/forms/SeekerApplicationForm.jsx:121-125 | one step back, staying in range |
| SeekerForm.Form.EnterCouponCode | client/src/components/forms/SeekerApplicationForm.jsx:866 | the coupon field holds the typed text upper-cased |
| SeekerForm.Form.ApplyCouponCode | client/src/components/forms/SeekerApplicationForm.jsx:127-139 | applied flag, error and amount follow the coupon rule with price 499, the amount stays 0 exactly when applied, and the matching toast is shown |
| SeekerForm.Form.SelectVideo | client/src/components/forms/SeekerApplicationForm.jsx:726 | the chosen video becomes the form's video |
| SeekerForm.PickerAllowsWhatRouteRefuses | client/src/components/forms/SeekerApplicationForm.jsx:728 | a video above 100 MiB and at most 250 MiB passes the seeker form's picker and is then answered 400 as too large by the seeker routes |
| SeekerForm.Form.OnUploadProgress | client/src/components/forms/SeekerApplicationForm.jsx:183-193 | the modal takes the reported percent and the stage it calls for |
| SeekerForm.Form.ShowStage | client/src/components/forms/SeekerApplicationForm.jsx:197-205 | the modal is put at the given stage and percent, and that state is recorded |
| SeekerForm.Form.ReportProgress | client/src/components/forms/SeekerApplicationForm.jsx:183-193 | the modal goes through exactly one state per reported percent, in order |
| SeekerForm.Form.Post | client/src/components/forms/SeekerApplicationForm.jsx:151-194 | a post opens the modal, marks the form submitting, sends the body built from the values, video and coupon, and shows uploading 0 then the progress |
| SeekerForm.Form.Respond | client/src/components/forms/SeekerApplicationForm.jsx:196-231 | a response shows saving 95; a success then shows complete 100, clears the draft and every value back to a fresh form, says so and opens the success page with amount 0; otherwise nothing else changes |
| SeekerForm.Form.OnSubmit | client/src/components/forms/SeekerApplicationForm.jsx:141-344 | without an applied coupon one toast and nothing else; with one, the posts, waits, modal states, toasts, reset and navigation are exactly those of the run over the network's answers for the argument given (the submit event, or a retry count), and the submitting flag always ends cleared |
| SeekerForm.Form.HandleSubmit | client/src/components/forms/SeekerApplicationForm.jsx:927 | the form's submit reaches `onSubmit` only with the required terms box ticked (line 897); unticked, nothing changes; ticked, `onSubmit` runs with the submit event as its retry argument, so with an applied coupon exactly one body is posted and there is no wait |
| SeekerForm.Form.TrySubmit | client/src/components/forms/SeekerApplicationForm.jsx:178-340 | after the coupon check, one post followed by finishing, retrying or giving up leaves exactly the retry run's effects |
| SeekerForm.Form.Answered | client/src/components/forms/SeekerApplicationForm.jsx:196-231 | a post that got a response leaves the effects of a one-post run |
| SeekerForm.Form.GaveUp | client/src/components/forms/SeekerApplicationForm.jsx:299-343 | a failure that is not retried closes the modal, shows the failure toasts and leaves the form's values unchanged |
| SeekerForm.Form.Fail | client/src/components/forms/SeekerApplicationForm.jsx:299-343 | the modal is closed, the form is no longer submitting and the failure toasts are shown |
| SeekerForm.Form.Retried | client/src/components/forms/SeekerApplicationForm.jsx:282-296 | a transient failure with a retry left posts once and then leaves the effects of the rest of the run |
| SeekerForm.Form.Backoff | client/src/components/forms/SeekerApplicationForm.jsx:284-296 | the modal closes, the wait of (retryCount + 1) * 2000 ms and the retry toast happen, then the submit runs again one retry further on; the form is left as by that run with the wait and the toast put first |
| VideoUploader.ValidateFile | client/src/components/forms/VideoUploader.jsx:47-59 | a file passes exactly when its type is accepted and its size is at most the limit; a wrong type gets the format message, checked before the size; a passing type that is too large gets the size message |
| VideoUploader.ProgressTicks | client/src/components/forms/VideoUploader.jsx:74-84 | the simulated progress shows ten values, 10, 20, ..., 100 |
| VideoUploader.ProgressStopsAtHundred | client/src/components/forms/VideoUploader.jsx:79-80 | the values rise strictly, only the last one reaches 100, and it is exactly 100 |
| VideoUploader.SimulateProgress | client/src/components/forms/VideoUploader.jsx:74-84 | the interval loop produces exactly those ten values |
| VideoUploader.Uploader.constructor | client/src/components/forms/VideoUploader.jsx:12-20 | the picker starts with its limit and formats (500 MiB and the four video types when left out), the existing video as preview, and progress 0 |
| VideoUploader.Uploader.HandleFile | client/src/components/forms/VideoUploader.jsx:61-85 | a rejected file only adds its error toast; an accepted one gets a preview, shows the ten progress values ending at 100, is handed to the form once, and adds the success toast |
| VideoUploader.Uploader.HandleFiles | client/src/components/forms/VideoUploader.jsx:87-103 | only the first file of a drop or selection is handled, with exactly the effects `handleFile` has on it, and an empty one changes nothing |
| VideoUploader.Uploader.RemoveVideo | client/src/components/forms/VideoUploader.jsx:105-115 | the preview is cleared, progress goes to 0 and the form is told there is no video, with no toast |
| VideoUploader.SizeBoundary | client/src/components/forms/VideoUploader.jsx:53 | a file of exactly the limit passes; one byte more is refused for its size |
| VideoUploader.FormatCheckedFirst | client/src/components/forms/VideoUploader.jsx:48-51 | a file of a wrong type is refused for its type whatever its size |
| ProgressModal.IndexOf | client/src/components/common/UploadProgressModal.jsx:32-34 | the index is the first position holding the id, and -1 exactly when no step has it |
| ProgressModal.StepIndexOfEachId | client/src/components/common/UploadProgressModal.jsx:5-34 | each of the four step ids (uploading, saving, email, complete) finds its own position |
| ProgressModal.StatusOf | client/src/components/common/UploadProgressModal.jsx:95-97 | a step is active exactly at the current index, completed exactly before it and pending exactly after it |
| ProgressModal.KnownStepPartition | client/src/components/common/UploadProgressModal.jsx:93-97 | for a known current step, the steps before it are completed, it alone is active and those after it are pending |
| ProgressModal.UnknownStepAllPending | client/src/components/common/UploadProgressModal.jsx:32-36 | for an unknown current step no step is active or completed: all are pending |
| StepIndicator.StatusOf | client/src/components/common/StepIndicator.jsx:10-13 | a step is completed, active or inactive exactly when its number is below, equal to or above the current step |
| StepIndicator.Steps | client/src/components/common/StepIndicator.jsx:9-13 | one circle per step, numbered from 1 |
| StepIndicator.Connectors | client/src/components/common/StepIndicator.jsx:43 | a connector between each pair of neighbouring steps, so one fewer than the steps |
| StepIndicator.CheckMeansCompleted | client/src/components/common/StepIndicator.jsx:29-33 | a circle shows the check mark exactly when its step is before the current one, and its number otherwise |
| StepIndicator.ConnectorFill | client/src/components/common/StepIndicator.jsx:43-54 | the connector after a step is filled exactly when that step is completed |
| StepIndicator.ActiveStep | client/src/components/common/StepIndicator.jsx:12 | when the current step is in range exactly one circle is active, the current one; otherwise none is |
| SuccessStories.JsRem | client/src/components/home/SuccessStories.jsx:38 | JavaScript's remainder: Euclidean for a non-negative dividend, the negated remainder of the magnitude otherwise |
| SuccessStories.StepsStayInRange | client/src/components/home/SuccessStories.jsx:37-43 | from any of the three stories, next and previous stay in range and undo each other |
| SuccessStories.Wraps | client/src/components/home/SuccessStories.jsx:37-43 | previous from the first story is the last and next from the last is the first |
| SuccessStories.NextTimesIsShift | client/src/components/home/SuccessStories.jsx:41-43 | k presses of next move k stories on, modulo three |
| SuccessStories.FullCircle | client/src/components/home/SuccessStories.jsx:41-43 | three presses of next come back to the same story |
| SuccessStories.OneDotHighlighted | client/src/components/home/SuccessStories.jsx:45-47 | after a dot is clicked, that dot and no other is highlighted |

## Left out

- External services are not modelled. This covers the S3 client, Google Drive (including `getOrCreateSubfolder`), the Google Sheets API, axios and nodemailer. Each call is a parameter holding its outcome, e.g. success or failure, the rows read, or the answers a post gets.
- `server/src/services/emailService.js` is not part of this model. It only builds HTML and hands it to nodemailer.
- `deleteVideoFromR2` and `deleteVideoFromDrive` are not modelled. No modelled path calls them.
- The services are not chained into one orchestration. The controllers in the source never call them.
- Concurrency is not modelled. The spreadsheet's read-then-append race between simultaneous requests is left out, and each save is one sequential append.
- The clock, `Math.random`, uuids, `new Date().getFullYear()` and multer's random filename suffix are parameters.
- Timers are not modelled. The retry back-off waits are logged as millisecond values; the other delays (the picker's progress interval, the toast delays, the founder submit's delay) are not.
- Toasts are an enumeration of their texts, without their order in time. The details and tip toasts of a server error appear in time order after 500 ms and 1000 ms, but are logged immediately.
- Animations and scrolling are left out, and so is the 2000 ms simulated delay in the founder submit.
- Floating point is not modelled. This covers `Math.round` of the axios progress, where percents arrive already rounded as integers, `formatFileSize`, and `toFixed`.
- VideoUploader.TooLargeMessage: the megabyte figure uses integer division where JavaScript divides exactly. The two differ only for a limit that is not a whole number of MiB, and the source never uses one.
- MediaRecorder recording in the video picker, object URL creation and revocation, and the file input element are left out. The picker sees a chosen file as a value.
- localStorage is modelled only as the draft value each form keeps. JSON parsing of a stored draft is assumed to give back the stored values.
- SeekerForm.Form.OnSubmit: the form's answers are an ordered list of named values. Every non-list value is already text, so numbers and booleans are not told apart.
- SeekerForm.Form.OnSubmit: a response without `success` keeps the modal open at saving 95 and adds no toast. The model states this, and it states nothing about what the user does next.
- The progress modal's `email` step is never selected by the form. Its only effect is that `complete` sits at index 3.
- Submissions.NewRecord: `createdAt` and `updatedAt` are two reads of the clock; the model takes one time for both, so it does not capture a millisecond passing between them.
- Payments.Ledger.VerifyPayment: the transaction id's `Date.now()` and `completedAt` are two reads of the clock; the model takes one time for both (also in `Payments.Complete`), so it does not capture a millisecond passing between them.
- FounderForm.Form.OnSubmit: the `catch` branch is not modelled. With the simulated submit, no statement in the `try` can throw.
- FounderForm.Form.HandleSubmit: the form library's validation is one flag, the last step's required terms box. The fields of earlier steps are taken as already checked by `HandleNext`, and the error text shown under an unticked box is not modelled.
- SeekerForm.Form.HandleSubmit: as for the founder form, validation is the one terms-box flag and its error text is not modelled.
- React's stale closures and batched state updates are not modelled. Each handler reads the state as it was when the handler started, which is what the source's closures see.
- Text.Upper: case mapping covers ASCII letters only, where JavaScript maps all of Unicode. The same holds for the lower-casing in the video slugs.
- The spreadsheet's `USER_ENTERED` parsing of cell text is left out. Cells are stored as written.
- Paging.Paginate: query parameters are integers. `NaN` and non-numeric `page` or `limit` strings are left out.
- Payments.Ledger.CreateOrder: the amount is an integer number of rupees. A fractional amount (floating point: `9.99 * 100` is not 999), a numeric string that `*` coerces, and an absent amount that gives `NaN` paise are not modelled.
- ErrorHandler.Handle: a `ValidationError` is given its list of member messages. An `errors` object missing from such an error, which would throw in the source, is not modelled.
- The controllers' `try`/`catch` paths that answer 500 are left out. The modelled in-memory operations cannot throw.
- The admin controller's data source is a stub returning empty lists. The founder and seeker lists are therefore parameters.
- `getStats` returns constants and is left out.
- Static and marketing pages, routing, the layout components, the configuration files and the route wiring of the admin and payment routers are left out.

## Findings

| source | as written | input that shows it | evidently intended | confidence | as-written member | corrected member |
|---|---|---|---|---|---|---|
| client/src/components/forms/SeekerApplicationForm.jsx:927 | `handleSubmit(onSubmit)` calls `onSubmit(data, event)`, so `retryCount` holds the submit event and `retryCount < maxRetries` (line 279) is false: a form submit never retries | a submit whose first post fails with `ERR_NETWORK`: one post, then the busy toast and the refresh tip, with no wait and no second post | the first call starts at the default count 0 and retries a transient failure twice, waiting 2000 ms and then 4000 ms | high; not executed | SeekerForm.FormSubmitNeverRetries | SeekerForm.FirstSubmitRetries |
