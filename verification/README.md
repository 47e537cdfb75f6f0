# Photo-edit requests: intake and admin triage, modelled in Dafny

The system is a browser-only workflow for photo-editing requests. A customer-facing request
page (`request.js`) validates a photo and a payment screenshot, an email address and
instructions, builds a submission record and appends it to a collection kept in the browser's
local storage. An admin dashboard (`admin.js`) sets up and checks the single operator's
credentials, shows the collection as three status lists (pending, in progress, completed)
with counters and per-card buttons, and changes the collection in three ways: reject (remove
by identifier), approve (attach an `https://` payment link, moving the record to in-progress)
and mark completed.

The model has four modules, one file each:

- `Text` (`text.dfy`): the JavaScript string operations the pages depend on. `length` counts
  UTF-16 code units. `trim` strips ECMA-262 whitespace and line terminators. `split` works on a
  one-character separator. `Decimal` is the decimal text of `Date.now()`.
- `Submissions` (`submissions.dfy`): the record schema, the shared collection (`Store`, a class
  whose `records` field is the `photoEditSubmissions` entry), and the list operations `filter`,
  `find` and "change the record `find` returned".
- `Admin` (`admin.js` → `admin.dfy`): the pure list, card and credential functions, and the
  `Dashboard` class. Its fields are the stored credentials, the `adminLoggedIn` flag, the
  request the payment-link modal was opened for, and the store.
- `Intake` (`request.js` → `intake.dfy`): the `IntakeForm` class, which holds the picked photo
  and payment screenshot, and the `PendingSubmission` class. `PendingSubmission` is the closure
  of `storeSubmission`: it holds the record being filled in and the completion counter that
  triggers the save.

External pieces are parameters:

- the SHA-256 hex digest of a password is the arrow `Dashboard.hash`;
- the site-wide `validateImageFile` and `validateEmail` are arrows of `IntakeForm`;
- timestamps, `Date.now()`, the random identifier suffix and the data URLs are plain arguments;
- the operator's answer to `confirm` is a boolean argument.

In several places the code does less than the code around it suggests; the model follows the code:

- every stored request has the price `$25.00` (`request.js:202`), although `config.js:11-13` lists a
  base price and add-on prices;
- the request page never stores `rush_order` or `high_res` (`request.js:189-206`), so the dashboard's
  options line (`admin.js:262-263`) always reads `Standard` for real requests; only the demo data
  (`admin.js:550-564`) sets them;
- the payment screenshot is required before submitting (`request.js:162-165`), although the record
  builder and the reads (`request.js:199-201`, `:230`) still allow for a missing one;
- `markCompleted` and `sendStripeLink` (`admin.js:348-361`, `:380-409`) do not look at the record's
  current status, so a pending record can be completed directly and a completed one moved back to
  in-progress; only the card buttons (`admin.js:267-298`) keep the lifecycle moving forward, and
  only while identifiers are unique (`Admin.CardActionsAdvance`);
- reject removes every record with the identifier (`admin.js:340`), while the two updates change only
  the first (`admin.js:350`, `:392`).

## Model

| member | source | states |
|---|---|---|
| Text.Utf16Length | admin.js:96-112 | a string's JavaScript `length` counts UTF-16 code units: between the number of characters and twice it, equal to it for BMP-only text |
| Text.TrimStartSpec | admin.js:87 | `trim`'s left half drops exactly the leading whitespace |
| Text.TrimEndSpec | admin.js:87 | `trim`'s right half drops exactly the trailing whitespace |
| Text.TrimSpec | admin.js:87 | `trim` keeps a contiguous piece of the input, everything cut away is whitespace, and the piece neither starts nor ends with whitespace |
| Text.TrimIdempotent | admin.js:140 | trimming an already trimmed username changes nothing |
| Text.Split | admin.js:309 | `split('_')` gives at least one piece, no piece contains `_`, and joining the pieces with `_` gives back the input |
| Text.SplitAfterSeparator | admin.js:309 | splitting `a_b` where `a` has no `_` gives `a` followed by the pieces of `b` |
| Text.Decimal | request.js:192 | the decimal text of `Date.now()` is non-empty, all digits, without a leading zero |
| Text.DecimalRoundTrip | request.js:192 | reading the decimal text back gives the timestamp |
| Submissions.ParseStatus | admin.js:214-244 | a stored status text is pending, in-progress or completed exactly when it equals `pending`, `in-progress` or `completed`; any other text is kept as an unknown status |
| Submissions.Filter | admin.js:340 | `filter` keeps exactly the records satisfying the criterion and never lengthens the collection |
| Submissions.FilterAppend | admin.js:213-244 | filtering distributes over concatenation, so kept records stay in their original order |
| Submissions.FilterKeepsAll | admin.js:340 | a collection whose every record qualifies is kept as it is |
| Submissions.FilterDropsAll | admin.js:214 | a collection none of whose records qualifies filters to the empty list |
| Submissions.RemovedCount | admin.js:340 | rejecting an identifier shortens the collection by exactly the number of records carrying it |
| Submissions.UniqueIdCount | admin.js:340 | with unique identifiers, an identifier occurs once or not at all |
| Submissions.FilterCommutes | admin.js:214 | filtering by status after removing an identifier equals removing it after filtering by status |
| Submissions.FilterKeepsUniqueIds | admin.js:340 | filtering never introduces a duplicate identifier |
| Submissions.StatusPartition | admin.js:195-256 | the pending, in-progress and completed lists and the records with any other status together account for every record exactly once |
| Submissions.FirstIndex | admin.js:350 | `find` by identifier returns the first position holding that identifier, or nothing when none does |
| Submissions.Apply | admin.js:354-355 | completing sets the status `completed` and `completed_date`; approving sets `in-progress`, `stripe_link` and `approved_date`; no other field changes |
| Submissions.UpdateFirstAt | admin.js:349-357 | "find then change" changes nothing when the identifier is absent, else exactly the first record with it |
| Submissions.UpdateFirstKeepsIds | admin.js:392-399 | an update keeps the length and every identifier, hence their uniqueness |
| Submissions.AppendKeepsUniqueIds | request.js:248 | appending a record with a fresh identifier keeps identifiers unique |
| Submissions.Store.Find | admin.js:350 | the search loop returns the position `find` would report |
| Admin.StartupScreen | admin.js:53-63 | on load: setup when no credentials exist, the panel when the flag is `'true'`, the login form otherwise |
| Admin.CheckSetup | admin.js:96-112 | the setup checks run in order (trimmed username ≥ 3, password ≥ 6, confirmation equal) and the first failure decides |
| Admin.VerifyAfterSetup | admin.js:31-37 | with stored credentials, and a tried password that does not collide with the stored one under the digest, verification succeeds iff both the username and the password match |
| Admin.VerifyWithoutCredentials | admin.js:32-33 | with nothing stored, verification fails |
| Admin.OptionsTextSpec | admin.js:260-265 | the options line is exactly `Rush Order, High Resolution`, `Rush Order`, `High Resolution` or `Standard` according to the add-ons; so it is `Standard` iff no add-on is set, starts with `Rush Order` iff rush is set, ends with `High Resolution` iff high resolution is set |
| Admin.OptionsTextInjective | admin.js:260-265 | different add-on choices give different options lines |
| Admin.CardActions | admin.js:267-298 | pending cards offer exactly the payment-link and reject buttons, in-progress cards exactly complete and contact, every other card only view details |
| Admin.CardActionsAdvance | admin.js:267-298 | with unique identifiers, a status-changing button on a listed card changes exactly that card's record, moving it one stage forward, and no other record |
| Admin.RejectPendingLowersCount | admin.js:336-343 | with unique identifiers, rejecting a pending request and reloading lowers the pending counter by exactly one |
| Admin.ListsAfterAppend | admin.js:213-244 | an appended record lands at the end of the list for its status only, and a pending one raises the pending counter by one |
| Admin.RequestNumberOfRequestId | admin.js:309 | the request number a card shows for an identifier made by the request page is the timestamp text, whatever the suffix |
| Admin.RejectRemovesOne | admin.js:336-346 | with unique identifiers, rejecting a present request removes exactly one record and leaves none with its identifier |
| Admin.Dashboard.Setup | admin.js:84-135 | on the first failing check nothing is stored; when all pass, the trimmed name, the digest and the time are stored, the flag is `'true'`, and the next load shows the panel |
| Admin.Dashboard.Login | admin.js:137-162 | the flag becomes `'true'` exactly when the trimmed username and password verify; credentials unchanged |
| Admin.Dashboard.Logout | admin.js:171-178 | the flag is removed and the next load shows the login form |
| Admin.Dashboard.RejectRequest | admin.js:336-346 | declined: collection untouched; confirmed: collection filtered by identifier, no record with it remains |
| Admin.Dashboard.ApproveRequest | admin.js:326-334 | the modal is opened for the identifier only when a record has it |
| Admin.Dashboard.SendStripeLink | admin.js:380-409 | the link is refused, with the collection unchanged, exactly when it is empty or not `https://`; otherwise the first record with the modal's identifier becomes in-progress with exactly that link and an approval time, all else unchanged; an absent identifier writes nothing |
| Admin.Dashboard.MarkCompletedRequest | admin.js:348-361 | an absent identifier writes nothing; otherwise the first record with it becomes completed with a completion time, whatever its status, all else and the length unchanged |
| Intake.CheckPaymentFile | request.js:121-135 | the screenshot is accepted iff its type is one of the four image types and its size is at most 5·1024·1024 bytes; the type is checked first |
| Intake.CheckSubmit | request.js:150-176 | submit checks run in order (photo, screenshot, email, trimmed instructions ≥ 10) and the first failure decides |
| Intake.BuildRecord | request.js:189-206 | the record has the identifier `req_<timestamp>_<suffix>`, is pending, paid, at `$25.00`, with `Not provided` for an empty name and file metadata defaulting to `''`/0, and no add-ons, link, dates or payloads |
| Intake.CardShowsSubmitTime | request.js:192 | the request number the dashboard shows for a record built by the request page (`admin.js:309`) is the decimal text of its submission time, and reads back as that time |
| Intake.SaveSubmissionData | request.js:242-252 | the collection becomes the old one followed by the new record |
| Intake.PendingSubmission.constructor | request.js:209-239 | one read starts per picked file and each missing file counts as processed at once; with no files the record is saved right away |
| Intake.PendingSubmission.CheckAllFilesProcessed | request.js:212-217 | each completion adds one to the counter, and the record is appended exactly when the counter reaches two |
| Intake.PendingSubmission.PhotoLoaded | request.js:219-225 | the photo's data URL enters the record, then one completion is counted; the save happens only if the other read is done |
| Intake.PendingSubmission.PaymentLoaded | request.js:230-236 | the screenshot's data URL enters the record, then one completion is counted; the save happens only if the other read is done |
| Intake.IntakeForm.ProcessFile | request.js:70-91 | the picked photo is replaced only when the image validator accepts the file |
| Intake.IntakeForm.ProcessPaymentFile | request.js:121-148 | the picked screenshot is replaced only when it passes the type and size checks, otherwise it keeps its previous value |
| Intake.IntakeForm.HandleFormSubmit | request.js:150-187 | a failed check returns without building a record; on success the record is built and both reads start, with nothing yet written |
| Intake.SubmitThenBothReads | request.js:209-239 | in either completion order, a successful submit appends exactly one record, carrying both data URLs, after the existing ones; a failed one writes nothing |

## Left out

- `config.js` is not part of this model: it holds static constants and page-load DOM updates, and its prices are not used when a request is submitted.
- DOM updates, `alert`, notifications, the success view, the submit button's loading state, tab switching and the 30-second auto-refresh are not modelled: they change no state the model tracks.
- Local storage and JSON are replaced by fields. The collection is a `seq<Record>` in `Store`, and credentials and the login flag are fields of `Dashboard`. So JSON parse errors and storage-quota failures are not modelled: the `catch` of `saveSubmissionData` and of `handleSetup`, and the error path of `handleLogin`.
- SHA-256 via `crypto.subtle` (FIPS 180-4) and `TextEncoder` are not modelled: a foreign call, represented by the arrow `hash`. Nothing is assumed about it except, in `Admin.VerifyAfterSetup`, that the password tried does not collide with the stored one.
- FileReader's data-URL encoding (RFC 2397) and the asynchronous delivery of `onload` are not modelled. A payload is an opaque string, and each callback is a method the browser calls at most once per started read.
- `window.PhotoEditPro.validateImageFile` and `validateEmail` are not modelled: their code is not part of this model. They are uninterpreted arrows.
- `formatFileSize`, the revenue sum and the "completed today" count are not modelled: they use floating point (`Math.log`, `toFixed`, `parseFloat`) or the clock.
- The email template, `contactCustomer`, `viewDetails`, `copyEmailTemplate`, `closeStripeModal`, `showStripeModal`'s text, `addDemoData` and `submitAnother` are not modelled: they produce text or DOM changes and never write the collection.
- The drag-and-drop and `change` handlers are not modelled separately: they only forward the first file to `processFile` or `processPaymentFile`, which are modelled.
- Strings are sequences of Unicode scalar values, so JavaScript strings holding unpaired surrogates are not representable.
- Text.Decimal: covers the integer form of `Date.now()`; exponent notation for values of 10^21 and above is not modelled.
- Admin.CardActionsAdvance: holds only for collections with unique identifiers. Nothing in the pages enforces uniqueness (the identifier is the time plus a random suffix), and with a duplicated identifier a card's button changes the first record carrying it, which may be another record and may move it backward.
