# qc-hub core, modelled in Dafny

qc-hub is a campus hub built from Netlify functions and two React pages. This
project models its request handlers and the views the pages derive from the data
those handlers return:

- **Submission moderation.** All submissions live in one `"submissions"` list.
  - A create validates and trims the fields, marks the record `pending` and puts
    it at the head of the list.
  - An admin review rewrites the first record with the given id as approved or
    rejected.
  - The public list shows the approved records; the admin list shows all.
  - Every admin call is gated by the shared secret `ADMIN_TOKEN`, sent in the
    `x-admin-token` header.
- **Hub status document** (`"hub-state"`).
  - The first read stores a seeded default.
  - An admin update replaces `manual` and/or `monitors` wholesale.
  - The uptime sweep skips when the last run is under a minute old. Otherwise it
    merges one result per monitor into `monitorResults` and stamps `lastAutoRun`.
- **Calendar cache** (`"calendar-cache"`). An entry younger than 15 minutes is
  served as is. Otherwise the parsed feed is filtered to today through seven days
  later, sorted by start, cut to 30 events and written back.
- **Per-id note records** (the `"submissions"` and `"uploads"` blob stores):
  - building a note record with its defaults;
  - rating a note, which adds to its counters;
  - validating an uploaded file and building its id and download URL.
- **Page views.**
  - The home page shows monitor cards, the events of the coming week and a
    case-insensitive search.
  - The admin page adds and edits manual status items, lists pending submissions
    and builds the body it posts when saving.

One module per source file:

| module | file |
|---|---|
| `Types` | `_types.ts` |
| `Http` | `_http.ts` |
| `Blobs` | `_store.ts` and the `getStore` calls |
| `SubmissionsCreate`, `SubmissionsAdminReview`, `SubmissionsPublic`, `SubmissionsAdminList` | the four submission handlers |
| `StatusGet`, `StatusUpdate`, `UptimeCheck` | the three status handlers |
| `CalendarGet` | `calendar-get.ts` |
| `SubmitNote`, `RateSubmission`, `UploadFile` | the note handlers |
| `HomePage` | `app/page.tsx` |
| `AdminPage` | `app/admin/page.tsx` |

Three modules are shared: `Strings` holds JavaScript's `trim`, `toLowerCase`,
`includes`, `slice` and decimal printing. `Seqs` holds `filter`. `Lifecycle`
states properties that span several handlers.

How the program's pieces are represented:

- **Stores.** Each key of the `"qc-hub"` store is a field of `Blobs.HubStore`.
  - The field is `None` until the key is first written.
  - `getJSON(key, fallback)` is `field.GetOr(fallback)`, and `setJSON` assigns
    `Some(value)`.
  - The per-id stores are classes holding a `map`.
  - Handlers are methods that change only the field they write.
- **Inputs that become parameters.**
  - The clock: `Date.now()` as integer milliseconds, ISO timestamps as strings.
  - `Date.parse`, as a function `string -> Option<int>`.
  - Random ids.
  - `ADMIN_TOKEN` and `ICAL_URL`, in `Http.Env`.
  - Each probe's outcome: an HTTP status, or `None` when the fetch threw.
  - The parsed iCalendar components.
  - The local-time window bounds.
- **Request bodies.** A body is `Option` of a record. `None` means it did not
  parse; an absent field is `None`.

Where the code's behaviour is looser than its own type declarations, the model
follows the behaviour:

- The review body declares `action?: "approve" | "reject"`
  (netlify/functions/submissions-admin-review.ts:13), but any non-empty action
  passes, and anything other than `"approve"` rejects.
- Reviewing an already reviewed submission is allowed.
- `Submission.type` is declared as one of four values
  (netlify/functions/_types.ts:38), but a create stores any non-empty `type`
  unchecked.
- The update handler starts from a document with no monitors when none is
  stored, not from the two seeded ones.

## Model

| member | source | states |
|---|---|---|
| Http.Json | netlify/functions/_http.ts:2-7 | the body is the data; the status is the init's, or 200; the headers are the init's keys plus content-type and cache-control; those two are forced to the JSON type and `no-store`; every other header the caller passed is kept |
| Http.BadRequest | netlify/functions/_http.ts:9-11 | status 400, body `{ok:false, error:m}`, the two JSON headers set |
| Http.Unauthorized | netlify/functions/_http.ts:13-15 | status 401, body `{ok:false, error:"Unauthorized"}`, the two JSON headers set |
| Http.RequireAdmin | netlify/functions/_http.ts:17-21 | admin iff the configured token is present and non-empty and the `x-admin-token` header is present and equal to it |
| Http.NoTokenNoAdmin | netlify/functions/_http.ts:18-20 | with the token unset or empty, no request is admin, whatever header it sends |
| Http.HeaderOrEmpty | netlify/functions/_http.ts:18 | `headers.get(name)` defaulted to "": the header's value when sent; empty iff it is missing or empty |
| Http.Configured | netlify/functions/_http.ts:19 | `process.env.X` defaulted to "": the variable's value when set; empty iff it is unset or empty |
| Http.MethodNotAllowed | netlify/functions/submissions-create.ts:13 | `json({ ok: false }, { status: 405 })`: status 405, body `{ok:false}` with no error, exactly the two JSON headers |
| Http.JsonReply | netlify/functions/submit-note.ts:55-61 | `new Response(JSON.stringify(body), { status, headers })`: the given status and body, with `Content-Type: application/json` as the only header |
| Http.TextReply | netlify/functions/submit-note.ts:28 | `new Response(text, { status })`: the given status, the text as body, no headers |
| Blobs.HubStore.constructor | netlify/functions/_store.ts:11-15 | every key of the hub store starts unwritten, so reads return their fallback |
| Blobs.NoteStore.constructor | netlify/functions/submit-note.ts:33 | the note store starts empty |
| Blobs.UploadStore.constructor | netlify/functions/upload-file.ts:35 | the upload store starts empty |
| Strings.TrimStart | netlify/functions/submissions-create.ts:19-22 | the result is a suffix of the input and does not start with JavaScript whitespace; everything dropped is whitespace |
| Strings.TrimEnd | netlify/functions/submissions-create.ts:19-22 | the result is a prefix of the input and does not end with JavaScript whitespace; everything dropped is whitespace |
| Strings.Trim | netlify/functions/submissions-create.ts:19-22 | no longer than the input, no whitespace at either end, empty exactly when the input is all whitespace |
| Strings.TrimEmptyIff | netlify/functions/submissions-create.ts:19-24 | a trimmed field is empty exactly when the sent string is all whitespace |
| Strings.AllWhitespaceConcat | netlify/functions/submissions-create.ts:19-22 | a concatenation is all whitespace iff both parts are |
| Strings.TrimIdempotent | netlify/functions/submissions-create.ts:19-22 | trimming a trimmed string changes nothing |
| Strings.LowerChar | app/page.tsx:70-75 | upper-case ASCII letters map to lower case; every other character is kept |
| Strings.Lower | app/page.tsx:70-75 | same length; each character lower-cased |
| Strings.LowerIdempotent | app/page.tsx:70-75 | lower-casing twice is lower-casing once |
| Strings.Contains | app/page.tsx:73-75 | `includes`: an empty needle and a prefix are found; a found needle is no longer than the string |
| Strings.Take | netlify/functions/submissions-admin-review.ts:29 | `slice(0, n)`: a prefix of length `min(n, len)`, counting characters as Unicode scalar values |
| Strings.DecimalString | netlify/functions/submit-note.ts:36 | `${n}`: a non-empty run of digits with no leading zero unless n is 0 |
| Strings.ParseDecimalString | netlify/functions/submit-note.ts:36 | reading the printed decimal back yields the number |
| Strings.DecimalStringInjective | netlify/functions/submit-note.ts:36 | distinct numbers print differently |
| Seqs.Filter | netlify/functions/submissions-public.ts:12 | no longer than the input; every kept element satisfies the test; an element is in the result iff it is in the input and passes |
| Seqs.FilterAppend | netlify/functions/submissions-public.ts:12 | filtering distributes over concatenation, so order is kept |
| Seqs.FilterCount | netlify/functions/submissions-public.ts:12 | each passing element keeps its multiplicity; failing ones vanish |
| Seqs.FilterKeepsAll | netlify/functions/submissions-public.ts:12 | the result is as long as the input iff every element passes, and then it is the input |
| SubmissionsCreate.NewSubmission | netlify/functions/submissions-create.ts:19-39 | refused iff title, course or fileUrl is blank after trimming, or the type is absent or empty; otherwise a pending record with the given id and time, no review data, the trimmed non-empty fields and the type as sent |
| SubmissionsCreate.UndeclaredCategoryKept | netlify/functions/submissions-create.ts:21-35 | a type outside the four declared values is accepted and stored unchanged |
| SubmissionsCreate.TrimmedField | netlify/functions/submissions-create.ts:19-22 | the field defaulted to "" and trimmed: the trimmed value of a sent field; empty iff the field is absent or whitespace only |
| SubmissionsCreate.Create | netlify/functions/submissions-create.ts:12-44 | 405 for non-POST, 400 for a body that did not parse, 400 for a refused body, none of which writes; otherwise the list becomes the new record followed by the old list, and the reply carries that record |
| SubmissionsAdminReview.FirstIndexOf | netlify/functions/submissions-admin-review.ts:19 | `findIndex`: the index holds the id and no earlier entry does; `None` iff no entry has the id |
| SubmissionsAdminReview.Reviewed | netlify/functions/submissions-admin-review.ts:26-31 | approved iff the action is "approve"; never pending afterwards; review time set; the note is absent iff none was sent, and is otherwise exactly the first `min(500, len)` characters of the sent one (a prefix of that length); every other field unchanged |
| SubmissionsAdminReview.WellFormedBody | netlify/functions/submissions-admin-review.ts:16 | a body that passes has an id and an action |
| SubmissionsAdminReview.AnyActionPasses | netlify/functions/submissions-admin-review.ts:16 | any non-empty id and action pass, whatever the action's value and the note; a missing id or action is refused |
| SubmissionsAdminReview.Review | netlify/functions/submissions-admin-review.ts:8-36 | 405, 401, "Required: id, action" and "Submission not found." replies leave the list unchanged; otherwise only the first entry with the id is replaced by its reviewed copy, and the reply carries it |
| SubmissionsPublic.WithStatus | netlify/functions/submissions-public.ts:12 | no longer than the list; every kept record has the status; a record is kept iff it is stored and has the status |
| SubmissionsPublic.PublicListExact | netlify/functions/submissions-public.ts:12 | every listed record is approved, and each approved record appears exactly as often as it is stored |
| SubmissionsPublic.PublicListKeepsOrder | netlify/functions/submissions-public.ts:12 | the public list of a concatenation is the concatenation of the public lists |
| SubmissionsPublic.StatusPartition | netlify/functions/_types.ts:32 | since every status is exactly one of the three, the pending, approved and rejected lists together are as long as the whole list |
| SubmissionsPublic.ListPublic | netlify/functions/submissions-public.ts:8-15 | 405 for non-GET; otherwise the approved records of the stored list (empty when nothing is stored), without writing |
| SubmissionsAdminList.ListAll | netlify/functions/submissions-admin-list.ts:8-15 | 405 for non-GET, 401 for non-admin; otherwise the stored list unchanged, or the empty list when nothing is stored; never writes |
| StatusGet.DefaultState | netlify/functions/status-get.ts:8-25 | no manual items, no results, no last run, and exactly the two monitors `qc-ical` and `cunyfirst` with their names and URLs |
| StatusGet.GetStatus | netlify/functions/status-get.ts:27-35 | 405 for non-GET with no write; otherwise the stored document, or the seed when none is stored, is both returned and left stored; a stored document is never replaced |
| StatusUpdate.ApplyPatch | netlify/functions/status-update.ts:24-28 | `manual` and `monitors` are replaced when sent and kept otherwise; results and last run are kept |
| StatusUpdate.ApplyPatchIdempotent | netlify/functions/status-update.ts:24-28 | applying a patch twice equals applying it once; an empty patch changes nothing |
| StatusUpdate.UpdateStatus | netlify/functions/status-update.ts:8-33 | 405, 401 and 400 replies do not write; otherwise the patched document, based on an empty one when nothing is stored, is stored and returned |
| UptimeCheck.RanTooRecently | netlify/functions/uptime-check.ts:32-35 | a skip needs a stored, non-empty last run; at exactly 60000 ms since it the sweep runs |
| UptimeCheck.Success | netlify/functions/uptime-check.ts:16 | `Response.ok`: 200, 204 and 299 are ok; 199, 300, 304, 404 and 500 are not |
| UptimeCheck.ProbeResult | netlify/functions/uptime-check.ts:11-49 | the result names the monitor and the sweep time; ok iff the probe answered with a status in 200..299; no HTTP status iff the fetch threw |
| UptimeCheck.MergeResults | netlify/functions/uptime-check.ts:40-50 | the merged map holds exactly the prior ids plus the configured ids; unconfigured prior results are kept; each configured id holds the probe result of its last monitor in the list, stamped with the sweep time |
| UptimeCheck.SweepStep | netlify/functions/uptime-check.ts:42-50 | one loop iteration keeps the merge invariant |
| UptimeCheck.LatestProbedStep | netlify/functions/uptime-check.ts:42-50 | one loop iteration keeps the "latest probe per id" part of the invariant |
| UptimeCheck.SweptResultsUnique | netlify/functions/uptime-check.ts:40-50 | the merge invariant determines the resulting map completely |
| UptimeCheck.LastIndex | netlify/functions/uptime-check.ts:42-44 | for a configured id, the position of its last monitor in the list |
| UptimeCheck.RunSweep | netlify/functions/uptime-check.ts:24-61 | when the stored last run parses and is under 60000 ms old, a skip reply and no write; otherwise `manual` and `monitors` are kept, results are merged as above, `lastAutoRun` is the sweep time, and the reply reports the monitor count |
| CalendarGet.Insert | netlify/functions/calendar-get.ts:57 | inserting into a start-sorted list keeps it sorted and adds exactly that event |
| CalendarGet.InsertAbove | netlify/functions/calendar-get.ts:57 | putting an event that starts no later than every other one in front keeps the list sorted |
| CalendarGet.SortByStart | netlify/functions/calendar-get.ts:57 | sorted ascending by start, and a permutation of the input |
| CalendarGet.Earliest | netlify/functions/calendar-get.ts:57-58 | sorted; length `min(cap, len)`; drawn from the input; no left-out event starts before a kept one |
| CalendarGet.EarliestKept | netlify/functions/calendar-get.ts:57-58 | in a sorted list cut to a prefix, every dropped event starts no earlier than every kept one |
| CalendarGet.Keep | netlify/functions/calendar-get.ts:45-50 | a kept component has a start, and its event starts inside the window |
| CalendarGet.ToEvent | netlify/functions/calendar-get.ts:51-56 | title is the summary, or "Event" when there is none; the start is the component's; an empty location is dropped |
| CalendarGet.InWindow | netlify/functions/calendar-get.ts:44-56 | every result starts inside the window; an event is in the result iff it is the conversion of an in-window VEVENT that has a start |
| CalendarGet.InWindowIsFilterMap | netlify/functions/calendar-get.ts:44-56 | `.filter(...).map(...)`: one event per kept component, in feed order, the i-th event being the conversion of the i-th kept component |
| CalendarGet.Refresh | netlify/functions/calendar-get.ts:44-58 | exactly `min(30, n)` of the n in-window events, sorted by start, drawn from them |
| CalendarGet.RefreshSpec | netlify/functions/calendar-get.ts:38-58 | exactly `min(30, n)` of the n in-window events, all in the window, sorted, and the earliest ones: no in-window VEVENT left out starts before a returned event |
| CalendarGet.CacheFresh | netlify/functions/calendar-get.ts:24-27 | only an existing entry is fresh; one stamped now is fresh; one exactly 15 minutes old is stale |
| CalendarGet.GetEvents | netlify/functions/calendar-get.ts:16-64 | 405; 500 when `ICAL_URL` is empty; a fresh cache entry is returned with no write; a failed fetch gives 502 with its status and no write; otherwise the refreshed events are both cached and returned |
| SubmitNote.NoteId | netlify/functions/submit-note.ts:36 | `sub_` followed by decimal digits |
| SubmitNote.NoteIdInjective | netlify/functions/submit-note.ts:36 | `sub_` ids of distinct timestamps differ |
| SubmitNote.NewNote | netlify/functions/submit-note.ts:35-51 | id `sub_<now>`; title, course and notes as sent; missing fileUrl, fileName and fileId become empty and missing tags `[]`; not approved, zero rating and counters, version 1, empty history |
| SubmitNote.Submit | netlify/functions/submit-note.ts:26-69 | 405 text reply; 500 when the body does not parse; otherwise the record is stored under its own id and the reply carries that id |
| RateSubmission.ValidRating | netlify/functions/rate-submission.ts:12 | accepted iff the id is present and non-empty and the rating is present and in 1..5 (the zero check is subsumed) |
| RateSubmission.AddRating | netlify/functions/rate-submission.ts:29-31 | total grows by the rating and count by one, a missing counter counting as 0; the rating is total over count; all other fields unchanged |
| RateSubmission.AddRatingInRange | netlify/functions/rate-submission.ts:29-31 | with ratings 1..5 the counters stay consistent and the average stays in [1, 5] |
| RateSubmission.QuotientBetween | netlify/functions/rate-submission.ts:31 | a quotient of a total bounded by count times lo and hi lies between lo and hi |
| RateSubmission.Rate | netlify/functions/rate-submission.ts:4-49 | 405; 500 for a body that did not parse; 400 for a missing id or a rating outside 1..5; 404 for an unknown id; none of these writes; otherwise the record is replaced by its rated copy and the reply carries the new average and count |
| UploadFile.UploadError | netlify/functions/upload-file.ts:13-33 | accepted iff a file is present, at most 10 MiB and of one of the three types; the checks run in the order presence, size, type, each with its own message |
| UploadFile.FileId | netlify/functions/upload-file.ts:36 | decimal digits of the time, a dash, then the file name |
| UploadFile.DownloadUrl | netlify/functions/upload-file.ts:52 | `/api/download-file?id=` followed by the file id |
| UploadFile.DashAt | netlify/functions/upload-file.ts:36 | the position of the first `-`, or the length when there is none |
| UploadFile.FileIdRoundTrip | netlify/functions/upload-file.ts:36 | the timestamp and file name can be read back from a file id |
| UploadFile.Upload | netlify/functions/upload-file.ts:4-63 | 405; 500 when the form does not parse; a 400 with the validation message and no write; otherwise the bytes and metadata are stored under the new id and the reply carries the id, name and download URL |
| HomePage.MonitorCards | app/page.tsx:42-52 | no cards before the state loads; one card per configured monitor, in order; ok only when its result is ok; a present result gives its check time and HTTP status; without a result there is no check time and no HTTP status |
| HomePage.Card | app/page.tsx:46-50 | same id, name and URL as the monitor; ok iff it has an ok result; a present result gives its check time and HTTP status; without one there is no check time and no HTTP status |
| HomePage.SweptCardsStamped | app/page.tsx:42-52 | after a sweep every card shows the sweep time |
| HomePage.WeekEvents | app/page.tsx:55-63 | an event is kept iff it lies between today 00:00 and seven days later |
| HomePage.UpcomingEvents | app/page.tsx:54-66 | exactly `min(7, n)` of the n in-week events, sorted by start, each drawn from the in-week events no more often than it occurs there |
| HomePage.UpcomingSpec | app/page.tsx:54-66 | exactly `min(7, n)` of the n in-week events, all between today 00:00 and seven days later, sorted, and no in-week event left out starts before a shown one; with UpcomingEvents, they are drawn from the in-week events |
| HomePage.FilteredSubmissions | app/page.tsx:68-77 | an empty query shows everything; otherwise no more than before, and exactly the records whose lower-cased title, course or type contains the lower-cased query |
| HomePage.Matches | app/page.tsx:72-75 | a record whose lower-cased title, course or type equals the query matches; a match needs the query to be no longer than one of the three fields |
| HomePage.Search | app/page.tsx:71-76 | `submissions.filter(...)`: no longer than the list; a record is in it iff it is listed and matches; each match keeps its multiplicity and the rest vanish |
| HomePage.SearchIgnoresCase | app/page.tsx:68-77 | queries equal after lower-casing give the same results |
| HomePage.TitleSearchFinds | app/page.tsx:70-76 | searching for a record's own title, in any case, finds it |
| AdminPage.AddManual | app/admin/page.tsx:77-93 | nothing when no state is loaded; otherwise exactly one item in front, titled "New status item", with an empty message and severity info; the old items follow in order; the rest of the document unchanged |
| AdminPage.NewManualItem | app/admin/page.tsx:82-88 | the new item has the fresh id and the current time, the title "New status item", an empty message and severity info |
| AdminPage.MergeItem | app/admin/page.tsx:98 | the patch's fields win, the others are kept, and `updatedAt` is refreshed |
| AdminPage.UpdateManual | app/admin/page.tsx:95-100 | nothing when no state is loaded; otherwise the same length, item `i` merged and re-stamped, every other item and the rest of the document unchanged |
| AdminPage.PendingList | app/admin/page.tsx:102 | a submission is listed iff it is stored and pending |
| AdminPage.PendingListExact | app/admin/page.tsx:102 | every listed record is pending, and each pending record appears as often as it is stored |
| AdminPage.SaveStatusBody | app/admin/page.tsx:62-68 | a body is posted iff a state is loaded |
| AdminPage.SaveStatusReplaces | app/admin/page.tsx:62-68 | saving replaces the stored manual items and monitors by the page's copies and keeps results and last run |
| Lifecycle.CreateKeepsWellFormed | netlify/functions/submissions-create.ts:31-41 | a create keeps every stored record well formed: pending with no review data, or reviewed with a review time |
| Lifecycle.ReviewKeepsWellFormed | netlify/functions/submissions-admin-review.ts:23-31 | a review keeps every stored record well formed |
| Lifecycle.ApproveMakesPublic | netlify/functions/submissions-admin-review.ts:26-31 | an approved record is on the public list |
| Lifecycle.RejectHides | netlify/functions/submissions-admin-review.ts:26-31 | with unique ids, a rejected record's id is off the public list |
| Lifecycle.PublicWithinAll | netlify/functions/submissions-public.ts:11-14 | the public list is no longer than the admin list, and equally long iff every record is approved |
| Lifecycle.CreateFirst | netlify/functions/submissions-create.ts:28-41 | a create on a store with no submissions leaves the new record as the only one |
| Lifecycle.ApproveOnly | netlify/functions/submissions-admin-review.ts:8-36 | an admin approval of the only stored record leaves its approved copy as the only record |
| Lifecycle.CreateApproveList | netlify/functions/submissions-create.ts:12-44 | on an empty store, create, approve and public list return exactly the created record, approved, with its trimmed fields |
| Lifecycle.SweepTwice | netlify/functions/uptime-check.ts:32-37 | a second sweep less than a minute after the first is skipped |
| Lifecycle.CalendarTwice | netlify/functions/calendar-get.ts:22-28 | a second read within 15 minutes returns the same events from the cache, whatever the upstream would say |
| Lifecycle.StatusTwice | netlify/functions/status-get.ts:31-32 | two reads return the same document; the seed when nothing was stored |

## Left out

- Blob-store I/O (`@netlify/blobs`, strong consistency): replaced by in-memory fields and maps.
- `netlify/functions/download-file.ts` is not part of this model: it only reads a blob and sets response headers.
- Network probing in `fetchWithTimeout`: the request, the 8000 ms abort timer and redirects. Each probe's outcome is a parameter.
- iCalendar parsing (RFC 5545) by the `ical` library: the parsed components are an input, with times as integer milliseconds.
- Local-time arithmetic (`setHours`, `setDate`) and ISO formatting: the window bounds and timestamps are parameters.
- Random and clock-based ids (`newId`, `Date.now()`): passed in. Their uniqueness is not proved; `Lifecycle.RejectHides` takes it as a hypothesis.
- Concurrency: requests racing on the same key, with the last writer winning.
- React rendering, polling, `localStorage` and the pages' `fetch` calls.
- JSON parsing: a body is `None` when it does not parse. Fields of the wrong JSON type (a number where a string is expected) are not modelled.
- HTTP header names are compared exactly, not case-insensitively as `Headers` does.
- Response bodies are payload values, not JSON text.
- The plain-text content type the runtime adds to a text reply is not modelled.
- The exception message in a 500 reply is not modelled (`ServerError`).
- A `fetch` that throws in the calendar handler (an uncaught exception) is not modelled; only a reply that is not ok is.
- The calendar's `end` and `location` fields are carried, not converted to ISO text.
- RateSubmission.AddRating: the average is an exact real quotient, not a floating-point one, and `averageRating` is not formatted with `toFixed(1)`.
- RateSubmission.Rate: ratings are integers; a fractional rating in 1..5 would be accepted by the source.
- UploadFile.UploadError: the size checked is the byte count of the content, standing for `File.size`.
- Strings.Lower: lower-cases ASCII letters only, not the full Unicode mapping of `toLowerCase`.
- Strings.LowerChar: maps ASCII A-Z only; other letters with a lower-case form are kept as they are.
- Strings.Take: counts Unicode scalar values, while `slice` counts UTF-16 code units; characters outside the Basic Multilingual Plane count once here and twice in the source.
- SubmissionsAdminReview.Reviewed: the 500 limit counts Unicode scalar values, so a note with characters outside the Basic Multilingual Plane is cut later than the source cuts it.
- CalendarGet.SortByStart: stability (the order of events with equal start) is not stated.
- AdminPage.UpdateManual: requires an index of an existing row, which is the only kind the page passes; an out-of-range index is not modelled.
- `state.manual || []` and `state.monitorResults || {}` on the pages: the model's state always has these fields.
