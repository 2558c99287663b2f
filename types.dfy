/** The records the portal keeps in its blob stores (netlify/functions/_types.ts),
    plus the calendar-cache and per-id note records declared beside the handlers
    that use them (netlify/functions/calendar-get.ts, netlify/functions/submit-note.ts).
    An optional TypeScript field (`x?: T`) is an `Option<T>`; timestamps the
    handlers write as ISO strings stay strings. */
module Types {

  datatype Option<+T> = None | Some(value: T) {
    /** The value, or `default` when absent: the `??` / `||` fallbacks of the source. */
    function GetOr(default: T): T {
      match this
      case Some(v) => v
      case None => default
    }
  }

  // ---- hub-state document ----

  datatype Severity = SevOk | SevInfo | SevWarn | SevDown

  datatype ManualStatusItem = ManualStatusItem(
    id: string,
    title: string,
    message: string,
    severity: Severity,
    updatedAt: string)

  datatype Monitor = Monitor(id: string, name: string, url: string)

  /** `httpStatus` is absent when the probe produced no HTTP response. */
  datatype MonitorResult = MonitorResult(
    monitorId: string,
    ok: bool,
    httpStatus: Option<int>,
    checkedAt: string)

  datatype HubState = HubState(
    manual: seq<ManualStatusItem>,
    monitors: seq<Monitor>,
    monitorResults: map<string, MonitorResult>,
    lastAutoRun: Option<string>)

  // ---- moderated submissions ----

  datatype SubmissionStatus = Pending | Approved | Rejected

  /** `category` is the source's `type` field. Its declared values are the four of
      `DeclaredCategory`, but the create handler stores whatever non-empty string
      it is sent, so the model keeps it a string. */
  datatype Submission = Submission(
    id: string,
    title: string,
    course: string,
    category: string,
    fileUrl: string,
    status: SubmissionStatus,
    createdAt: string,
    reviewedAt: Option<string>,
    reviewerNote: Option<string>)

  predicate DeclaredCategory(c: string) {
    c == "notes" || c == "exam" || c == "study-guide" || c == "other"
  }

  // ---- calendar cache ----

  /** Start and end are instants in milliseconds since the epoch; the handler's
      ISO-8601 rendering of them is not modelled. */
  datatype CalendarEvent = CalendarEvent(
    title: string,
    start: int,
    end: Option<int>,
    location: Option<string>)

  datatype CalendarCache = CalendarCache(fetchedAt: string, events: seq<CalendarEvent>)

  // ---- per-id note submissions (store "submissions") ----

  datatype VersionEntry = VersionEntry(version: int, updatedAt: string, changes: string)

  /** `title`, `course` and `notes` are copied from the request unchecked, so they
      may be absent; the rating counters may be absent in records written by
      other code, and are then read as 0. */
  datatype NoteSubmission = NoteSubmission(
    id: string,
    title: Option<string>,
    course: Option<string>,
    notes: Option<string>,
    fileUrl: string,
    fileName: string,
    fileId: string,
    tags: seq<string>,
    rating: real,
    ratingCount: Option<nat>,
    totalRating: Option<int>,
    submittedAt: string,
    approved: bool,
    version: int,
    versionHistory: seq<VersionEntry>)

  // ---- uploaded files (store "uploads") ----

  datatype StoredFile = StoredFile(
    content: seq<bv8>,
    filename: string,
    contentType: string,
    size: string,
    uploadedAt: string)
}
