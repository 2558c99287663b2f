/** Submitting a note (netlify/functions/submit-note.ts): build the per-id record
    with its defaults and store it under its own id. */
module SubmitNote {
  import opened Types
  import opened Strings
  import opened Http
  import Blobs

  /** A parsed request body; a field the JSON leaves out is `None`. */
  datatype NoteBody = NoteBody(
    title: Option<string>,
    course: Option<string>,
    notes: Option<string>,
    fileUrl: Option<string>,
    fileName: Option<string>,
    fileId: Option<string>,
    tags: Option<seq<string>>)

  /** `sub_${Date.now()}`. */
  function NoteId(nowMs: nat): (r: string)
    ensures |r| > 4 && r[..4] == "sub_" && AllDigits(r[4..])
  {
    "sub_" + DecimalString(nowMs)
  }

  /** Ids made at different milliseconds differ. */
  lemma NoteIdInjective(m: nat, n: nat)
    requires m != n
    ensures NoteId(m) != NoteId(n)
  {
    DecimalStringInjective(m, n);
    assert NoteId(m)[4..] == DecimalString(m);
    assert NoteId(n)[4..] == DecimalString(n);
  }

  /** The new record: title, course and notes as sent; missing file fields ""
      and missing tags []; unapproved, unrated, version 1 with no history. */
  function NewNote(data: NoteBody, nowMs: nat, submittedAt: string): (r: NoteSubmission)
    ensures r.id == NoteId(nowMs) && r.submittedAt == submittedAt
    ensures r.title == data.title && r.course == data.course && r.notes == data.notes
    ensures r.fileUrl == (if data.fileUrl.Some? then data.fileUrl.value else "")
    ensures r.fileName == (if data.fileName.Some? then data.fileName.value else "")
    ensures r.fileId == (if data.fileId.Some? then data.fileId.value else "")
    ensures r.tags == (if data.tags.Some? then data.tags.value else [])
    ensures !r.approved && r.rating == 0.0 && r.ratingCount == Some(0) && r.totalRating == Some(0)
    ensures r.version == 1 && r.versionHistory == []
  {
    NoteSubmission(
      NoteId(nowMs), data.title, data.course, data.notes,
      data.fileUrl.GetOr(""), data.fileName.GetOr(""), data.fileId.GetOr(""),
      data.tags.GetOr([]),
      0.0, Some(0), Some(0), submittedAt, false, 1, [])
  }

  /** The handler. `body` is `None` when the JSON does not parse or is null (both
      end in the 500 reply); `nowMs` is `Date.now()`, `submittedAt` the ISO time. */
  method Submit(store: Blobs.NoteStore, req: Request, body: Option<NoteBody>, nowMs: nat, submittedAt: string)
    returns (resp: Response)
    modifies store
    ensures req.verb != "POST" ==> resp == TextReply(405, "Method not allowed") && unchanged(store)
    ensures req.verb == "POST" && body.None? ==> resp == JsonReply(500, ServerError) && unchanged(store)
    ensures req.verb == "POST" && body.Some? ==>
              var note := NewNote(body.value, nowMs, submittedAt);
              && store.records == old(store.records)[note.id := note]
              && resp == JsonReply(200, NoteAccepted("Submission received and pending review", note.id))
  {
    if req.verb != "POST" {
      return TextReply(405, "Method not allowed");
    }
    if body.None? {
      return JsonReply(500, ServerError);
    }
    var submission := NewNote(body.value, nowMs, submittedAt);
    store.records := store.records[submission.id := submission];
    resp := JsonReply(200, NoteAccepted("Submission received and pending review", submission.id));
  }
}
