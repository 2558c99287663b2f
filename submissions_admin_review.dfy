/** Reviewing a submission (netlify/functions/submissions-admin-review.ts): an
    admin approves or rejects the first stored submission with a given id. */
module SubmissionsAdminReview {
  import opened Types
  import opened Strings
  import opened Http
  import Blobs

  /** A parsed request body; a field the JSON leaves out is `None`. */
  datatype ReviewBody = ReviewBody(id: Option<string>, action: Option<string>, note: Option<string>)

  const NoteLimit: nat := 500

  /** `findIndex((s) => s.id === id)`: the position of the first submission with
      the id, or `None` when there is none. */
  function FirstIndexOf(subs: seq<Submission>, id: string): (r: Option<nat>)
    ensures r.Some? ==> r.value < |subs| && subs[r.value].id == id
    ensures r.Some? ==> forall j :: 0 <= j < r.value ==> subs[j].id != id
    ensures r.None? ==> forall j :: 0 <= j < |subs| ==> subs[j].id != id
  {
    if subs == [] then None
    else if subs[0].id == id then Some(0)
    else match FirstIndexOf(subs[1..], id)
      case None => None
      case Some(k) => Some(k + 1)
  }

  /** The reviewed copy of `s`: approved exactly when the action is "approve"
      (any other action rejects), the note cut to its first 500 characters (no
      note clears an earlier one), the review time set; every other field kept. */
  function Reviewed(s: Submission, action: string, note: Option<string>, reviewedAt: string): (r: Submission)
    ensures r.status == Approved <==> action == "approve"
    ensures r.status != Pending
    ensures r.reviewedAt == Some(reviewedAt)
    ensures r.reviewerNote.None? <==> note.None?
    ensures r.reviewerNote.Some? ==>
              |r.reviewerNote.value| <= NoteLimit && IsPrefixOf(r.reviewerNote.value, note.value)
    ensures note.Some? ==>
              |r.reviewerNote.value| == if |note.value| <= NoteLimit then |note.value| else NoteLimit
    ensures note.Some? && |note.value| <= NoteLimit ==> r.reviewerNote == note
    ensures r.(status := s.status, reviewerNote := s.reviewerNote, reviewedAt := s.reviewedAt) == s
  {
    s.(status := if action == "approve" then Approved else Rejected,
       reviewerNote := if note.Some? then Some(Take(note.value, NoteLimit)) else None,
       reviewedAt := Some(reviewedAt))
  }

  /** `!body?.id || !body.action`: the body is refused when it is missing or its
      id or action is absent or empty. */
  predicate WellFormedBody(body: Option<ReviewBody>)
    ensures WellFormedBody(body) ==> body.Some? && body.value.id.Some? && body.value.action.Some?
  {
    body.Some? && body.value.id.Some? && body.value.id.value != "" &&
    body.value.action.Some? && body.value.action.value != ""
  }

  /** The gate checks only that an id and an action are present and non-empty:
      whatever the action's value and whatever the note, such a body passes. */
  lemma AnyActionPasses(id: string, action: string, note: Option<string>)
    requires id != "" && action != ""
    ensures WellFormedBody(Some(ReviewBody(Some(id), Some(action), note)))
    ensures !WellFormedBody(Some(ReviewBody(Some(id), None, note)))
    ensures !WellFormedBody(Some(ReviewBody(None, Some(action), note)))
  {
  }

  /** The handler. Only a POST from an admin with a well-formed body naming a
      stored id writes; it rewrites the first submission with that id and leaves
      the list's length and every other entry as they were. Re-reviewing an
      already reviewed submission is allowed. */
  method Review(store: Blobs.HubStore, req: Request, env: Env, body: Option<ReviewBody>, reviewedAt: string)
    returns (resp: Response)
    modifies store`submissions
    ensures req.verb != "POST" ==> resp == MethodNotAllowed() && unchanged(store)
    ensures req.verb == "POST" && !RequireAdmin(req, env) ==> resp == Unauthorized() && unchanged(store)
    ensures req.verb == "POST" && RequireAdmin(req, env) && !WellFormedBody(body) ==>
              resp == BadRequest("Required: id, action") && unchanged(store)
    ensures req.verb == "POST" && RequireAdmin(req, env) && WellFormedBody(body) ==>
              var before := old(store.submissions).GetOr([]);
              var b := body.value;
              match FirstIndexOf(before, b.id.value)
              case None =>
                resp == BadRequest("Submission not found.") && unchanged(store)
              case Some(k) =>
                var s := Reviewed(before[k], b.action.value, b.note, reviewedAt);
                && store.submissions == Some(before[k := s])
                && resp == JsonOk(OneSubmission(s))
  {
    if req.verb != "POST" {
      return MethodNotAllowed();
    }
    if !RequireAdmin(req, env) {
      return Unauthorized();
    }
    if !WellFormedBody(body) {
      return BadRequest("Required: id, action");
    }
    var b := body.value;
    var submissions := store.submissions.GetOr([]);
    var idx := FirstIndexOf(submissions, b.id.value);
    if idx.None? {
      return BadRequest("Submission not found.");
    }
    var updated := submissions;
    updated := updated[idx.value := Reviewed(updated[idx.value], b.action.value, b.note, reviewedAt)];
    store.submissions := Some(updated);
    resp := JsonOk(OneSubmission(updated[idx.value]));
  }
}
