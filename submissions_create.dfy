/** Creating a submission (netlify/functions/submissions-create.ts): validate and
    trim the fields, build a `pending` record, prepend it to the stored list. */
module SubmissionsCreate {
  import opened Types
  import opened Strings
  import opened Http
  import Blobs

  /** A parsed request body; a field the JSON leaves out is `None`. */
  datatype CreateBody = CreateBody(
    title: Option<string>,
    course: Option<string>,
    category: Option<string>,
    fileUrl: Option<string>)

  /** `(field || "").trim()`. */
  function TrimmedField(f: Option<string>): (r: string)
    ensures f.Some? ==> r == Trim(f.value)
    ensures r == "" <==> Blank(f)
  {
    Trim(f.GetOr(""))
  }

  /** A field counts as blank when it is absent or whitespace only. */
  predicate Blank(f: Option<string>) {
    f.None? || AllWhitespace(f.value)
  }

  /** The record a body yields, or `None` when the body is refused. `category`
      is refused only when absent or empty: it is neither trimmed nor checked
      against the declared categories. */
  function NewSubmission(body: CreateBody, id: string, createdAt: string): (r: Option<Submission>)
    ensures r.None? <==>
              Blank(body.title) || Blank(body.course) || Blank(body.fileUrl) ||
              body.category.None? || body.category.value == ""
    ensures r.Some? ==>
              && r.value.id == id
              && r.value.createdAt == createdAt
              && r.value.status == Pending
              && r.value.reviewedAt.None?
              && r.value.reviewerNote.None?
              && r.value.title == Trim(body.title.value) && r.value.title != ""
              && r.value.course == Trim(body.course.value) && r.value.course != ""
              && r.value.fileUrl == Trim(body.fileUrl.value) && r.value.fileUrl != ""
              && r.value.category == body.category.value
  {
    var title := TrimmedField(body.title);
    var course := TrimmedField(body.course);
    var category := body.category;
    var fileUrl := TrimmedField(body.fileUrl);
    if title == "" || course == "" || category.None? || category.value == "" || fileUrl == "" then
      None
    else
      Some(Submission(id, title, course, category.value, fileUrl, Pending, createdAt, None, None))
  }

  /** Any non-empty category is stored as sent, including one outside the four
      declared ones. */
  lemma UndeclaredCategoryKept(body: CreateBody, id: string, createdAt: string)
    requires !Blank(body.title) && !Blank(body.course) && !Blank(body.fileUrl)
    requires body.category.Some? && body.category.value != "" && !DeclaredCategory(body.category.value)
    ensures NewSubmission(body, id, createdAt).Some?
    ensures !DeclaredCategory(NewSubmission(body, id, createdAt).value.category)
  {
  }

  /** The handler. `id` is the fresh id (`newId()`), `createdAt` the clock's ISO
      time. Only a POST with a valid body writes, and it writes the new record
      followed by the previous list. */
  method Create(store: Blobs.HubStore, req: Request, body: Option<CreateBody>, id: string, createdAt: string)
    returns (resp: Response)
    modifies store`submissions
    ensures req.verb != "POST" ==> resp == MethodNotAllowed() && unchanged(store)
    ensures req.verb == "POST" && body.None? ==>
              resp == BadRequest("Invalid JSON body.") && unchanged(store)
    ensures req.verb == "POST" && body.Some? && NewSubmission(body.value, id, createdAt).None? ==>
              resp == BadRequest("Required: title, course, type, fileUrl") && unchanged(store)
    ensures req.verb == "POST" && body.Some? && NewSubmission(body.value, id, createdAt).Some? ==>
              var s := NewSubmission(body.value, id, createdAt).value;
              && resp == JsonOk(OneSubmission(s))
              && store.submissions == Some([s] + old(store.submissions).GetOr([]))
  {
    if req.verb != "POST" {
      return MethodNotAllowed();
    }
    if body.None? {
      return BadRequest("Invalid JSON body.");
    }
    var created := NewSubmission(body.value, id, createdAt);
    if created.None? {
      return BadRequest("Required: title, course, type, fileUrl");
    }
    var submissions := store.submissions.GetOr([]);
    var submission := created.value;
    store.submissions := Some([submission] + submissions);
    resp := JsonOk(OneSubmission(submission));
  }
}
