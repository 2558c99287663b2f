/** Requests, responses and the response helpers of netlify/functions/_http.ts. */
module Http {
  import opened Types

  /** A request: its method (`verb`) and its headers, header names in lower case
      (the runtime's `Headers` looks names up case-insensitively). Bodies are
      passed to each handler separately, already parsed. */
  datatype Request = Request(verb: string, headers: map<string, string>)

  /** The deployment's environment; `None` is an unset variable. */
  datatype Env = Env(adminToken: Option<string>, icalUrl: Option<string>)

  datatype EventSource = FromCache | Live

  /** The JSON bodies the handlers send. */
  datatype Payload =
    | Fail(error: Option<string>)                           // { ok: false [, error] }
    | SubmissionList(submissions: seq<Submission>)          // { ok: true, submissions }
    | OneSubmission(submission: Submission)                 // { ok: true, submission }
    | State(state: HubState)                                // { ok: true, state }
    | Skipped(reason: string)                               // { ok: true, skipped: true, reason }
    | Swept(checkedAt: string, monitors: nat)               // { ok: true, checkedAt, monitors }
    | Events(source: EventSource, events: seq<CalendarEvent>) // { ok: true, source, events }
    | Text(text: string)                                    // a plain-text body
    | ErrorBody(message: string)                            // { error }
    | ServerError                                           // { error: <the exception's message> }
    | NoteAccepted(message: string, id: string)             // { success: true, message, id }
    | Rated(averageRating: real, ratingCount: nat)          // { success: true, averageRating, ratingCount }
    | Uploaded(fileId: string, filename: string, url: string) // { success: true, fileId, filename, url }

  datatype ResponseInit = ResponseInit(status: Option<int>, headers: map<string, string>)

  datatype Response = Response(status: int, headers: map<string, string>, body: Payload)

  const JsonContentType := "application/json; charset=utf-8"

  /** `json(data, init)`: the status of `init` (200 when it has none), its headers
      with the JSON content type and `cache-control: no-store` forced on top. */
  function Json(data: Payload, init: ResponseInit): (r: Response)
    ensures r.body == data
    ensures r.status == (if init.status.Some? then init.status.value else 200)
    ensures r.headers.Keys == init.headers.Keys + {"content-type", "cache-control"}
    ensures r.headers["content-type"] == JsonContentType
    ensures r.headers["cache-control"] == "no-store"
    ensures forall h :: h in init.headers && h != "content-type" && h != "cache-control" ==>
              r.headers[h] == init.headers[h]
  {
    Response(init.status.GetOr(200),
             init.headers["content-type" := JsonContentType]["cache-control" := "no-store"],
             data)
  }

  /** `json(data)` with the default init. */
  function JsonOk(data: Payload): Response {
    Json(data, ResponseInit(None, map[]))
  }

  /** `json(data, { status })`. */
  function JsonWith(data: Payload, status: int): Response {
    Json(data, ResponseInit(Some(status), map[]))
  }

  /** `badRequest(message)`. */
  function BadRequest(message: string): (r: Response)
    ensures r.status == 400 && r.body == Fail(Some(message))
    ensures "content-type" in r.headers && r.headers["content-type"] == JsonContentType
    ensures "cache-control" in r.headers && r.headers["cache-control"] == "no-store"
  {
    JsonWith(Fail(Some(message)), 400)
  }

  /** `unauthorized()`. */
  function Unauthorized(): (r: Response)
    ensures r.status == 401 && r.body == Fail(Some("Unauthorized"))
    ensures "content-type" in r.headers && r.headers["content-type"] == JsonContentType
    ensures "cache-control" in r.headers && r.headers["cache-control"] == "no-store"
  {
    JsonWith(Fail(Some("Unauthorized")), 401)
  }

  /** The 405 reply of the JSON handlers: `json({ ok: false }, { status: 405 })`. */
  function MethodNotAllowed(): (r: Response)
    ensures r.status == 405 && r.body == Fail(None)
    ensures r.headers.Keys == {"content-type", "cache-control"}
    ensures r.headers["content-type"] == JsonContentType && r.headers["cache-control"] == "no-store"
  {
    JsonWith(Fail(None), 405)
  }

  /** `new Response(JSON.stringify(body), { status, headers: { 'Content-Type': 'application/json' } })`,
      the reply shape of the note and upload handlers. */
  function JsonReply(status: int, body: Payload): (r: Response)
    ensures r.status == status && r.body == body
    ensures r.headers.Keys == {"content-type"} && r.headers["content-type"] == "application/json"
  {
    Response(status, map["content-type" := "application/json"], body)
  }

  /** `new Response(text, { status })`. */
  function TextReply(status: int, text: string): (r: Response)
    ensures r.status == status && r.body == Text(text) && r.headers == map[]
  {
    Response(status, map[], Text(text))
  }

  /** `headers.get(name) || ""`. */
  function HeaderOrEmpty(req: Request, name: string): (r: string)
    ensures name in req.headers ==> r == req.headers[name]
    ensures r == "" <==> name !in req.headers || req.headers[name] == ""
  {
    if name in req.headers then req.headers[name] else ""
  }

  /** `process.env.X || ""`. */
  function Configured(v: Option<string>): (r: string)
    ensures v.Some? ==> r == v.value
    ensures r == "" <==> v.None? || v.value == ""
  {
    v.GetOr("")
  }

  /** `requireAdmin(req)`: the `x-admin-token` header equals the configured
      ADMIN_TOKEN, and that token is non-empty. */
  predicate RequireAdmin(req: Request, env: Env)
    ensures RequireAdmin(req, env) <==>
              env.adminToken.Some? && env.adminToken.value != "" &&
              "x-admin-token" in req.headers && req.headers["x-admin-token"] == env.adminToken.value
  {
    var token := HeaderOrEmpty(req, "x-admin-token");
    var expected := Configured(env.adminToken);
    |expected| > 0 && token == expected
  }

  /** With ADMIN_TOKEN unset or empty nobody is an admin, whatever header is sent
      (an empty or missing header does not match an empty token). */
  lemma NoTokenNoAdmin(req: Request, env: Env)
    requires env.adminToken.None? || env.adminToken == Some("")
    ensures !RequireAdmin(req, env)
  {
  }
}
