/** The admin listing (netlify/functions/submissions-admin-list.ts). */
module SubmissionsAdminList {
  import opened Types
  import opened Http
  import Blobs

  /** A GET from an admin returns the whole stored list, unfiltered, in stored
      order (empty when nothing is stored); nothing is written. */
  method ListAll(store: Blobs.HubStore, req: Request, env: Env) returns (resp: Response)
    ensures req.verb != "GET" ==> resp == MethodNotAllowed()
    ensures req.verb == "GET" && !RequireAdmin(req, env) ==> resp == Unauthorized()
    ensures req.verb == "GET" && RequireAdmin(req, env) ==>
              resp == JsonOk(SubmissionList(if store.submissions.Some? then store.submissions.value else []))
  {
    if req.verb != "GET" {
      return MethodNotAllowed();
    }
    if !RequireAdmin(req, env) {
      return Unauthorized();
    }
    var submissions := store.submissions.GetOr([]);
    resp := JsonOk(SubmissionList(submissions));
  }
}
