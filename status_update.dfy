/** The admin update of the hub status (netlify/functions/status-update.ts):
    `manual` and `monitors` are replaced wholesale when the body carries them. */
module StatusUpdate {
  import opened Types
  import opened Http
  import Blobs

  /** A parsed body; a field that is absent or null is `None`. */
  datatype StatusPatch = StatusPatch(manual: Option<seq<ManualStatusItem>>, monitors: Option<seq<Monitor>>)

  /** The document this handler starts from when nothing is stored. Unlike the
      seed of the read path it has no monitors. */
  function EmptyState(): HubState {
    HubState([], [], map[], None)
  }

  /** `{ ...state, manual: body.manual ?? state.manual, monitors: body.monitors ?? state.monitors }`. */
  function ApplyPatch(state: HubState, patch: StatusPatch): (r: HubState)
    ensures patch.manual.Some? ==> r.manual == patch.manual.value
    ensures patch.manual.None? ==> r.manual == state.manual
    ensures patch.monitors.Some? ==> r.monitors == patch.monitors.value
    ensures patch.monitors.None? ==> r.monitors == state.monitors
    ensures r.monitorResults == state.monitorResults && r.lastAutoRun == state.lastAutoRun
  {
    state.(manual := patch.manual.GetOr(state.manual), monitors := patch.monitors.GetOr(state.monitors))
  }

  /** Applying the same patch twice is applying it once, and an empty patch
      changes nothing. */
  lemma ApplyPatchIdempotent(state: HubState, patch: StatusPatch)
    ensures ApplyPatch(ApplyPatch(state, patch), patch) == ApplyPatch(state, patch)
    ensures ApplyPatch(state, StatusPatch(None, None)) == state
  {
  }

  /** The handler: a POST from an admin with a body stores and returns the
      patched document. */
  method UpdateStatus(store: Blobs.HubStore, req: Request, env: Env, body: Option<StatusPatch>)
    returns (resp: Response)
    modifies store`hubState
    ensures req.verb != "POST" ==> resp == MethodNotAllowed() && unchanged(store)
    ensures req.verb == "POST" && !RequireAdmin(req, env) ==> resp == Unauthorized() && unchanged(store)
    ensures req.verb == "POST" && RequireAdmin(req, env) && body.None? ==>
              resp == BadRequest("Invalid JSON body.") && unchanged(store)
    ensures req.verb == "POST" && RequireAdmin(req, env) && body.Some? ==>
              var updated := ApplyPatch(old(store.hubState).GetOr(EmptyState()), body.value);
              && store.hubState == Some(updated)
              && resp == JsonOk(State(updated))
  {
    if req.verb != "POST" {
      return MethodNotAllowed();
    }
    if !RequireAdmin(req, env) {
      return Unauthorized();
    }
    if body.None? {
      return BadRequest("Invalid JSON body.");
    }
    var state := store.hubState.GetOr(EmptyState());
    var updated := ApplyPatch(state, body.value);
    store.hubState := Some(updated);
    resp := JsonOk(State(updated));
  }
}
