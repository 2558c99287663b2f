/** Reading the hub status (netlify/functions/status-get.ts): the first read
    seeds the default document, and every read writes back what it returns. */
module StatusGet {
  import opened Types
  import opened Http
  import Blobs

  /** The seed: no manual items, the two stock monitors, no results, no sweep yet. */
  function DefaultState(): (s: HubState)
    ensures s.manual == [] && s.monitorResults == map[] && s.lastAutoRun.None?
    ensures |s.monitors| == 2 && s.monitors[0].id == "qc-ical" && s.monitors[1].id == "cunyfirst"
    ensures s.monitors[0].name == "Queens College Calendar Feed"
    ensures s.monitors[0].url == "https://www.calendarwiz.com/CalendarWiz_iCal.php?crd=queenscollege"
    ensures s.monitors[1].name == "CUNYfirst Page"
    ensures s.monitors[1].url == "https://www.cuny.edu/about/administration/offices/cis/cunyfirst/"
  {
    HubState(
      [],
      [Monitor("qc-ical", "Queens College Calendar Feed",
               "https://www.calendarwiz.com/CalendarWiz_iCal.php?crd=queenscollege"),
       Monitor("cunyfirst", "CUNYfirst Page",
               "https://www.cuny.edu/about/administration/offices/cis/cunyfirst/")],
      map[],
      None)
  }

  /** The handler. A GET returns the stored document, or the seed when nothing is
      stored, and leaves exactly that document stored: a stored document is never
      replaced by the seed. */
  method GetStatus(store: Blobs.HubStore, req: Request) returns (resp: Response)
    modifies store`hubState
    ensures req.verb != "GET" ==> resp == MethodNotAllowed() && unchanged(store)
    ensures req.verb == "GET" ==>
              var state := if old(store.hubState).Some? then old(store.hubState).value else DefaultState();
              && resp == JsonOk(State(state))
              && store.hubState == Some(state)
    ensures old(store.hubState).Some? ==> store.hubState == old(store.hubState)
  {
    if req.verb != "GET" {
      return MethodNotAllowed();
    }
    var state := store.hubState.GetOr(DefaultState());
    store.hubState := Some(state);
    resp := JsonOk(State(state));
  }
}
