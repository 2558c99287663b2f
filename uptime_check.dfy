/** The uptime sweep (netlify/functions/uptime-check.ts): unless the last sweep
    was under a minute ago, probe every configured monitor and merge the results
    into the stored document. The network probe is an input: `probe(i)` is what
    the i-th probe of the sweep produced, the HTTP status of the response, or
    `None` when the fetch threw (a timeout, a connection failure). */
module UptimeCheck {
  import opened Types
  import opened Http
  import Blobs

  const MinIntervalMs := 60000
  const ProbeTimeoutMs := 8000

  /** The document the sweep starts from when nothing is stored. */
  function EmptyState(): HubState {
    HubState([], [], map[], None)
  }

  /** The skip guard: a previous sweep time is stored (a non-empty string), it
      parses, and less than a minute has passed since it. */
  predicate RanTooRecently(state: HubState, parse: string -> Option<int>, nowMs: int)
    ensures RanTooRecently(state, parse, nowMs) ==> state.lastAutoRun.Some? && state.lastAutoRun.value != ""
    ensures state.lastAutoRun.Some? && parse(state.lastAutoRun.value) == Some(nowMs - MinIntervalMs) ==>
              !RanTooRecently(state, parse, nowMs)
  {
    state.lastAutoRun.Some? && state.lastAutoRun.value != "" &&
    parse(state.lastAutoRun.value).Some? &&
    nowMs - parse(state.lastAutoRun.value).value < MinIntervalMs
  }

  /** `Response.ok`: a status in 200..299. */
  predicate Success(status: int)
    ensures status == 200 || status == 204 || status == 299 ==> Success(status)
    ensures status == 199 || status == 300 || status == 304 || status == 404 || status == 500 ==> !Success(status)
  {
    200 <= status <= 299
  }

  /** The result recorded for monitor `m` from one probe outcome. */
  function ProbeResult(m: Monitor, reply: Option<int>, checkedAt: string): (r: MonitorResult)
    ensures r.monitorId == m.id && r.checkedAt == checkedAt
    ensures r.ok <==> reply.Some? && Success(reply.value)
    ensures r.httpStatus.None? <==> reply.None?
  {
    MonitorResult(m.id, reply.Some? && Success(reply.value), reply, checkedAt)
  }

  /** The ids of `monitors[..n]`. */
  ghost function SweptIds(monitors: seq<Monitor>, n: nat): set<string>
    requires n <= |monitors|
  {
    set j | 0 <= j < n :: monitors[j].id
  }

  /** A prior entry whose id none of `monitors[..n]` has is kept. */
  ghost predicate PriorKept(prior: map<string, MonitorResult>, ids: set<string>,
                            results: map<string, MonitorResult>)
  {
    forall id :: id in prior && id !in ids ==> id in results && results[id] == prior[id]
  }

  /** Each id of `monitors[..n]` holds the result of the last probe of a monitor
      with that id. */
  ghost predicate LatestProbed(monitors: seq<Monitor>, n: nat, probe: nat -> Option<int>,
                               checkedAt: string, results: map<string, MonitorResult>)
    requires n <= |monitors|
  {
    forall j :: 0 <= j < n && (forall k :: j < k < n ==> monitors[k].id != monitors[j].id) ==>
      monitors[j].id in results && results[monitors[j].id] == ProbeResult(monitors[j], probe(j), checkedAt)
  }

  /** `results` is `prior` after a sweep of `monitors[..n]`: its keys are the prior
      keys and the swept ids; each swept id holds the result of the last probe
      of a monitor with that id; every other prior entry is kept. */
  ghost predicate SweptResults(prior: map<string, MonitorResult>, monitors: seq<Monitor>, n: nat,
                               probe: nat -> Option<int>, checkedAt: string,
                               results: map<string, MonitorResult>)
    requires n <= |monitors|
  {
    && results.Keys == prior.Keys + SweptIds(monitors, n)
    && PriorKept(prior, SweptIds(monitors, n), results)
    && LatestProbed(monitors, n, probe, checkedAt, results)
  }

  /** The loop of the sweep: `results[m.id] = {...}` for each monitor in turn,
      starting from a copy of the stored results. Every configured id ends up
      with a result stamped `checkedAt`. */
  method MergeResults(prior: map<string, MonitorResult>, monitors: seq<Monitor>,
                      probe: nat -> Option<int>, checkedAt: string)
    returns (results: map<string, MonitorResult>)
    ensures SweptResults(prior, monitors, |monitors|, probe, checkedAt, results)
    ensures forall j :: 0 <= j < |monitors| ==>
              monitors[j].id in results && results[monitors[j].id].checkedAt == checkedAt &&
              results[monitors[j].id].monitorId == monitors[j].id
  {
    results := prior;
    var i := 0;
    while i < |monitors|
      invariant 0 <= i <= |monitors|
      invariant SweptResults(prior, monitors, i, probe, checkedAt, results)
      invariant forall j :: 0 <= j < i ==>
                  monitors[j].id in results && results[monitors[j].id].checkedAt == checkedAt &&
                  results[monitors[j].id].monitorId == monitors[j].id
    {
      var m := monitors[i];
      SweepStep(prior, monitors, i, probe, checkedAt, results);
      results := results[m.id := ProbeResult(m, probe(i), checkedAt)];
      i := i + 1;
    }
  }

  /** One iteration of the sweep loop extends a sweep of `monitors[..n]` to one of
      `monitors[..n + 1]`. */
  lemma SweepStep(prior: map<string, MonitorResult>, monitors: seq<Monitor>, n: nat,
                  probe: nat -> Option<int>, checkedAt: string, results: map<string, MonitorResult>)
    requires n < |monitors|
    requires SweptResults(prior, monitors, n, probe, checkedAt, results)
    ensures SweptResults(prior, monitors, n + 1, probe, checkedAt,
                         results[monitors[n].id := ProbeResult(monitors[n], probe(n), checkedAt)])
  {
    var m := monitors[n];
    SweptIdsStep(monitors, n);
    PriorKeptStep(prior, SweptIds(monitors, n), results, m.id, ProbeResult(m, probe(n), checkedAt));
    LatestProbedStep(monitors, n, probe, checkedAt, results);
  }

  lemma SweptIdsStep(monitors: seq<Monitor>, n: nat)
    requires n < |monitors|
    ensures SweptIds(monitors, n + 1) == SweptIds(monitors, n) + {monitors[n].id}
  {
  }

  lemma PriorKeptStep(prior: map<string, MonitorResult>, ids: set<string>,
                      results: map<string, MonitorResult>, id: string, v: MonitorResult)
    requires PriorKept(prior, ids, results)
    ensures PriorKept(prior, ids + {id}, results[id := v])
  {
  }

  lemma LatestProbedStep(monitors: seq<Monitor>, n: nat, probe: nat -> Option<int>,
                         checkedAt: string, results: map<string, MonitorResult>)
    requires n < |monitors|
    requires LatestProbed(monitors, n, probe, checkedAt, results)
    ensures LatestProbed(monitors, n + 1, probe, checkedAt,
                         results[monitors[n].id := ProbeResult(monitors[n], probe(n), checkedAt)])
  {
  }

  /** Two maps that are both the outcome of one sweep are equal: the sweep's
      result is fully determined by the prior results and the probes. */
  lemma SweptResultsUnique(prior: map<string, MonitorResult>, monitors: seq<Monitor>,
                           probe: nat -> Option<int>, checkedAt: string,
                           r1: map<string, MonitorResult>, r2: map<string, MonitorResult>)
    requires SweptResults(prior, monitors, |monitors|, probe, checkedAt, r1)
    requires SweptResults(prior, monitors, |monitors|, probe, checkedAt, r2)
    ensures r1 == r2
  {
    forall id | id in r1 ensures id in r2 && r1[id] == r2[id] {
      if exists j :: 0 <= j < |monitors| && monitors[j].id == id {
        var j := LastIndex(monitors, id);
      }
    }
  }

  /** The position of the last monitor with the given id. */
  lemma LastIndex(monitors: seq<Monitor>, id: string) returns (j: nat)
    requires exists j :: 0 <= j < |monitors| && monitors[j].id == id
    ensures j < |monitors| && monitors[j].id == id
    ensures forall k :: j < k < |monitors| ==> monitors[k].id != id
  {
    j := |monitors| - 1;
    while monitors[j].id != id
      invariant 0 <= j < |monitors|
      invariant exists i :: 0 <= i <= j && monitors[i].id == id
      invariant forall k :: j < k < |monitors| ==> monitors[k].id != id
      decreases j
    {
      j := j - 1;
    }
  }

  /** The handler. `nowMs` is `Date.now()`, `checkedAt` the ISO time the sweep
      stamps, `parse` stands for `Date.parse`. A skipped run writes nothing; a
      sweep keeps `manual` and `monitors` and stamps `lastAutoRun`. */
  method RunSweep(store: Blobs.HubStore, parse: string -> Option<int>, nowMs: int,
                  checkedAt: string, probe: nat -> Option<int>)
    returns (resp: Response)
    modifies store`hubState
    ensures var state := old(store.hubState).GetOr(EmptyState());
            RanTooRecently(state, parse, nowMs) ==>
              resp == JsonOk(Skipped("Ran too recently")) && unchanged(store)
    ensures var state := old(store.hubState).GetOr(EmptyState());
            !RanTooRecently(state, parse, nowMs) ==>
              && store.hubState.Some?
              && store.hubState.value.manual == state.manual
              && store.hubState.value.monitors == state.monitors
              && store.hubState.value.lastAutoRun == Some(checkedAt)
              && SweptResults(state.monitorResults, state.monitors, |state.monitors|, probe, checkedAt,
                              store.hubState.value.monitorResults)
              && resp == JsonOk(Swept(checkedAt, |state.monitors|))
  {
    var state := store.hubState.GetOr(EmptyState());
    if RanTooRecently(state, parse, nowMs) {
      return JsonOk(Skipped("Ran too recently"));
    }
    var results := MergeResults(state.monitorResults, state.monitors, probe, checkedAt);
    var updated := state.(monitorResults := results, lastAutoRun := Some(checkedAt));
    store.hubState := Some(updated);
    resp := JsonOk(Swept(checkedAt, |state.monitors|));
  }
}
