/** Properties that span several handlers: the moderation lifecycle of one
    submission, the record invariant that create and review keep, and short
    sequences of calls on one store. */
module Lifecycle {
  import opened Types
  import opened Http
  import opened Strings
  import Seqs
  import Blobs
  import SubmissionsPublic
  import SubmissionsCreate
  import SubmissionsAdminReview
  import StatusGet
  import UptimeCheck
  import CalendarGet

  /** The shape every stored submission keeps: a pending record carries no
      review data, a reviewed one carries its review time. */
  predicate WellFormed(s: Submission) {
    (s.status == Pending ==> s.reviewedAt.None? && s.reviewerNote.None?) &&
    (s.status != Pending ==> s.reviewedAt.Some?)
  }

  predicate AllWellFormed(subs: seq<Submission>) {
    forall i :: 0 <= i < |subs| ==> WellFormed(subs[i])
  }

  /** Ids are unique in the list. Ids come from `newId()`, whose uniqueness is
      not part of this model, so properties that need it take it as a hypothesis. */
  predicate UniqueIds(subs: seq<Submission>) {
    forall i, j :: 0 <= i < |subs| && 0 <= j < |subs| && subs[i].id == subs[j].id ==> i == j
  }

  /** A create keeps every stored record well formed. */
  lemma CreateKeepsWellFormed(subs: seq<Submission>, body: SubmissionsCreate.CreateBody, id: string, createdAt: string)
    requires AllWellFormed(subs)
    requires SubmissionsCreate.NewSubmission(body, id, createdAt).Some?
    ensures AllWellFormed([SubmissionsCreate.NewSubmission(body, id, createdAt).value] + subs)
  {
  }

  /** A review, whatever its action and note, keeps every stored record well formed. */
  lemma ReviewKeepsWellFormed(subs: seq<Submission>, k: nat, action: string, note: Option<string>, reviewedAt: string)
    requires AllWellFormed(subs) && k < |subs|
    ensures AllWellFormed(subs[k := SubmissionsAdminReview.Reviewed(subs[k], action, note, reviewedAt)])
  {
  }

  /** Approving the entry at `k` puts the reviewed record on the public list. */
  lemma ApproveMakesPublic(subs: seq<Submission>, k: nat, note: Option<string>, reviewedAt: string)
    requires k < |subs|
    ensures var s := SubmissionsAdminReview.Reviewed(subs[k], "approve", note, reviewedAt);
            s in SubmissionsPublic.WithStatus(subs[k := s], Approved)
  {
    var s := SubmissionsAdminReview.Reviewed(subs[k], "approve", note, reviewedAt);
    assert subs[k := s][k] == s;
  }

  /** Rejecting the entry at `k` (any action other than "approve") takes its id
      off the public list when ids are unique, even if it was approved before. */
  lemma RejectHides(subs: seq<Submission>, k: nat, action: string, note: Option<string>, reviewedAt: string)
    requires k < |subs| && UniqueIds(subs) && action != "approve"
    ensures var s := SubmissionsAdminReview.Reviewed(subs[k], action, note, reviewedAt);
            forall x :: x in SubmissionsPublic.WithStatus(subs[k := s], Approved) ==> x.id != subs[k].id
  {
  }

  /** The public list is never longer than the admin list, and is as long
      exactly when every stored submission is approved (then it is the whole list). */
  lemma PublicWithinAll(subs: seq<Submission>)
    ensures |SubmissionsPublic.WithStatus(subs, Approved)| <= |subs|
    ensures |SubmissionsPublic.WithStatus(subs, Approved)| == |subs| <==>
            forall i :: 0 <= i < |subs| ==> subs[i].status == Approved
    ensures (forall i :: 0 <= i < |subs| ==> subs[i].status == Approved) ==>
            SubmissionsPublic.WithStatus(subs, Approved) == subs
  {
    Seqs.FilterKeepsAll(subs, (s: Submission) => s.status == Approved);
  }

  /** A create on a store with no submissions leaves the new record as the only one. */
  method CreateFirst(store: Blobs.HubStore, body: SubmissionsCreate.CreateBody, id: string, createdAt: string)
    returns (resp: Response)
    requires store.submissions.None? && SubmissionsCreate.NewSubmission(body, id, createdAt).Some?
    modifies store`submissions
    ensures store.submissions == Some([SubmissionsCreate.NewSubmission(body, id, createdAt).value])
  {
    var s := SubmissionsCreate.NewSubmission(body, id, createdAt).value;
    assert [s] + [] == [s];
    resp := SubmissionsCreate.Create(store, Request("POST", map[]), Some(body), id, createdAt);
  }

  /** An admin approval of the only stored submission, by its id. */
  method ApproveOnly(store: Blobs.HubStore, s: Submission, token: string, reviewedAt: string)
    returns (resp: Response)
    requires store.submissions == Some([s]) && token != "" && s.id != ""
    modifies store`submissions
    ensures store.submissions == Some([SubmissionsAdminReview.Reviewed(s, "approve", None, reviewedAt)])
  {
    var admin := Request("POST", map["x-admin-token" := token]);
    var env := Env(Some(token), None);
    assert RequireAdmin(admin, env);
    var review := SubmissionsAdminReview.ReviewBody(Some(s.id), Some("approve"), None);
    assert SubmissionsAdminReview.WellFormedBody(Some(review));
    assert SubmissionsAdminReview.FirstIndexOf([s], s.id) == Some(0);
    resp := SubmissionsAdminReview.Review(store, admin, env, Some(review), reviewedAt);
    var r := SubmissionsAdminReview.Reviewed(s, "approve", None, reviewedAt);
    assert |[s][0 := r]| == 1 && [s][0 := r][0] == r;
    assert [s][0 := r] == [r];
  }

  /** On an empty store: a create, an admin approval of the new id and a public
      listing return exactly the created record, approved, with its trimmed
      fields. `token` is the configured admin token, sent as the header. */
  method CreateApproveList(body: SubmissionsCreate.CreateBody, id: string, createdAt: string,
                           token: string, reviewedAt: string)
    returns (listed: seq<Submission>)
    requires SubmissionsCreate.NewSubmission(body, id, createdAt).Some?
    requires token != "" && id != ""
    ensures |listed| == 1
    ensures listed[0].id == id && listed[0].status == Approved
    ensures listed[0].title == Trim(body.title.value) && listed[0].course == Trim(body.course.value)
    ensures listed[0].reviewedAt == Some(reviewedAt) && listed[0].reviewerNote.None?
  {
    var s := SubmissionsCreate.NewSubmission(body, id, createdAt).value;
    var store := new Blobs.HubStore();
    var created := CreateFirst(store, body, id, createdAt);
    var reviewed := ApproveOnly(store, s, token, reviewedAt);
    var r := SubmissionsAdminReview.Reviewed(s, "approve", None, reviewedAt);
    PublicWithinAll([r]);
    var resp := SubmissionsPublic.ListPublic(store, Request("GET", map[]));
    listed := resp.body.submissions;
  }

  /** Two sweeps less than a minute apart: the second is skipped and the first
      sweep's document stays stored. `parse` reads back the first stamp as `t0`. */
  method SweepTwice(state: HubState, parse: string -> Option<int>, t0: int, t1: int,
                    stamp0: string, stamp1: string, probe: nat -> Option<int>)
    returns (first: Response, second: Response)
    requires state.lastAutoRun.None?
    requires stamp0 != "" && parse(stamp0) == Some(t0) && t1 - t0 < UptimeCheck.MinIntervalMs
    ensures first == JsonOk(Swept(stamp0, |state.monitors|))
    ensures second == JsonOk(Skipped("Ran too recently"))
  {
    var store := new Blobs.HubStore();
    store.hubState := Some(state);
    first := UptimeCheck.RunSweep(store, parse, t0, stamp0, probe);
    second := UptimeCheck.RunSweep(store, parse, t1, stamp1, probe);
  }

  /** Two calendar reads within the 15-minute lifetime of the entry the first
      one writes: the first fetches, the second serves the same events from the
      cache without using its upstream. */
  method CalendarTwice(env: Env, parse: string -> Option<int>, t0: int, t1: int, upstream: CalendarGet.Upstream,
                       other: CalendarGet.Upstream, dayStart: int, windowEnd: int, fetchedAt: string)
    returns (first: Response, second: Response)
    requires Configured(env.icalUrl) != "" && upstream.ok
    requires parse(fetchedAt) == Some(t0) && t1 - t0 < CalendarGet.CacheTtlMs
    ensures var events := CalendarGet.Refresh(upstream.components, dayStart, windowEnd);
            first == JsonOk(Events(Live, events)) && second == JsonOk(Events(FromCache, events))
  {
    var store := new Blobs.HubStore();
    var get := Request("GET", map[]);
    first := CalendarGet.GetEvents(store, get, env, parse, t0, upstream, dayStart, windowEnd, fetchedAt);
    second := CalendarGet.GetEvents(store, get, env, parse, t1, other, dayStart, windowEnd, fetchedAt);
  }

  /** Reading the status twice returns the same document, whatever is stored;
      on an empty store it is the seed. */
  method StatusTwice(stored: Option<HubState>) returns (first: Response, second: Response)
    ensures first == second
    ensures first == JsonOk(State(if stored.Some? then stored.value else StatusGet.DefaultState()))
  {
    var store := new Blobs.HubStore();
    store.hubState := stored;
    var get := Request("GET", map[]);
    first := StatusGet.GetStatus(store, get);
    second := StatusGet.GetStatus(store, get);
  }
}
