/** The admin page's edits of its loaded copy of the hub status, and its pending
    list (app/admin/page.tsx). The loaded status is `None` until the page has
    fetched it; every edit then does nothing. */
module AdminPage {
  import opened Types
  import Seqs
  import SubmissionsPublic
  import StatusUpdate

  /** The item `addManual` puts first; `id` is the fresh id, `updatedAt` the clock. */
  function NewManualItem(id: string, updatedAt: string): (r: ManualStatusItem)
    ensures r.id == id && r.updatedAt == updatedAt
    ensures r.title == "New status item" && r.message == "" && r.severity == SevInfo
  {
    ManualStatusItem(id, "New status item", "", SevInfo, updatedAt)
  }

  /** `addManual`: exactly one new item in front, the previous items after it in
      their order, the rest of the document unchanged. */
  function AddManual(state: Option<HubState>, id: string, updatedAt: string): (r: Option<HubState>)
    ensures state.None? ==> r.None?
    ensures state.Some? ==>
              && r.Some?
              && |r.value.manual| == |state.value.manual| + 1
              && r.value.manual[0].title == "New status item"
              && r.value.manual[0].message == ""
              && r.value.manual[0].severity == SevInfo
              && r.value.manual[0].id == id && r.value.manual[0].updatedAt == updatedAt
              && r.value.manual[1..] == state.value.manual
              && r.value.(manual := state.value.manual) == state.value
  {
    if state.None? then None
    else Some(state.value.(manual := [NewManualItem(id, updatedAt)] + state.value.manual))
  }

  /** The fields one edit of a row sets; a field the edit does not set is `None`. */
  datatype ManualPatch = ManualPatch(title: Option<string>, message: Option<string>, severity: Option<Severity>)

  /** `{ ...item, ...patch, updatedAt }`. */
  function MergeItem(item: ManualStatusItem, patch: ManualPatch, updatedAt: string): (r: ManualStatusItem)
    ensures r.id == item.id && r.updatedAt == updatedAt
    ensures r.title == (if patch.title.Some? then patch.title.value else item.title)
    ensures r.message == (if patch.message.Some? then patch.message.value else item.message)
    ensures r.severity == (if patch.severity.Some? then patch.severity.value else item.severity)
  {
    item.(title := patch.title.GetOr(item.title),
          message := patch.message.GetOr(item.message),
          severity := patch.severity.GetOr(item.severity),
          updatedAt := updatedAt)
  }

  /** `updateManual(i, patch)`: row `i` merged with the patch and re-stamped, every
      other row and the list's length unchanged. The page only calls it for a
      row it has rendered, so `i` is in range. */
  function UpdateManual(state: Option<HubState>, i: nat, patch: ManualPatch, updatedAt: string): (r: Option<HubState>)
    requires state.Some? ==> i < |state.value.manual|
    ensures state.None? ==> r.None?
    ensures state.Some? ==>
              && r.Some?
              && |r.value.manual| == |state.value.manual|
              && r.value.manual[i] == MergeItem(state.value.manual[i], patch, updatedAt)
              && (forall j :: 0 <= j < |state.value.manual| && j != i ==> r.value.manual[j] == state.value.manual[j])
              && r.value.(manual := state.value.manual) == state.value
  {
    if state.None? then None
    else
      var manual := state.value.manual;
      var manual' := manual[i := MergeItem(manual[i], patch, updatedAt)];
      Some(state.value.(manual := manual'))
  }

  /** The pending list: exactly the pending submissions, in order. */
  function PendingList(subs: seq<Submission>): (r: seq<Submission>)
    ensures forall s :: s in r <==> s in subs && s.status == Pending
  {
    SubmissionsPublic.WithStatus(subs, Pending)
  }

  lemma PendingListExact(subs: seq<Submission>, s: Submission)
    ensures forall i :: 0 <= i < |PendingList(subs)| ==> PendingList(subs)[i].status == Pending
    ensures multiset(PendingList(subs))[s] == if s.status == Pending then multiset(subs)[s] else 0
  {
    Seqs.FilterCount(subs, (s: Submission) => s.status == Pending, s);
  }

  /** `saveStatus`: the body it posts, or `None` when nothing is loaded and it
      posts nothing. */
  function SaveStatusBody(state: Option<HubState>): (r: Option<StatusUpdate.StatusPatch>)
    ensures r.None? <==> state.None?
  {
    if state.None? then None
    else Some(StatusUpdate.StatusPatch(Some(state.value.manual), Some(state.value.monitors)))
  }

  /** Saving replaces the stored manual items and monitors by the page's copies
      and keeps the stored results and sweep time. */
  lemma SaveStatusReplaces(stored: HubState, state: HubState)
    ensures StatusUpdate.ApplyPatch(stored, SaveStatusBody(Some(state)).value)
            == stored.(manual := state.manual, monitors := state.monitors)
  {
  }
}
