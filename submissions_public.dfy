/** The public listing (netlify/functions/submissions-public.ts) and the status
    filter it is built from, which the admin page reuses for its pending list. */
module SubmissionsPublic {
  import opened Types
  import opened Http
  import Seqs
  import Blobs

  /** `submissions.filter((s) => s.status === status)`. */
  function WithStatus(subs: seq<Submission>, status: SubmissionStatus): (r: seq<Submission>)
    ensures |r| <= |subs|
    ensures forall i :: 0 <= i < |r| ==> r[i].status == status
    ensures forall s :: s in r <==> s in subs && s.status == status
  {
    Seqs.Filter(subs, (s: Submission) => s.status == status)
  }

  /** The public list holds exactly the approved submissions, each as often as
      it is stored, and nothing else. */
  lemma PublicListExact(subs: seq<Submission>, s: Submission)
    ensures forall i :: 0 <= i < |WithStatus(subs, Approved)| ==> WithStatus(subs, Approved)[i].status == Approved
    ensures multiset(WithStatus(subs, Approved))[s] == if s.status == Approved then multiset(subs)[s] else 0
  {
    Seqs.FilterCount(subs, (s: Submission) => s.status == Approved, s);
  }

  /** The public list keeps stored order: listing a concatenation lists each part
      in turn. */
  lemma PublicListKeepsOrder(a: seq<Submission>, b: seq<Submission>)
    ensures WithStatus(a + b, Approved) == WithStatus(a, Approved) + WithStatus(b, Approved)
  {
    Seqs.FilterAppend(a, b, (s: Submission) => s.status == Approved);
  }

  /** The three status filters partition the stored list. */
  lemma {:induction false} StatusPartition(subs: seq<Submission>)
    ensures |WithStatus(subs, Pending)| + |WithStatus(subs, Approved)| + |WithStatus(subs, Rejected)| == |subs|
  {
    if subs != [] {
      StatusPartition(subs[1..]);
    }
  }

  /** The handler: a GET reads the stored list (empty when unset) and returns
      its approved entries; nothing is written. */
  method ListPublic(store: Blobs.HubStore, req: Request) returns (resp: Response)
    ensures req.verb != "GET" ==> resp == MethodNotAllowed()
    ensures req.verb == "GET" ==>
              resp == JsonOk(SubmissionList(WithStatus(store.submissions.GetOr([]), Approved)))
  {
    if req.verb != "GET" {
      return MethodNotAllowed();
    }
    var submissions := store.submissions.GetOr([]);
    var approved := WithStatus(submissions, Approved);
    resp := JsonOk(SubmissionList(approved));
  }
}
