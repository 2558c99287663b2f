/** Rating a note (netlify/functions/rate-submission.ts): check the rating, add it
    to the record's running total and count, and store the record back. */
module RateSubmission {
  import opened Types
  import opened Http
  import Blobs

  /** A parsed request body; a field the JSON leaves out is `None`. */
  datatype RateBody = RateBody(submissionId: Option<string>, rating: Option<int>)

  /** `!submissionId || !rating || rating < 1 || rating > 5` is false. */
  predicate ValidRating(body: RateBody)
    ensures ValidRating(body) <==>
              body.submissionId.Some? && body.submissionId.value != "" &&
              body.rating.Some? && 1 <= body.rating.value <= 5
  {
    body.submissionId.Some? && body.submissionId.value != "" &&
    body.rating.Some? && body.rating.value != 0 && 1 <= body.rating.value <= 5
  }

  /** The record after one rating: the total grows by the rating and the count by
      one (a missing counter counts as 0); `rating` becomes their quotient; no
      other field changes. */
  function AddRating(rec: NoteSubmission, rating: int): (r: NoteSubmission)
    ensures r.totalRating == Some(rec.totalRating.GetOr(0) + rating)
    ensures r.ratingCount == Some(rec.ratingCount.GetOr(0) + 1)
    ensures r.rating == r.totalRating.value as real / r.ratingCount.value as real
    ensures r.(rating := rec.rating, ratingCount := rec.ratingCount, totalRating := rec.totalRating) == rec
  {
    var total := rec.totalRating.GetOr(0) + rating;
    var count := rec.ratingCount.GetOr(0) + 1;
    rec.(totalRating := Some(total), ratingCount := Some(count), rating := total as real / count as real)
  }

  /** The counters are consistent with ratings from 1 to 5: the total lies
      between the count and five times the count. */
  predicate CountersInRange(rec: NoteSubmission) {
    rec.ratingCount.GetOr(0) <= rec.totalRating.GetOr(0) <= 5 * rec.ratingCount.GetOr(0)
  }

  /** A valid rating keeps the counters consistent, and the stored average then
      lies between 1 and 5. */
  lemma AddRatingInRange(rec: NoteSubmission, rating: int)
    requires CountersInRange(rec) && 1 <= rating <= 5
    ensures CountersInRange(AddRating(rec, rating))
    ensures 1.0 <= AddRating(rec, rating).rating <= 5.0
  {
    var r := AddRating(rec, rating);
    var total := r.totalRating.value as real;
    var count := r.ratingCount.value as real;
    assert count >= 1.0;
    assert count <= total <= 5.0 * count;
    QuotientBetween(total, count, 1.0, 5.0);
  }

  /** Dividing by a positive count keeps bounds that hold per unit of the count. */
  lemma QuotientBetween(a: real, c: real, lo: real, hi: real)
    requires c > 0.0 && lo * c <= a <= hi * c
    ensures lo <= a / c <= hi
  {
  }

  /** The handler. `body` is `None` when the JSON does not parse (the 500 reply).
      A valid rating of a stored record rewrites just that record. */
  method Rate(store: Blobs.NoteStore, req: Request, body: Option<RateBody>) returns (resp: Response)
    modifies store
    ensures req.verb != "POST" ==> resp == TextReply(405, "Method not allowed") && unchanged(store)
    ensures req.verb == "POST" && body.None? ==> resp == JsonReply(500, ServerError) && unchanged(store)
    ensures req.verb == "POST" && body.Some? && !ValidRating(body.value) ==>
              resp == JsonReply(400, ErrorBody("Invalid submission ID or rating")) && unchanged(store)
    ensures req.verb == "POST" && body.Some? && ValidRating(body.value) &&
            body.value.submissionId.value !in old(store.records) ==>
              resp == JsonReply(404, ErrorBody("Submission not found")) && unchanged(store)
    ensures req.verb == "POST" && body.Some? && ValidRating(body.value) &&
            body.value.submissionId.value in old(store.records) ==>
              var id := body.value.submissionId.value;
              var rec := AddRating(old(store.records)[id], body.value.rating.value);
              && store.records == old(store.records)[id := rec]
              && resp == JsonReply(200, Rated(rec.rating, rec.ratingCount.value))
  {
    if req.verb != "POST" {
      return TextReply(405, "Method not allowed");
    }
    if body.None? {
      return JsonReply(500, ServerError);
    }
    if !ValidRating(body.value) {
      return JsonReply(400, ErrorBody("Invalid submission ID or rating"));
    }
    var submissionId := body.value.submissionId.value;
    var rating := body.value.rating.value;
    if submissionId !in store.records {
      return JsonReply(404, ErrorBody("Submission not found"));
    }
    var submission := store.records[submissionId];
    submission := submission.(totalRating := Some(submission.totalRating.GetOr(0) + rating));
    submission := submission.(ratingCount := Some(submission.ratingCount.GetOr(0) + 1));
    submission := submission.(rating := submission.totalRating.value as real / submission.ratingCount.value as real);
    store.records := store.records[submissionId := submission];
    resp := JsonReply(200, Rated(submission.rating, submission.ratingCount.value));
  }
}
