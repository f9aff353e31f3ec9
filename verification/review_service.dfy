/**
 * The review service (backend/app/services/review_service.py): the upsert of a review
 * keyed by customer email, the legacy in-place analysis of a stored review, and the
 * counts of `get_review_stats`. The document collection is a sequence of records;
 * a record's position in it is its id.
 */
module ReviewService {
  import opened Wrappers
  import opened ReviewModel
  import ReviewAgent

  /**
   * `analyze_review(review_text, customer_name, rating)` as the services call it: the
   * analysis record, or the text of the exception it raised.
   */
  type Analyzer = (string, string, Option<int>) -> Reply<Analysis>

  /** The analysis pipeline as an analyzer; it never raises. */
  function PipelineAnalyzer(o: ReviewAgent.Oracles): Analyzer {
    (text, name, rating) => Success(ReviewAgent.Analyze(text, name, rating, o))
  }

  /** `Review.find_one(Review.customer_email == email)`: the first record with that email. */
  function FindByEmail(records: seq<Review>, email: string): (r: Option<nat>)
    ensures r.Some? ==> r.value < |records| && records[r.value].customerEmail == email
    ensures r.Some? ==> forall j :: 0 <= j < r.value ==> records[j].customerEmail != email
    ensures r.None? <==> forall j :: 0 <= j < |records| ==> records[j].customerEmail != email
  {
    if records == [] then None
    else if records[0].customerEmail == email then Some(0)
    else
      var r := FindByEmail(records[1..], email);
      assert forall j :: 1 <= j < |records| ==> records[1..][j - 1] == records[j];
      if r.None? then None else Some(r.value + 1)
  }

  /** No two records share a customer email. */
  predicate UniqueEmails(records: seq<Review>) {
    forall i, j :: 0 <= i < j < |records| ==> records[i].customerEmail != records[j].customerEmail
  }

  /** The analysis fields every processed record carries. */
  predicate CarriesAnalysis(r: Review, a: Analysis) {
    && r.sentiment == Some(a.sentiment) && r.sentimentScore == Some(a.sentimentScore)
    && r.urgencyLevel == Some(a.urgencyLevel) && r.categories == a.categories
    && r.keyIssues == a.keyIssues && r.aiProcessed && r.aiAnalysisData == Some(a)
  }

  /** The update branch: the fields assigned on the existing record. Assignment is not validated. */
  function UpdatedRecord(r: Review, name: string, text: string, a: Analysis, now: int): (u: Review)
    ensures CarriesAnalysis(u, a) && u.aiProcessingError == Some(a.error)
    ensures u.customerName == name && u.reviewText == text && u.updatedAt == now
    ensures u.customerEmail == r.customerEmail && u.createdAt == r.createdAt
    ensures u.rating == r.rating && u.emailSent == r.emailSent
  {
    r.(customerName := name, reviewText := text,
       sentiment := Some(a.sentiment), sentimentScore := Some(a.sentimentScore),
       urgencyLevel := Some(a.urgencyLevel), categories := a.categories, keyIssues := a.keyIssues,
       aiProcessed := true, aiAnalysisData := Some(a), aiProcessingError := Some(a.error),
       updatedAt := now)
  }

  /** The insert branch: a validated new document holding the analysis. */
  function InsertedRecord(name: string, email: string, text: string, a: Analysis, now: int): (r: Result<Review, string>)
    ensures r.Success? <==> ValidName(name) && MatchesEmailPattern(email) && ValidReviewText(text)
    ensures r.Success? ==>
      && ValidReview(r.value) && CarriesAnalysis(r.value, a) && r.value.aiProcessingError == Some(a.error)
      && r.value.customerName == name && r.value.customerEmail == email && r.value.reviewText == text
      && r.value.createdAt == now && r.value.updatedAt == now && !r.value.emailSent
  {
    match NewReview(name, email, text, now)
    case Failure(e) => Failure(e)
    case Success(doc) =>
      Success(doc.(sentiment := Some(a.sentiment), sentimentScore := Some(a.sentimentScore),
                     urgencyLevel := Some(a.urgencyLevel), categories := a.categories,
                     keyIssues := a.keyIssues, aiProcessed := true, aiAnalysisData := Some(a),
                     aiProcessingError := Some(a.error)))
  }

  /** The dictionary `create_and_process_review` returns. */
  datatype CreateResult = CreateResult(
    reviewId: nat,
    customerName: string,
    customerEmail: string,
    analysis: Analysis,
    emailSent: bool,
    emailTemplate: Option<string>,
    isUpdate: bool,
    message: string)

  /** The collection after a call, and what the call returned or raised. */
  datatype Upserted = Upserted(records: seq<Review>, reply: Result<CreateResult, string>)

  /**
   * `create_and_process_review`: look the email up, analyse the text (with no rating),
   * then update the record found or insert a new one. Any exception is re-raised and
   * leaves the collection as it was.
   */
  function Upsert(records: seq<Review>, name: string, email: string, text: string,
                  analyze: Analyzer, now: int): (u: Upserted)
    ensures u.reply.Failure? ==> u.records == records
    ensures u.reply.Failure? <==>
      analyze(text, name, None).Failure?
      || (FindByEmail(records, email).None? && !(ValidName(name) && MatchesEmailPattern(email) && ValidReviewText(text)))
    ensures u.reply.Success? ==>
      var res := u.reply.value;
      && (res.isUpdate <==> exists j :: 0 <= j < |records| && records[j].customerEmail == email)
      && |u.records| == |records| + (if res.isUpdate then 0 else 1)
      && res.reviewId < |u.records| && u.records[res.reviewId].customerEmail == email
      && CarriesAnalysis(u.records[res.reviewId], res.analysis)
      && u.records[res.reviewId].aiProcessingError == Some(res.analysis.error)
      && res.analysis == analyze(text, name, None).value
      && res.customerName == name && res.customerEmail == email
      && !res.emailSent && res.emailTemplate.None?
      && (forall j :: 0 <= j < |records| && j != res.reviewId ==> u.records[j] == records[j])
  {
    var existing := FindByEmail(records, email);
    match analyze(text, name, None)
    case Failure(e) => Upserted(records, Failure(e))
    case Success(a) =>
      match existing
      case Some(i) =>
        var review := UpdatedRecord(records[i], name, text, a, now);
        Upserted(records[i := review],
                 Success(CreateResult(i, review.customerName, review.customerEmail, a, false, None, true,
                                      "Review updated and processed successfully")))
      case None =>
        match InsertedRecord(name, email, text, a, now)
        case Failure(e) => Upserted(records, Failure(e))
        case Success(review) =>
          Upserted(records + [review],
                   Success(CreateResult(|records|, review.customerName, review.customerEmail, a, false, None, false,
                                        "Review created and processed successfully")))
  }

  /** An update leaves the record's email and creation time as they were. */
  lemma UpsertUpdateKeepsIdentity(records: seq<Review>, name: string, email: string, text: string,
                                  analyze: Analyzer, now: int)
    requires Upsert(records, name, email, text, analyze, now).reply.Success?
    requires Upsert(records, name, email, text, analyze, now).reply.value.isUpdate
    ensures var u := Upsert(records, name, email, text, analyze, now);
      var i := u.reply.value.reviewId;
      && i < |records| && i == FindByEmail(records, email).value
      && u.records[i].createdAt == records[i].createdAt
      && u.records[i].customerEmail == records[i].customerEmail
      && u.records[i].updatedAt == now && u.records[i].customerName == name && u.records[i].reviewText == text
  {
  }

  /** A collection with unique emails keeps them through an upsert. */
  lemma UpsertKeepsEmailsUnique(records: seq<Review>, name: string, email: string, text: string,
                                analyze: Analyzer, now: int)
    requires UniqueEmails(records)
    ensures UniqueEmails(Upsert(records, name, email, text, analyze, now).records)
  {
    var u := Upsert(records, name, email, text, analyze, now);
    if u.reply.Success? && !u.reply.value.isUpdate {
      assert u.records == records + [u.records[|records|]];
      forall i, j | 0 <= i < j < |u.records|
        ensures u.records[i].customerEmail != u.records[j].customerEmail
      {
        if j == |records| {
          assert records[i].customerEmail != email;
        } else {
          assert u.records[i] == records[i] && u.records[j] == records[j];
        }
      }
    } else if u.reply.Success? {
      var k := u.reply.value.reviewId;
      forall i, j | 0 <= i < j < |u.records|
        ensures u.records[i].customerEmail != u.records[j].customerEmail
      {
        assert u.records[k].customerEmail == records[k].customerEmail;
        assert u.records[i].customerEmail == records[i].customerEmail;
        assert u.records[j].customerEmail == records[j].customerEmail;
      }
    }
  }

  /**
   * Calling again with the same email after a successful call updates the same record:
   * the collection does not grow and the id is the same.
   */
  lemma UpsertAgainUpdates(records: seq<Review>, name: string, email: string, text: string,
                           name2: string, text2: string, analyze: Analyzer, now: int, later: int)
    requires UniqueEmails(records)
    requires Upsert(records, name, email, text, analyze, now).reply.Success?
    requires analyze(text2, name2, None).Success?
    ensures var u := Upsert(records, name, email, text, analyze, now);
      var v := Upsert(u.records, name2, email, text2, analyze, later);
      && v.reply.Success? && v.reply.value.isUpdate
      && v.reply.value.reviewId == u.reply.value.reviewId
      && |v.records| == |u.records|
  {
    var u := Upsert(records, name, email, text, analyze, now);
    var k := u.reply.value.reviewId;
    UpsertKeepsEmailsUnique(records, name, email, text, analyze, now);
    assert u.records[k].customerEmail == email;
    var f := FindByEmail(u.records, email);
    assert f.Some?;
    assert f.value == k;
  }

  /**
   * With the pipeline as analyzer the stored error is "" exactly when no inference
   * stage failed.
   */
  lemma StoredErrorReportsFailures(records: seq<Review>, name: string, email: string, text: string,
                                   o: ReviewAgent.Oracles, now: int)
    requires Upsert(records, name, email, text, PipelineAnalyzer(o), now).reply.Success?
    ensures var u := Upsert(records, name, email, text, PipelineAnalyzer(o), now);
      var s := ReviewAgent.InitialState(text, name, None);
      u.records[u.reply.value.reviewId].aiProcessingError == Some("")
      <==> forall i :: 0 <= i < 3 ==> ReviewAgent.StageFailures(s, o)[i].None?
  {
    ReviewAgent.ErrorEmptyIffNoFailure(text, name, None, o);
  }

  // ---------------------------------------------------------------------
  // analyze_review_with_ai

  /**
   * The record after `analyze_review_with_ai`. On success the analysis fields are written
   * and the error is overwritten only by a non-empty analysis error; on an exception the
   * record is marked unprocessed with the message and nothing else changes.
   */
  function AnalyzedRecord(r: Review, analyze: Analyzer, now: int): (u: Review)
    ensures u.customerName == r.customerName && u.customerEmail == r.customerEmail
    ensures u.reviewText == r.reviewText && u.createdAt == r.createdAt && u.rating == r.rating
    ensures analyze(r.reviewText, r.customerName, r.rating).Success? ==>
      var a := analyze(r.reviewText, r.customerName, r.rating).value;
      && CarriesAnalysis(u, a) && u.updatedAt == now
      && u.aiProcessingError == (if a.error != "" then Some(a.error) else r.aiProcessingError)
      && u.(sentiment := r.sentiment, sentimentScore := r.sentimentScore, urgencyLevel := r.urgencyLevel,
            categories := r.categories, keyIssues := r.keyIssues, aiProcessed := r.aiProcessed,
            aiAnalysisData := r.aiAnalysisData, updatedAt := r.updatedAt,
            aiProcessingError := r.aiProcessingError) == r
    ensures analyze(r.reviewText, r.customerName, r.rating).Failure? ==>
      && !u.aiProcessed && u.aiProcessingError == Some(analyze(r.reviewText, r.customerName, r.rating).error)
      && u.(aiProcessed := r.aiProcessed, aiProcessingError := r.aiProcessingError) == r
  {
    match analyze(r.reviewText, r.customerName, r.rating)
    case Failure(e) => r.(aiProcessingError := Some(e), aiProcessed := false)
    case Success(a) =>
      var written := r.(sentiment := Some(a.sentiment), sentimentScore := Some(a.sentimentScore),
                        urgencyLevel := Some(a.urgencyLevel), categories := a.categories,
                        keyIssues := a.keyIssues, aiProcessed := true, aiAnalysisData := Some(a),
                        updatedAt := now);
      if a.error != "" then written.(aiProcessingError := Some(a.error)) else written
  }

  /**
   * The legacy path and the update branch of the upsert agree on everything they write,
   * except that a clean analysis ("" error) leaves an earlier error in place here and
   * replaces it with "" there.
   */
  lemma LegacyAgreesWithUpdate(r: Review, analyze: Analyzer, now: int)
    requires analyze(r.reviewText, r.customerName, r.rating).Success?
    ensures var a := analyze(r.reviewText, r.customerName, r.rating).value;
      var legacy := AnalyzedRecord(r, analyze, now);
      var upd := UpdatedRecord(r, r.customerName, r.reviewText, a, now);
      && (a.error != "" ==> legacy == upd)
      && (a.error == "" ==> legacy == upd.(aiProcessingError := r.aiProcessingError))
  {
  }

  // ---------------------------------------------------------------------
  // get_review_stats

  /** Number of records satisfying `p`. */
  function Count(records: seq<Review>, p: Review -> bool): (n: nat)
    ensures n <= |records|
    decreases |records|
  {
    if records == [] then 0 else (if p(records[0]) then 1 else 0) + Count(records[1..], p)
  }

  function Either(p: Review -> bool, q: Review -> bool): Review -> bool {
    r => p(r) || q(r)
  }

  /** Counts of two conditions that never hold together add up to the count of either. */
  lemma {:induction false} CountDisjoint(records: seq<Review>, p: Review -> bool, q: Review -> bool)
    requires forall r :: !(p(r) && q(r))
    ensures Count(records, p) + Count(records, q) == Count(records, Either(p, q))
    decreases |records|
  {
    if records != [] {
      CountDisjoint(records[1..], p, q);
    }
  }

  function SentimentIs(v: string): Review -> bool {
    (r: Review) => r.sentiment == Some(v)
  }

  function UrgencyIs(v: string): Review -> bool {
    (r: Review) => r.urgencyLevel == Some(v)
  }

  function EmailWasSent(): Review -> bool {
    (r: Review) => r.emailSent
  }

  function WasAiProcessed(): Review -> bool {
    (r: Review) => r.aiProcessed
  }

  datatype ReviewStats = ReviewStats(
    totalReviews: nat,
    positive: nat, negative: nat, neutral: nat,
    critical: nat, high: nat, medium: nat, low: nat,
    emailsSent: nat, aiProcessed: nat,
    processingRate: real)

  /** `get_review_stats`: one count per query, and the share of processed reviews in percent. */
  function GetReviewStats(records: seq<Review>): (s: ReviewStats)
    ensures s.totalReviews == |records|
    ensures s.positive <= s.totalReviews && s.negative <= s.totalReviews && s.neutral <= s.totalReviews
    ensures s.critical <= s.totalReviews && s.high <= s.totalReviews
    ensures s.medium <= s.totalReviews && s.low <= s.totalReviews
    ensures s.emailsSent <= s.totalReviews && s.aiProcessed <= s.totalReviews
    ensures s.totalReviews == 0 ==> s.processingRate == 0.0
  {
    var total := |records|;
    var processed := Count(records, WasAiProcessed());
    ReviewStats(total,
                Count(records, SentimentIs("positive")), Count(records, SentimentIs("negative")),
                Count(records, SentimentIs("neutral")),
                Count(records, UrgencyIs("critical")), Count(records, UrgencyIs("high")),
                Count(records, UrgencyIs("medium")), Count(records, UrgencyIs("low")),
                Count(records, EmailWasSent()), processed,
                if total > 0 then processed as real / total as real * 100.0 else 0.0)
  }

  /** The sentiment and urgency breakdowns never count a record twice. */
  lemma BreakdownsWithinTotal(records: seq<Review>)
    ensures var s := GetReviewStats(records);
      && s.positive + s.negative + s.neutral <= s.totalReviews
      && s.critical + s.high + s.medium + s.low <= s.totalReviews
  {
    var pos, neg, neu := SentimentIs("positive"), SentimentIs("negative"), SentimentIs("neutral");
    CountDisjoint(records, pos, neg);
    CountDisjoint(records, Either(pos, neg), neu);
    var crit, high, med, low := UrgencyIs("critical"), UrgencyIs("high"), UrgencyIs("medium"), UrgencyIs("low");
    CountDisjoint(records, crit, high);
    CountDisjoint(records, Either(crit, high), med);
    CountDisjoint(records, Either(Either(crit, high), med), low);
  }

  /** The processing rate is a percentage. */
  lemma ProcessingRateIsPercentage(records: seq<Review>)
    ensures 0.0 <= GetReviewStats(records).processingRate <= 100.0
  {
    var s := GetReviewStats(records);
    if s.totalReviews > 0 {
      PercentageBound(s.aiProcessed, s.totalReviews);
    }
  }

  /** A part of a non-empty whole, as a percentage of it, lies in 0..100. */
  lemma PercentageBound(part: nat, total: nat)
    requires 0 < total && part <= total
    ensures 0.0 <= part as real / total as real * 100.0 <= 100.0
  {
    var p, t := part as real, total as real;
    assert (p / t) * t == p;
  }

  /** Inserting a record adds one to the total, and one to the processed count iff it is processed. */
  lemma InsertAddsOne(records: seq<Review>, r: Review)
    ensures GetReviewStats(records + [r]).totalReviews == GetReviewStats(records).totalReviews + 1
    ensures GetReviewStats(records + [r]).aiProcessed == GetReviewStats(records).aiProcessed + (if r.aiProcessed then 1 else 0)
  {
    CountAppend(records, r, WasAiProcessed());
  }

  lemma {:induction false} CountAppend(records: seq<Review>, r: Review, p: Review -> bool)
    ensures Count(records + [r], p) == Count(records, p) + (if p(r) then 1 else 0)
    decreases |records|
  {
    if records != [] {
      assert (records + [r])[1..] == records[1..] + [r];
      CountAppend(records[1..], r, p);
    } else {
      assert [] + [r] == [r];
    }
  }

  // ---------------------------------------------------------------------
  // The collection and the operations that change it in place.

  /** The `Review` collection. */
  class ReviewStore {
    var records: seq<Review>

    constructor ()
      ensures records == []
    {
      records := [];
    }

    /** `create_and_process_review` against this collection. */
    method CreateAndProcessReview(name: string, email: string, text: string, analyze: Analyzer, now: int)
      returns (result: Result<CreateResult, string>)
      modifies this
      ensures records == Upsert(old(records), name, email, text, analyze, now).records
      ensures result == Upsert(old(records), name, email, text, analyze, now).reply
    {
      var existing := FindByEmail(records, email);
      var isUpdate := existing.Some?;
      var analysis := analyze(text, name, None);
      if analysis.Failure? {
        return Failure(analysis.error);
      }
      var a := analysis.value;
      var review: Review;
      var id: nat;
      if existing.Some? {
        id := existing.value;
        review := records[id];
        review := review.(customerName := name, reviewText := text);
        review := review.(sentiment := Some(a.sentiment), sentimentScore := Some(a.sentimentScore));
        review := review.(urgencyLevel := Some(a.urgencyLevel), categories := a.categories);
        review := review.(keyIssues := a.keyIssues, aiProcessed := true, aiAnalysisData := Some(a));
        review := review.(aiProcessingError := Some(a.error), updatedAt := now);
        records := records[id := review];
      } else {
        var created := InsertedRecord(name, email, text, a, now);
        if created.Failure? {
          return Failure(created.error);
        }
        review := created.value;
        id := |records|;
        records := records + [review];
      }
      var message := if isUpdate then "Review updated and processed successfully"
                     else "Review created and processed successfully";
      result := Success(CreateResult(id, review.customerName, review.customerEmail, a, false, None, isUpdate, message));
    }

    /** `analyze_review_with_ai` on the record with id `id`, saved back in place. */
    method AnalyzeReviewWithAi(id: nat, analyze: Analyzer, now: int) returns (result: Reply<Analysis>)
      requires id < |records|
      modifies this
      ensures records == old(records)[id := AnalyzedRecord(old(records)[id], analyze, now)]
      ensures result == analyze(old(records)[id].reviewText, old(records)[id].customerName, old(records)[id].rating)
    {
      var review := records[id];
      result := analyze(review.reviewText, review.customerName, review.rating);
      if result.Failure? {
        review := review.(aiProcessingError := Some(result.error), aiProcessed := false);
        records := records[id := review];
        return;
      }
      var a := result.value;
      review := review.(sentiment := Some(a.sentiment), sentimentScore := Some(a.sentimentScore));
      review := review.(urgencyLevel := Some(a.urgencyLevel), categories := a.categories);
      review := review.(keyIssues := a.keyIssues, aiProcessed := true, aiAnalysisData := Some(a));
      review := review.(updatedAt := now);
      if a.error != "" {
        review := review.(aiProcessingError := Some(a.error));
      }
      records := records[id := review];
    }
  }
}
