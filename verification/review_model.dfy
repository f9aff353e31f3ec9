/**
 * The closed vocabularies and the review document (backend/app/models/review.py),
 * plus the analysis record that the pipeline returns and the document stores.
 */
module ReviewModel {
  import opened Wrappers

  datatype Sentiment = Positive | Negative | Neutral {
    function Name(): string {
      match this
      case Positive => "positive"
      case Negative => "negative"
      case Neutral => "neutral"
    }
  }

  datatype Urgency = Low | Medium | High | Critical {
    function Name(): string {
      match this
      case Low => "low"
      case Medium => "medium"
      case High => "high"
      case Critical => "critical"
    }
  }

  datatype Category =
    | Quality | Service | Pricing | Delivery | Usability
    | Communication | Performance | Support | Experience | Other
  {
    function Name(): string {
      match this
      case Quality => "quality"
      case Service => "service"
      case Pricing => "pricing"
      case Delivery => "delivery"
      case Usability => "usability"
      case Communication => "communication"
      case Performance => "performance"
      case Support => "support"
      case Experience => "experience"
      case Other => "other"
    }
  }

  const SentimentNames: set<string> := {"positive", "negative", "neutral"}
  const UrgencyNames: set<string> := {"low", "medium", "high", "critical"}
  const CategoryNames: set<string> :=
    {"quality", "service", "pricing", "delivery", "usability",
     "communication", "performance", "support", "experience", "other"}

  /** The enum member whose value is `s`, as `SentimentType(s)` would find it. */
  function ParseSentiment(s: string): (r: Option<Sentiment>)
    ensures r.Some? <==> s in SentimentNames
    ensures r.Some? ==> r.value.Name() == s
  {
    if s == "positive" then Some(Positive)
    else if s == "negative" then Some(Negative)
    else if s == "neutral" then Some(Neutral)
    else None
  }

  function ParseUrgency(s: string): (r: Option<Urgency>)
    ensures r.Some? <==> s in UrgencyNames
    ensures r.Some? ==> r.value.Name() == s
  {
    if s == "low" then Some(Low)
    else if s == "medium" then Some(Medium)
    else if s == "high" then Some(High)
    else if s == "critical" then Some(Critical)
    else None
  }

  function ParseCategory(s: string): (r: Option<Category>)
    ensures r.Some? <==> s in CategoryNames
    ensures r.Some? ==> r.value.Name() == s
  {
    if s == "quality" then Some(Quality)
    else if s == "service" then Some(Service)
    else if s == "pricing" then Some(Pricing)
    else if s == "delivery" then Some(Delivery)
    else if s == "usability" then Some(Usability)
    else if s == "communication" then Some(Communication)
    else if s == "performance" then Some(Performance)
    else if s == "support" then Some(Support)
    else if s == "experience" then Some(Experience)
    else if s == "other" then Some(Other)
    else None
  }

  /** Every enum member has a distinct value, and parsing that value gives the member back. */
  lemma VocabularyRoundTrip(s: Sentiment, u: Urgency, c: Category)
    ensures s.Name() in SentimentNames && ParseSentiment(s.Name()) == Some(s)
    ensures u.Name() in UrgencyNames && ParseUrgency(u.Name()) == Some(u)
    ensures c.Name() in CategoryNames && ParseCategory(c.Name()) == Some(c)
  {
  }

  /** The vocabularies have exactly three, four and ten values. */
  lemma VocabularySizes()
    ensures |SentimentNames| == 3 && |UrgencyNames| == 4 && |CategoryNames| == 10
  {
  }

  // ---------------------------------------------------------------------
  // Field constraints of the Review document.

  /** `customer_name: Field(min_length=1, max_length=255)`. */
  predicate ValidName(s: string) {
    1 <= |s| <= 255
  }

  /** `review_text: Field(min_length=1)`. */
  predicate ValidReviewText(s: string) {
    |s| >= 1
  }

  predicate AtFree(s: string) {
    '@' !in s
  }

  /**
   * `customer_email: Field(pattern=r'^[^@]+@[^@]+\.[^@]+$')`: a non-empty @-free
   * prefix, "@", a non-empty @-free run, ".", a non-empty @-free rest.
   */
  predicate MatchesEmailPattern(s: string) {
    exists at, dot :: 0 < at && at + 1 < dot && dot + 1 < |s|
      && s[at] == '@' && s[dot] == '.'
      && AtFree(s[..at]) && AtFree(s[at + 1..dot]) && AtFree(s[dot + 1..])
  }

  /**
   * The same pattern read as: one "@", not first, and after it an @-free remainder
   * holding a "." with at least one character on each side.
   */
  predicate EmailShape(s: string) {
    '@' in s && 0 < IndexOfAt(s) && AtFree(s[IndexOfAt(s) + 1..])
    && exists dot :: IndexOfAt(s) + 1 < dot < |s| - 1 && s[dot] == '.'
  }

  lemma EmailPatternShape(s: string)
    ensures MatchesEmailPattern(s) <==> EmailShape(s)
  {
    if MatchesEmailPattern(s) {
      PatternGivesShape(s);
    }
    if EmailShape(s) {
      ShapeGivesPattern(s);
    }
  }

  lemma PatternGivesShape(s: string)
    requires MatchesEmailPattern(s)
    ensures EmailShape(s)
  {
    var at, dot :| 0 < at && at + 1 < dot && dot + 1 < |s|
      && s[at] == '@' && s[dot] == '.'
      && AtFree(s[..at]) && AtFree(s[at + 1..dot]) && AtFree(s[dot + 1..]);
    WitnessGivesShape(s, at, dot);
  }

  /** The positions that satisfy the pattern give the shape. */
  lemma WitnessGivesShape(s: string, at: nat, dot: nat)
    requires 0 < at && at + 1 < dot && dot + 1 < |s| && s[at] == '@' && s[dot] == '.'
    requires AtFree(s[..at]) && AtFree(s[at + 1..dot]) && AtFree(s[dot + 1..])
    ensures EmailShape(s)
  {
    AtIndexUnique(s, at);
    assert s[at + 1..] == s[at + 1..dot] + [s[dot]] + s[dot + 1..];
    assert IndexOfAt(s) + 1 < dot < |s| - 1 && s[dot] == '.';
  }

  /** An "@" with no "@" before it is the one `IndexOfAt` finds. */
  lemma AtIndexUnique(s: string, at: nat)
    requires at < |s| && s[at] == '@' && AtFree(s[..at])
    ensures '@' in s && IndexOfAt(s) == at
  {
  }

  lemma ShapeGivesPattern(s: string)
    requires EmailShape(s)
    ensures MatchesEmailPattern(s)
  {
    var at := IndexOfAt(s);
    var dot :| at + 1 < dot < |s| - 1 && s[dot] == '.';
    assert s[at + 1..dot] == s[at + 1..][..dot - at - 1];
    assert s[dot + 1..] == s[at + 1..][dot - at..];
  }

  function IndexOfAt(s: string): (k: nat)
    requires '@' in s
    ensures k < |s| && s[k] == '@' && AtFree(s[..k])
  {
    if s[0] == '@' then 0 else
      var k := 1 + IndexOfAt(s[1..]);
      assert s[..k] == [s[0]] + s[1..][..k - 1];
      k
  }

  // ---------------------------------------------------------------------
  // The analysis record and the review document.

  /**
   * The dictionary `analyze_review` returns (backend/app/agents/review_agent.py:250-260),
   * stored in the document's `ai_analysis_data`. The values are the strings the
   * language model produced; they are not checked against the vocabularies.
   */
  datatype Analysis = Analysis(
    sentiment: string,
    sentimentScore: real,
    urgencyLevel: string,
    categories: seq<string>,
    keyIssues: seq<string>,
    shouldSendEmail: bool,
    emailTemplate: Option<string>,
    analysisComplete: bool,
    error: string)

  /**
   * The `Review` document. The fields `rating`, `sentiment`, `sentiment_score`,
   * `urgency_level`, `categories` and `key_issues` are read or written by the
   * services but not declared by the document; they are given here.
   * Timestamps are plain integers supplied by the caller.
   */
  datatype Review = Review(
    customerName: string,
    customerEmail: string,
    reviewText: string,
    rating: Option<int>,
    sentiment: Option<string>,
    sentimentScore: Option<real>,
    urgencyLevel: Option<string>,
    categories: seq<string>,
    keyIssues: seq<string>,
    aiProcessed: bool,
    aiProcessingError: Option<string>,
    aiAnalysisData: Option<Analysis>,
    emailSent: bool,
    createdAt: int,
    updatedAt: int)

  /** The constraints pydantic checks when a document is constructed. */
  predicate ValidReview(r: Review) {
    ValidName(r.customerName) && MatchesEmailPattern(r.customerEmail) && ValidReviewText(r.reviewText)
  }

  /**
   * Constructing a document from the three required fields: it is validated, and
   * every other field takes its default. A violated constraint is a validation error.
   */
  function NewReview(name: string, email: string, text: string, now: int): (r: Result<Review, string>)
    ensures r.Success? <==> ValidName(name) && MatchesEmailPattern(email) && ValidReviewText(text)
    ensures r.Success? ==> ValidReview(r.value)
    ensures r.Success? ==>
      && r.value.customerName == name && r.value.customerEmail == email && r.value.reviewText == text
      && !r.value.aiProcessed && !r.value.emailSent
      && r.value.aiProcessingError.None? && r.value.aiAnalysisData.None?
      && r.value.createdAt == now && r.value.updatedAt == now
  {
    if !ValidName(name) then Failure("customer_name: String should have between 1 and 255 characters")
    else if !MatchesEmailPattern(email) then Failure("customer_email: String should match pattern '^[^@]+@[^@]+\\.[^@]+$'")
    else if !ValidReviewText(text) then Failure("review_text: String should have at least 1 character")
    else Success(Review(name, email, text, None, None, None, None, [], [], false, None, None, false, now, now))
  }
}
