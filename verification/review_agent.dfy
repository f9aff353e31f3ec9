/**
 * The review-analysis pipeline (backend/app/agents/review_agent.py): a state record
 * threaded through four stages in a fixed order, sentiment -> categorize -> urgency
 * -> decide. The language model and `json.loads` at each call site are an oracle
 * that returns the parsed reply or the text of the exception it raised.
 */
module ReviewAgent {
  import opened Wrappers
  import opened ReviewModel

  datatype SentimentReply = SentimentReply(sentiment: string, confidence: real)
  datatype CategoryReply = CategoryReply(categories: seq<string>, keyIssues: seq<string>)
  datatype UrgencyReply = UrgencyReply(urgencyLevel: string)

  /**
   * The three inference call sites, each a function of the state fields its prompt shows:
   * sentiment(customer_name, rating, review_text), categorize(review_text, sentiment),
   * urgency(sentiment, sentiment_score, categories, key_issues, review_text).
   */
  datatype Oracles = Oracles(
    sentiment: (string, int, string) -> Reply<SentimentReply>,
    categorize: (string, string) -> Reply<CategoryReply>,
    urgency: (string, real, seq<string>, seq<string>, string) -> Reply<UrgencyReply>)

  /** `ReviewAnalysisState`, as a value. */
  datatype State = State(
    reviewText: string,
    customerName: string,
    rating: int,
    sentiment: string,
    sentimentScore: real,
    urgencyLevel: string,
    categories: seq<string>,
    keyIssues: seq<string>,
    shouldSendEmail: bool,
    emailTemplate: Option<string>,
    analysisComplete: bool,
    error: string)

  const SentimentErrorPrefix := "Sentiment analysis error: "
  const CategorizationErrorPrefix := "Categorization error: "
  const UrgencyErrorPrefix := "Urgency determination error: "

  /** The urgencies for which an email is sent. */
  const SendingUrgencies: set<string> := {"medium", "high", "critical"}

  // ---------------------------------------------------------------------
  // The stages as functions on the state value.

  function InitialState(reviewText: string, customerName: string, rating: Option<int>): (s: State)
    ensures s.rating == 0 <==> rating.None? || rating.value == 0
    ensures rating.Some? && rating.value != 0 ==> s.rating == rating.value
    ensures s.reviewText == reviewText && s.customerName == customerName
    ensures s.error == "" && !s.analysisComplete
  {
    State(reviewText, customerName, rating.GetOr(0), "", 0.0, "", [], [], false, Some(""), false, "")
  }

  /** The failure message of a stage's oracle call, if it failed. */
  function FailureText<T>(prefix: string, reply: Reply<T>): Option<string> {
    match reply
    case Success(_) => None
    case Failure(m) => Some(prefix + m)
  }

  function SentimentCall(s: State, o: Oracles): Reply<SentimentReply> {
    o.sentiment(s.customerName, s.rating, s.reviewText)
  }

  function CategorizeCall(s: State, o: Oracles): Reply<CategoryReply> {
    o.categorize(s.reviewText, s.sentiment)
  }

  function UrgencyCall(s: State, o: Oracles): Reply<UrgencyReply> {
    o.urgency(s.sentiment, s.sentimentScore, s.categories, s.keyIssues, s.reviewText)
  }

  /**
   * `_analyze_sentiment`: writes sentiment and score from the reply; on failure
   * records the error and falls back to "neutral" and 0.0. Nothing else changes.
   */
  function SentimentStage(s: State, o: Oracles): (r: State)
    ensures r == s.(sentiment := r.sentiment, sentimentScore := r.sentimentScore, error := r.error)
    ensures SentimentCall(s, o).Failure? ==>
      r.sentiment == "neutral" && r.sentimentScore == 0.0
      && r.error == SentimentErrorPrefix + SentimentCall(s, o).error
    ensures SentimentCall(s, o).Success? ==>
      r.sentiment == SentimentCall(s, o).value.sentiment
      && r.sentimentScore == SentimentCall(s, o).value.confidence && r.error == s.error
  {
    match SentimentCall(s, o)
    case Success(a) => s.(sentiment := a.sentiment, sentimentScore := a.confidence)
    case Failure(m) => s.(error := SentimentErrorPrefix + m, sentiment := "neutral", sentimentScore := 0.0)
  }

  /**
   * `_categorize_issues`: writes categories and key issues; on failure records the
   * error and falls back to ["other"] and []. The sentiment is left as it was.
   */
  function CategorizeStage(s: State, o: Oracles): (r: State)
    ensures r == s.(categories := r.categories, keyIssues := r.keyIssues, error := r.error)
    ensures CategorizeCall(s, o).Failure? ==>
      r.categories == ["other"] && r.keyIssues == []
      && r.error == CategorizationErrorPrefix + CategorizeCall(s, o).error
    ensures CategorizeCall(s, o).Success? ==>
      r.categories == CategorizeCall(s, o).value.categories
      && r.keyIssues == CategorizeCall(s, o).value.keyIssues && r.error == s.error
  {
    match CategorizeCall(s, o)
    case Success(a) => s.(categories := a.categories, keyIssues := a.keyIssues)
    case Failure(m) => s.(error := CategorizationErrorPrefix + m, categories := ["other"], keyIssues := [])
  }

  /**
   * `_determine_urgency`: writes the urgency level; on failure records the error and
   * falls back to "medium". Only `urgency_level` and `error` change.
   */
  function UrgencyStage(s: State, o: Oracles): (r: State)
    ensures r == s.(urgencyLevel := r.urgencyLevel, error := r.error)
    ensures UrgencyCall(s, o).Failure? ==>
      r.urgencyLevel == "medium" && r.error == UrgencyErrorPrefix + UrgencyCall(s, o).error
    ensures UrgencyCall(s, o).Success? ==>
      r.urgencyLevel == UrgencyCall(s, o).value.urgencyLevel && r.error == s.error
  {
    match UrgencyCall(s, o)
    case Success(a) => s.(urgencyLevel := a.urgencyLevel)
    case Failure(m) => s.(error := UrgencyErrorPrefix + m, urgencyLevel := "medium")
  }

  /** The send condition as written: negative sentiment OR an urgency of medium or above. */
  predicate SendCondition(sentiment: string, urgency: string) {
    sentiment == "negative" || urgency in SendingUrgencies
  }

  /** The stricter variant some descriptions of the system give: negative AND medium or above. */
  predicate SendConditionAnd(sentiment: string, urgency: string) {
    sentiment == "negative" && urgency in SendingUrgencies
  }

  /** The first-match template chain. */
  function ChooseTemplate(urgency: string, categories: seq<string>): string {
    if urgency == "critical" then "critical_response"
    else if "quality" in categories then "quality_concern"
    else if "service" in categories then "service_concern"
    else if "delivery" in categories then "delivery_concern"
    else if "support" in categories then "support_concern"
    else "general_concern"
  }

  /**
   * `_decide_email_action`: sets `should_send_email`, a template exactly when sending,
   * chosen by priority critical > quality > service > delivery > support > general,
   * and marks the analysis complete. The earlier fields are left as they were.
   */
  function DecideStage(s: State): (r: State)
    ensures r == s.(shouldSendEmail := r.shouldSendEmail, emailTemplate := r.emailTemplate, analysisComplete := true)
    ensures r.shouldSendEmail <==> s.sentiment == "negative" || s.urgencyLevel in {"medium", "high", "critical"}
    ensures r.emailTemplate.Some? <==> r.shouldSendEmail
    ensures r.emailTemplate == Some("critical_response") <==>
      r.shouldSendEmail && s.urgencyLevel == "critical"
    ensures r.emailTemplate == Some("quality_concern") <==>
      r.shouldSendEmail && s.urgencyLevel != "critical" && "quality" in s.categories
    ensures r.emailTemplate == Some("service_concern") <==>
      r.shouldSendEmail && s.urgencyLevel != "critical" && "quality" !in s.categories
      && "service" in s.categories
    ensures r.emailTemplate == Some("delivery_concern") <==>
      r.shouldSendEmail && s.urgencyLevel != "critical" && "quality" !in s.categories
      && "service" !in s.categories && "delivery" in s.categories
    ensures r.emailTemplate == Some("support_concern") <==>
      r.shouldSendEmail && s.urgencyLevel != "critical" && "quality" !in s.categories
      && "service" !in s.categories && "delivery" !in s.categories && "support" in s.categories
    ensures r.emailTemplate == Some("general_concern") <==>
      r.shouldSendEmail && s.urgencyLevel != "critical" && "quality" !in s.categories
      && "service" !in s.categories && "delivery" !in s.categories && "support" !in s.categories
  {
    var send := SendCondition(s.sentiment, s.urgencyLevel);
    s.(shouldSendEmail := send,
       emailTemplate := if send then Some(ChooseTemplate(s.urgencyLevel, s.categories)) else None,
       analysisComplete := true)
  }

  /** The compiled graph: the four stages once each, in the fixed order. */
  function RunGraph(s: State, o: Oracles): State {
    DecideStage(UrgencyStage(CategorizeStage(SentimentStage(s, o), o), o))
  }

  /** The nine fields of the final state that `analyze_review` returns. */
  function Project(s: State): Analysis {
    Analysis(s.sentiment, s.sentimentScore, s.urgencyLevel, s.categories, s.keyIssues,
             s.shouldSendEmail, s.emailTemplate, s.analysisComplete, s.error)
  }

  /** `analyze_review`: build the initial state, run the graph, project the result. */
  function Analyze(reviewText: string, customerName: string, rating: Option<int>, o: Oracles): Analysis {
    Project(RunGraph(InitialState(reviewText, customerName, rating), o))
  }

  // ---------------------------------------------------------------------
  // Properties of the pipeline.

  /** The messages the three inference stages record, in the order they run. */
  function StageFailures(s: State, o: Oracles): seq<Option<string>> {
    var s1 := SentimentStage(s, o);
    var s2 := CategorizeStage(s1, o);
    [FailureText(SentimentErrorPrefix, SentimentCall(s, o)),
     FailureText(CategorizationErrorPrefix, CategorizeCall(s1, o)),
     FailureText(UrgencyErrorPrefix, UrgencyCall(s2, o))]
  }

  /** The last message present in `msgs`, or `default` if there is none. */
  function LastPresent(msgs: seq<Option<string>>, default: string): string {
    if msgs == [] then default
    else if msgs[|msgs| - 1].Some? then msgs[|msgs| - 1].value
    else LastPresent(msgs[..|msgs| - 1], default)
  }

  /**
   * Last error wins: the final `error` is the message of the last stage that failed;
   * a stage that succeeds never clears it; with no failure it is what the state held.
   */
  lemma ErrorIsLastFailure(s: State, o: Oracles)
    ensures RunGraph(s, o).error == LastPresent(StageFailures(s, o), s.error)
  {
    var f := StageFailures(s, o);
    var s1 := SentimentStage(s, o);
    var s2 := CategorizeStage(s1, o);
    var s3 := UrgencyStage(s2, o);
    assert f[..1][..0] == [];
    assert s1.error == LastPresent(f[..1], s.error);
    assert f[..2][..1] == f[..1];
    assert s2.error == LastPresent(f[..2], s.error);
    assert f[..3] == f;
    assert s3.error == LastPresent(f, s.error);
  }

  /** For a fresh run the error is "" exactly when no inference stage failed. */
  lemma ErrorEmptyIffNoFailure(reviewText: string, customerName: string, rating: Option<int>, o: Oracles)
    ensures var s := InitialState(reviewText, customerName, rating);
      Analyze(reviewText, customerName, rating, o).error == ""
      <==> forall i :: 0 <= i < 3 ==> StageFailures(s, o)[i].None?
  {
    var s := InitialState(reviewText, customerName, rating);
    ErrorIsLastFailure(s, o);
    var f := StageFailures(s, o);
    assert f[..1][..0] == [] && f[..2][..1] == f[..1] && f[..3] == f;
    assert forall i :: 0 <= i < 3 && f[i].Some? ==> |f[i].value| > 0;
    assert LastPresent(f[..1], "") == "" <==> f[0].None?;
    assert LastPresent(f[..2], "") == "" <==> f[0].None? && f[1].None?;
  }

  /**
   * Every stage runs even after earlier failures: when all three inference calls fail,
   * the result is the fallback values, an email is due with "general_concern", and the
   * error is the urgency stage's message.
   */
  lemma AllInferenceFails(reviewText: string, customerName: string, rating: Option<int>, o: Oracles)
    requires forall n, r, t :: o.sentiment(n, r, t).Failure?
    requires forall t, s :: o.categorize(t, s).Failure?
    requires forall s, sc, c, k, t :: o.urgency(s, sc, c, k, t).Failure?
    ensures var a := Analyze(reviewText, customerName, rating, o);
      && a.sentiment == "neutral" && a.sentimentScore == 0.0
      && a.categories == ["other"] && a.keyIssues == [] && a.urgencyLevel == "medium"
      && a.shouldSendEmail && a.emailTemplate == Some("general_concern")
      && a.analysisComplete
      && a.error == UrgencyErrorPrefix + o.urgency("neutral", 0.0, ["other"], [], reviewText).error
  {
  }

  /**
   * A categorization failure does not halt the run: the urgency stage is asked about
   * the fallback categories, and its answer is what the result carries.
   */
  lemma CategorizationFailureFeedsUrgency(reviewText: string, customerName: string, rating: Option<int>, o: Oracles)
    requires CategorizeCall(SentimentStage(InitialState(reviewText, customerName, rating), o), o).Failure?
    ensures var s1 := SentimentStage(InitialState(reviewText, customerName, rating), o);
      var a := Analyze(reviewText, customerName, rating, o);
      var u := o.urgency(s1.sentiment, s1.sentimentScore, ["other"], [], reviewText);
      && a.categories == ["other"] && a.keyIssues == [] && a.error != "" && a.analysisComplete
      && a.sentiment == s1.sentiment
      && (u.Success? ==> a.urgencyLevel == u.value.urgencyLevel)
  {
  }

  /**
   * The result is drawn from the closed vocabularies whenever the model's replies are:
   * the fallbacks are themselves vocabulary values.
   */
  lemma ResultInVocabulary(reviewText: string, customerName: string, rating: Option<int>, o: Oracles)
    requires forall n, r, t :: o.sentiment(n, r, t).Success? ==> o.sentiment(n, r, t).value.sentiment in SentimentNames
    requires forall t, s :: o.categorize(t, s).Success? ==>
      forall i :: 0 <= i < |o.categorize(t, s).value.categories| ==> o.categorize(t, s).value.categories[i] in CategoryNames
    requires forall s, sc, c, k, t :: o.urgency(s, sc, c, k, t).Success? ==> o.urgency(s, sc, c, k, t).value.urgencyLevel in UrgencyNames
    ensures var a := Analyze(reviewText, customerName, rating, o);
      && a.sentiment in SentimentNames && a.urgencyLevel in UrgencyNames
      && (forall i :: 0 <= i < |a.categories| ==> a.categories[i] in CategoryNames)
      && a.analysisComplete && (a.emailTemplate.Some? <==> a.shouldSendEmail)
  {
  }

  /** The AND variant sends to a subset of the reviews the OR condition sends to, and a strict one. */
  lemma AndVariantIsStricter(sentiment: string, urgency: string)
    ensures SendConditionAnd(sentiment, urgency) ==> SendCondition(sentiment, urgency)
    ensures SendCondition("positive", "medium") && !SendConditionAnd("positive", "medium")
  {
  }

  // ---------------------------------------------------------------------
  // The state object and the graph that mutates it.

  /** `ReviewAnalysisState`, the dictionary each stage updates in place. */
  class AnalysisState {
    var reviewText: string
    var customerName: string
    var rating: int
    var sentiment: string
    var sentimentScore: real
    var urgencyLevel: string
    var categories: seq<string>
    var keyIssues: seq<string>
    var shouldSendEmail: bool
    var emailTemplate: Option<string>
    var analysisComplete: bool
    var error: string

    function Value(): State
      reads this
    {
      State(reviewText, customerName, rating, sentiment, sentimentScore, urgencyLevel,
            categories, keyIssues, shouldSendEmail, emailTemplate, analysisComplete, error)
    }

    /** The initial state built in `analyze_review`. */
    constructor (reviewText: string, customerName: string, rating: Option<int>)
      ensures Value() == InitialState(reviewText, customerName, rating)
    {
      this.reviewText := reviewText;
      this.customerName := customerName;
      this.rating := if rating.Some? then rating.value else 0;
      sentiment := "";
      sentimentScore := 0.0;
      urgencyLevel := "";
      categories := [];
      keyIssues := [];
      shouldSendEmail := false;
      emailTemplate := Some("");
      analysisComplete := false;
      error := "";
    }

    method AnalyzeSentiment(o: Oracles)
      modifies this
      ensures Value() == SentimentStage(old(Value()), o)
    {
      var reply := o.sentiment(customerName, rating, reviewText);
      match reply {
        case Success(a) =>
          sentiment := a.sentiment;
          sentimentScore := a.confidence;
        case Failure(m) =>
          error := SentimentErrorPrefix + m;
          sentiment := "neutral";
          sentimentScore := 0.0;
      }
    }

    method CategorizeIssues(o: Oracles)
      modifies this
      ensures Value() == CategorizeStage(old(Value()), o)
    {
      var reply := o.categorize(reviewText, sentiment);
      match reply {
        case Success(a) =>
          categories := a.categories;
          keyIssues := a.keyIssues;
        case Failure(m) =>
          error := CategorizationErrorPrefix + m;
          categories := ["other"];
          keyIssues := [];
      }
    }

    method DetermineUrgency(o: Oracles)
      modifies this
      ensures Value() == UrgencyStage(old(Value()), o)
    {
      var reply := o.urgency(sentiment, sentimentScore, categories, keyIssues, reviewText);
      match reply {
        case Success(a) =>
          urgencyLevel := a.urgencyLevel;
        case Failure(m) =>
          error := UrgencyErrorPrefix + m;
          urgencyLevel := "medium";
      }
    }

    method DecideEmailAction()
      modifies this
      ensures Value() == DecideStage(old(Value()))
    {
      var send := sentiment == "negative" || urgencyLevel in {"medium", "high", "critical"};
      shouldSendEmail := send;
      if send {
        if urgencyLevel == "critical" {
          emailTemplate := Some("critical_response");
        } else if "quality" in categories {
          emailTemplate := Some("quality_concern");
        } else if "service" in categories {
          emailTemplate := Some("service_concern");
        } else if "delivery" in categories {
          emailTemplate := Some("delivery_concern");
        } else if "support" in categories {
          emailTemplate := Some("support_concern");
        } else {
          emailTemplate := Some("general_concern");
        }
      } else {
        emailTemplate := None;
      }
      analysisComplete := true;
    }

    /** `graph.ainvoke`: the entry point and the three edges, then END. */
    method Invoke(o: Oracles)
      modifies this
      ensures Value() == RunGraph(old(Value()), o)
    {
      AnalyzeSentiment(o);
      CategorizeIssues(o);
      DetermineUrgency(o);
      DecideEmailAction();
    }
  }

  /** `analyze_review`: the result is the projection of the graph's final state. */
  method AnalyzeReview(reviewText: string, customerName: string, rating: Option<int>, o: Oracles)
    returns (result: Analysis)
    ensures result == Analyze(reviewText, customerName, rating, o)
    ensures result.analysisComplete && (result.emailTemplate.Some? <==> result.shouldSendEmail)
  {
    var state := new AnalysisState(reviewText, customerName, rating);
    state.Invoke(o);
    result := Analysis(state.sentiment, state.sentimentScore, state.urgencyLevel, state.categories,
                       state.keyIssues, state.shouldSendEmail, state.emailTemplate,
                       state.analysisComplete, state.error);
  }
}
