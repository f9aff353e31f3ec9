/**
 * The email service (backend/app/services/email_service.py): the fixed template table,
 * the template variables, the subject and body taken from the rendered text, and
 * `send_email`, which reports every failure as `false`. Template rendering (Jinja)
 * and SMTP delivery are collaborators passed in as functions.
 */
module EmailService {
  import opened Wrappers
  import Text
  import ReviewAgent

  /** The keys of the template table built by `get_email_templates`. */
  const TemplateNames: set<string> :=
    {"critical_response", "quality_concern", "service_concern",
     "delivery_concern", "support_concern", "general_concern"}

  /**
   * The application settings the service reads. The restaurant name, phone and email
   * are optional here: reading one that the settings object does not declare raises.
   */
  datatype Settings = Settings(
    smtpHost: string,
    smtpPort: int,
    smtpUser: string,
    smtpPassword: string,
    fromEmail: string,
    fromName: string,
    restaurantName: Option<string>,
    restaurantPhone: Option<string>,
    restaurantEmail: Option<string>)
  {
    predicate HasRestaurantSettings() {
      restaurantName.Some? && restaurantPhone.Some? && restaurantEmail.Some?
    }
  }

  /** `get_email_config`. */
  datatype EmailConfig = EmailConfig(
    smtpHost: string, smtpPort: int, smtpUser: string, smtpPassword: string,
    fromEmail: string, fromName: string)

  function GetEmailConfig(settings: Settings): EmailConfig {
    EmailConfig(settings.smtpHost, settings.smtpPort, settings.smtpUser, settings.smtpPassword,
                settings.fromEmail, settings.fromName)
  }

  /** A template variable: a text, or a list such as `key_issues`. */
  datatype TemplateValue = Str(text: string) | Items(items: seq<string>)

  const BuiltinVarNames: set<string> :=
    {"customer_name", "restaurant_name", "restaurant_phone", "restaurant_email", "from_name", "key_issues"}

  /**
   * The variables handed to the template: the built-in ones, then the caller's
   * keyword arguments, which win on a name clash. None when a restaurant setting is missing.
   */
  function TemplateVars(settings: Settings, customerName: string, keyIssues: seq<string>,
                        kwargs: map<string, TemplateValue>): (r: Option<map<string, TemplateValue>>)
    ensures r.Some? <==> settings.HasRestaurantSettings()
    ensures r.Some? ==> r.value.Keys == BuiltinVarNames + kwargs.Keys
    ensures r.Some? ==> forall k :: k in kwargs ==> r.value[k] == kwargs[k]
    ensures r.Some? ==> "customer_name" !in kwargs ==> r.value["customer_name"] == Str(customerName)
    ensures r.Some? ==> "key_issues" !in kwargs ==> r.value["key_issues"] == Items(keyIssues)
  {
    if !settings.HasRestaurantSettings() then None
    else
      var builtin := map[
        "customer_name" := Str(customerName),
        "restaurant_name" := Str(settings.restaurantName.value),
        "restaurant_phone" := Str(settings.restaurantPhone.value),
        "restaurant_email" := Str(settings.restaurantEmail.value),
        "from_name" := Str(settings.fromName),
        "key_issues" := Items(keyIssues)];
      Some(builtin + kwargs)
  }

  // ---------------------------------------------------------------------
  // Subject and body of the rendered text.

  const FallbackSubject := "Follow-up from {{ restaurant_name }}"
  const SubjectFallbackLine := "Subject: " + FallbackSubject

  /** Index of the first line from `k` on that satisfies `p`, or none. */
  function FirstFrom(lines: seq<string>, k: nat, p: string -> bool): (r: Option<nat>)
    requires k <= |lines|
    ensures r.Some? ==> k <= r.value < |lines| && p(lines[r.value])
    ensures r.Some? ==> forall j :: k <= j < r.value ==> !p(lines[j])
    ensures r.None? ==> forall j :: k <= j < |lines| ==> !p(lines[j])
    decreases |lines| - k
  {
    if k == |lines| then None
    else if p(lines[k]) then Some(k)
    else FirstFrom(lines, k + 1, p)
  }

  predicate IsSubjectLine(line: string) {
    Text.StartsWith(line, "Subject:")
  }

  /** Index of the first line that starts with "Subject:". */
  function FirstSubjectLine(lines: seq<string>): (r: Option<nat>)
    ensures r.Some? ==> r.value < |lines| && Text.StartsWith(lines[r.value], "Subject:")
    ensures r.Some? ==> forall j :: 0 <= j < r.value ==> !Text.StartsWith(lines[j], "Subject:")
    ensures r.None? ==> forall j :: 0 <= j < |lines| ==> !Text.StartsWith(lines[j], "Subject:")
  {
    FirstFrom(lines, 0, IsSubjectLine)
  }

  /** A line that is empty once stripped. */
  predicate IsBlank(line: string) {
    Text.Strip(line) == ""
  }

  /** Index of the first blank line. */
  function FirstBlankLine(lines: seq<string>): (r: Option<nat>)
    ensures r.Some? ==> r.value < |lines| && IsBlank(lines[r.value])
    ensures r.Some? ==> forall j :: 0 <= j < r.value ==> !IsBlank(lines[j])
    ensures r.None? ==> forall j :: 0 <= j < |lines| ==> !IsBlank(lines[j])
  {
    FirstFrom(lines, 0, IsBlank)
  }

  function RenderedLines(content: string): seq<string> {
    Text.Split(Text.Strip(content), '\n')
  }

  /** The subject: the first "Subject:" line (or the fixed fallback) without "Subject: ", stripped. */
  function ExtractSubject(content: string): string {
    var lines := RenderedLines(content);
    var line := match FirstSubjectLine(lines)
      case Some(i) => lines[i]
      case None => SubjectFallbackLine;
    Text.Strip(Text.ReplaceAll(line, "Subject: ", ""))
  }

  /** The body: the lines after the first blank line (after the first line if none), joined and stripped. */
  function ExtractBody(content: string): string {
    var lines := RenderedLines(content);
    var start := match FirstBlankLine(lines)
      case Some(i) => i + 1
      case None => 1;
    Text.Strip(Text.Join(lines[start..], "\n"))
  }

  /** The fallback line reduces to the unrendered fallback text. */
  lemma FallbackLineSubject()
    ensures Text.Strip(Text.ReplaceAll(SubjectFallbackLine, "Subject: ", "")) == FallbackSubject
  {
    assert 'S' !in FallbackSubject;
    assert |FallbackSubject| == 36 && FallbackSubject[0] == 'F' && FallbackSubject[35] == '}';
    Text.ReplacePrefixStripFree(FallbackSubject, "Subject: ");
  }

  /** Without a "Subject:" line the subject is the fallback text, its placeholder left unrendered. */
  lemma SubjectFallback(content: string)
    requires FirstSubjectLine(RenderedLines(content)).None?
    ensures ExtractSubject(content) == "Follow-up from {{ restaurant_name }}"
  {
    FallbackLineSubject();
  }

  /** The text a template renders to: a subject line, a blank line, then the body. */
  function Compose(subject: string, body: string): string {
    "Subject: " + subject + "\n\n" + body
  }

  predicate Stripped(s: string) {
    s == [] || (!Text.IsSpace(s[0]) && !Text.IsSpace(s[|s| - 1]))
  }

  /** The subject line of a composed text: no line break inside, nothing to strip. */
  lemma SubjectLineShape(subject: string)
    requires subject != [] && Stripped(subject) && '\n' !in subject
    ensures '\n' !in "Subject: " + subject
    ensures Stripped("Subject: " + subject) && !IsBlank("Subject: " + subject)
    ensures Text.StartsWith("Subject: " + subject, "Subject:")
  {
    var line0 := "Subject: " + subject;
    PrefixedLineShape("Subject: ", subject);
    assert line0[..8] == line0[..9][..8];
  }

  /** A one-line stripped text behind a one-line prefix that starts with a visible character. */
  lemma PrefixedLineShape(p: string, x: string)
    requires p != [] && !Text.IsSpace(p[0]) && '\n' !in p
    requires x != [] && Stripped(x) && '\n' !in x
    ensures '\n' !in p + x && Stripped(p + x) && !IsBlank(p + x) && (p + x)[..|p|] == p
  {
    var s := p + x;
    assert s[0] == p[0] && s[|s| - 1] == x[|x| - 1];
    Text.StripOfStripped(s);
  }

  lemma ComposeLinesNoBody(subject: string)
    requires subject != [] && Stripped(subject) && '\n' !in subject
    ensures RenderedLines(Compose(subject, [])) == ["Subject: " + subject]
  {
    var line0 := "Subject: " + subject;
    SubjectLineShape(subject);
    var content := Compose(subject, []);
    assert content == line0 + "\n\n";
    Text.StripEndTrailing(line0, "\n\n");
    assert Text.StripStart(content) == content;
    assert Text.Strip(content) == line0;
  }

  lemma ComposeLinesWithBody(subject: string, body: string)
    requires subject != [] && Stripped(subject) && '\n' !in subject
    requires body != [] && Stripped(body)
    ensures RenderedLines(Compose(subject, body)) == ["Subject: " + subject, ""] + Text.Split(body, '\n')
  {
    var line0 := "Subject: " + subject;
    SubjectLineShape(subject);
    var content := Compose(subject, body);
    assert content == line0 + ['\n', '\n'] + body;
    assert content[0] == 'S' && content[|content| - 1] == body[|body| - 1];
    Text.StripOfStripped(content);
    Text.SplitBlankLine(line0, '\n', body);
  }

  /** The first line of a composed text is its subject line, and the subject comes back. */
  lemma ExtractSubjectOfLines(content: string, subject: string)
    requires subject != [] && Stripped(subject) && '\n' !in subject
    requires !Text.Contains(subject, "Subject: ")
    requires RenderedLines(content) != [] && RenderedLines(content)[0] == "Subject: " + subject
    ensures ExtractSubject(content) == subject
  {
    SubjectLineShape(subject);
    assert FirstSubjectLine(RenderedLines(content)) == Some(0);
    Text.ReplacePrefixStrip(subject, "Subject: ");
  }

  /** Without a body, the composed text has a single line and an empty body. */
  lemma BodyOfComposeNoBody(subject: string)
    requires subject != [] && Stripped(subject) && '\n' !in subject
    ensures RenderedLines(Compose(subject, [])) == ["Subject: " + subject]
    ensures ExtractBody(Compose(subject, [])) == []
  {
    SubjectLineShape(subject);
    ComposeLinesNoBody(subject);
    var lines := RenderedLines(Compose(subject, []));
    assert FirstBlankLine(lines) == None;
    assert lines[1..] == [];
  }

  /** With a body, the lines after the blank line join back to the body. */
  lemma BodyOfComposeWithBody(subject: string, body: string)
    requires subject != [] && Stripped(subject) && '\n' !in subject
    requires body != [] && Stripped(body)
    ensures RenderedLines(Compose(subject, body)) != []
    ensures RenderedLines(Compose(subject, body))[0] == "Subject: " + subject
    ensures ExtractBody(Compose(subject, body)) == body
  {
    SubjectLineShape(subject);
    ComposeLinesWithBody(subject, body);
    var lines := RenderedLines(Compose(subject, body));
    assert IsBlank(lines[1]);
    assert FirstBlankLine(lines) == Some(1);
    assert lines[2..] == Text.Split(body, '\n');
    Text.JoinSplit(body, '\n');
    Text.StripOfStripped(body);
  }

  /**
   * Round trip: a subject on one line (stripped, not itself holding "Subject: ")
   * and a stripped body are recovered from the text they compose.
   */
  lemma ExtractComposeRoundTrip(subject: string, body: string)
    requires subject != [] && Stripped(subject) && '\n' !in subject
    requires !Text.Contains(subject, "Subject: ")
    requires Stripped(body)
    ensures ExtractSubject(Compose(subject, body)) == subject
    ensures ExtractBody(Compose(subject, body)) == body
  {
    var content := Compose(subject, body);
    if body == [] {
      BodyOfComposeNoBody(subject);
    } else {
      BodyOfComposeWithBody(subject, body);
    }
    ExtractSubjectOfLines(content, subject);
  }

  // ---------------------------------------------------------------------
  // send_email

  datatype Message = Message(fromHeader: string, toHeader: string, subject: string, body: string)

  /** The MIME message: From is "name <address>", To is the recipient as given. */
  function ComposeMessage(config: EmailConfig, toEmail: string, content: string): Message {
    Message(config.fromName + " <" + config.fromEmail + ">", toEmail,
            ExtractSubject(content), ExtractBody(content))
  }

  /**
   * `send_email`. It never raises: a missing restaurant setting, an unknown template
   * name, a rendering failure or a delivery failure all give `false`; `true` only
   * after the transport accepted the message.
   */
  function SendEmail(settings: Settings, toEmail: string, customerName: string, templateName: string,
                     keyIssues: seq<string>, kwargs: map<string, TemplateValue>,
                     render: (string, map<string, TemplateValue>) -> Reply<string>,
                     transport: (EmailConfig, Message) -> bool): (sent: bool)
    ensures sent ==> templateName in TemplateNames && settings.HasRestaurantSettings()
    ensures sent ==>
      var vars := TemplateVars(settings, customerName, keyIssues, kwargs).value;
      && render(templateName, vars).Success?
      && transport(GetEmailConfig(settings),
                   ComposeMessage(GetEmailConfig(settings), toEmail, render(templateName, vars).value))
  {
    var config := GetEmailConfig(settings);
    match TemplateVars(settings, customerName, keyIssues, kwargs)
    case None => false
    case Some(vars) =>
      if templateName !in TemplateNames then false
      else match render(templateName, vars)
        case Failure(_) => false
        case Success(content) => transport(config, ComposeMessage(config, toEmail, content))
  }

  /**
   * With every setting present, a known template and a successful rendering, the
   * result is exactly what the transport reports for the composed message.
   */
  lemma SendEmailReportsTransport(settings: Settings, toEmail: string, customerName: string, templateName: string,
                                  keyIssues: seq<string>, kwargs: map<string, TemplateValue>,
                                  render: (string, map<string, TemplateValue>) -> Reply<string>,
                                  transport: (EmailConfig, Message) -> bool)
    requires settings.HasRestaurantSettings() && templateName in TemplateNames
    requires render(templateName, TemplateVars(settings, customerName, keyIssues, kwargs).value).Success?
    ensures var content := render(templateName, TemplateVars(settings, customerName, keyIssues, kwargs).value).value;
      SendEmail(settings, toEmail, customerName, templateName, keyIssues, kwargs, render, transport)
      == transport(GetEmailConfig(settings), ComposeMessage(GetEmailConfig(settings), toEmail, content))
  {
  }

  /** Settings that declare no restaurant name (as the shipped settings class does) never send. */
  lemma NoRestaurantSettingsNeverSend(settings: Settings, toEmail: string, customerName: string, templateName: string,
                                      keyIssues: seq<string>, kwargs: map<string, TemplateValue>,
                                      render: (string, map<string, TemplateValue>) -> Reply<string>,
                                      transport: (EmailConfig, Message) -> bool)
    requires settings.restaurantName.None?
    ensures !SendEmail(settings, toEmail, customerName, templateName, keyIssues, kwargs, render, transport)
  {
  }

  /**
   * The tags the pipeline's decision stage can choose are exactly the template names:
   * every chosen tag has a template, and every template is chosen for some state.
   */
  lemma DecisionTagsAreTemplateNames()
    ensures forall s: ReviewAgent.State :: ReviewAgent.DecideStage(s).emailTemplate.Some? ==>
      ReviewAgent.DecideStage(s).emailTemplate.value in TemplateNames
    ensures forall name :: name in TemplateNames ==>
      exists s: ReviewAgent.State :: ReviewAgent.DecideStage(s).emailTemplate == Some(name)
  {
    var base := ReviewAgent.State("", "", 0, "negative", 0.0, "low", [], [], false, None, false, "");
    assert ReviewAgent.DecideStage(base.(urgencyLevel := "critical")).emailTemplate == Some("critical_response");
    assert ReviewAgent.DecideStage(base.(categories := ["quality"])).emailTemplate == Some("quality_concern");
    assert ReviewAgent.DecideStage(base.(categories := ["service"])).emailTemplate == Some("service_concern");
    assert ReviewAgent.DecideStage(base.(categories := ["delivery"])).emailTemplate == Some("delivery_concern");
    assert ReviewAgent.DecideStage(base.(categories := ["support"])).emailTemplate == Some("support_concern");
    assert ReviewAgent.DecideStage(base).emailTemplate == Some("general_concern");
  }
}
