/** The request handling of the email endpoints: the admin "test rule"
    check, which evaluates a rule against sample data with every condition
    required; the validation and formatting of posted email content; and
    the file type recorded for an uploaded email file. */
module EmailViews {
  import opened Wrappers
  import opened Text
  import opened EmailRules

  // ---------------------------------------------------------------- test_rule

  /** The response of `test_rule`: a 400 with an error, or the outcome. */
  datatype TestResponse =
    | BadRequest(error: string)
    | TestOutcome(matches: bool, reasons: seq<string>, classification: Option<string>)

  /** The domain the test endpoint reads from a sender: the piece after the
      last '@' (the whole sender when there is none), lower-cased. */
  function TestDomain(sender: string): string {
    var parts := Split(sender, '@');
    Lower(parts[|parts| - 1])
  }

  /** `any(kw.lower() in text.lower() for kw in keywords)`. */
  predicate AnyKeywordIn(keywords: seq<string>, text: string) {
    MatchedKeywords(keywords, text) != []
  }

  function DomainFailure(rule: Rule, c: EmailContent): seq<string> {
    if rule.senderDomains != [] && TestDomain(c.sender) !in rule.senderDomains then ["Sender domain does not match"] else []
  }

  function SubjectFailure(rule: Rule, c: EmailContent): seq<string> {
    if rule.subjectKeywords != [] && !AnyKeywordIn(rule.subjectKeywords, c.subject) then ["Subject keywords not found"] else []
  }

  function BodyFailure(rule: Rule, c: EmailContent): seq<string> {
    if rule.bodyKeywords != [] && !AnyKeywordIn(rule.bodyKeywords, c.body) then ["Body keywords not found"] else []
  }

  function FewFailure(rule: Rule, c: EmailContent): seq<string> {
    if |c.attachments| < rule.minAttachments then ["Too few attachments"] else []
  }

  function ManyFailure(rule: Rule, c: EmailContent): seq<string> {
    if Truthy(rule.maxAttachments) && |c.attachments| > rule.maxAttachments.value then ["Too many attachments"] else []
  }

  function SmallFailure(rule: Rule, c: EmailContent): seq<string> {
    if TotalSize(c.attachments) < rule.minAttachmentSize then ["Attachment size too small"] else []
  }

  function LargeFailure(rule: Rule, c: EmailContent): seq<string> {
    if Truthy(rule.maxAttachmentSize) && TotalSize(c.attachments) > rule.maxAttachmentSize.value then ["Attachment size too large"] else []
  }

  /** Every check of `rule` that fails for `c`, in check order. */
  function Failures(rule: Rule, c: EmailContent): seq<string> {
    DomainFailure(rule, c) + SubjectFailure(rule, c) + BodyFailure(rule, c)
    + FewFailure(rule, c) + ManyFailure(rule, c)
    + SmallFailure(rule, c) + LargeFailure(rule, c)
  }

  /** The response of `test_rule` for the posted rule and email; None
      stands for a field that is absent or empty. */
  function TestRuleResponse(ruleData: Option<Rule>, emailData: Option<EmailContent>): TestResponse {
    if ruleData.None? || emailData.None? then BadRequest("Both rule and email data are required")
    else
      var failures := Failures(ruleData.value, emailData.value);
      if failures == [] then TestOutcome(true, ["All conditions met"], Some(ruleData.value.classification))
      else TestOutcome(false, failures, None)
  }

  /** The conditions of the test endpoint, each stated on its own: a rule
      matches when all of them hold. */
  predicate AllConditionsHold(rule: Rule, c: EmailContent) {
    && (rule.senderDomains == [] || TestDomain(c.sender) in rule.senderDomains)
    && (rule.subjectKeywords == [] || exists k :: k in rule.subjectKeywords && Contains(Lower(c.subject), Lower(k)))
    && (rule.bodyKeywords == [] || exists k :: k in rule.bodyKeywords && Contains(Lower(c.body), Lower(k)))
    && rule.minAttachments <= |c.attachments|
    && (!Truthy(rule.maxAttachments) || |c.attachments| <= rule.maxAttachments.value)
    && rule.minAttachmentSize <= TotalSize(c.attachments)
    && (!Truthy(rule.maxAttachmentSize) || TotalSize(c.attachments) <= rule.maxAttachmentSize.value)
  }

  /** `any(...)` holds exactly when some keyword occurs in the text. */
  lemma AnyKeywordInIff(keywords: seq<string>, text: string)
    ensures AnyKeywordIn(keywords, text) <==> exists k :: k in keywords && Contains(Lower(text), Lower(k))
  {
    MatchedKeywordsExact(keywords, text);
    if exists k :: k in keywords && Contains(Lower(text), Lower(k)) {
      var k :| k in keywords && Contains(Lower(text), Lower(k));
      assert k in MatchedKeywords(keywords, text);
    }
    if AnyKeywordIn(keywords, text) {
      assert MatchedKeywords(keywords, text)[0] in keywords;
    }
  }

  /** Conditions are AND'd: the rule matches exactly when every condition
      holds; a match reports "All conditions met" and the rule's
      classification, a miss the failed checks and no classification. */
  lemma TestMatchesIffAllConditions(rule: Rule, c: EmailContent)
    ensures var resp := TestRuleResponse(Some(rule), Some(c));
      && resp.TestOutcome?
      && (resp.matches <==> AllConditionsHold(rule, c))
      && (resp.matches ==> resp.reasons == ["All conditions met"] && resp.classification == Some(rule.classification))
      && (!resp.matches ==> resp.reasons != [] && resp.classification.None?)
  {
    AnyKeywordInIff(rule.subjectKeywords, c.subject);
    AnyKeywordInIff(rule.bodyKeywords, c.body);
  }

  /** A missing rule or missing email is refused with a 400. */
  lemma MissingDataRefused(ruleData: Option<Rule>, emailData: Option<EmailContent>)
    requires ruleData.None? || emailData.None?
    ensures TestRuleResponse(ruleData, emailData) == BadRequest("Both rule and email data are required")
  {
  }

  /** A rule that keeps every default matches every email whose attachment
      sizes are not negative, while the pipeline never fires it. */
  lemma DefaultRuleAlwaysMatches(name: string, classification: string, c: EmailContent)
    requires forall k :: 0 <= k < |c.attachments| ==> c.attachments[k].size.GetOr(0) >= 0
    ensures TestRuleResponse(Some(DefaultRule(name, classification)), Some(c))
         == TestOutcome(true, ["All conditions met"], Some(classification))
    ensures Reasons(DefaultRule(name, classification), c) == []
  {
    TotalSizeBounds(c.attachments);
  }

  /** With exactly one '@' in the sender both endpoints read the same
      domain. */
  lemma {:induction false} SingleAtDomainsAgree(sender: string)
    requires CountChar(sender, '@') == 1
    ensures PipelineDomain(sender) == Some(TestDomain(sender))
  {
    SplitLength(sender, '@');
  }

  /** The two readings of the sender differ once it holds two '@': the
      pipeline takes the piece after the first one and the test endpoint
      the piece after the last, so a rule for the last piece passes the
      test and never fires in the pipeline. */
  lemma DomainReadingsDiffer()
    ensures var rule := DefaultRule("r", "c").(senderDomains := ["c"]);
      var email := EmailContent("", "a@b@c", "", "", []);
      && PipelineDomain(email.sender) == Some("b")
      && TestDomain(email.sender) == "c"
      && Reasons(rule, email) == []
      && TestRuleResponse(Some(rule), Some(email)).matches
  {
    TwoAtsDomains();
    var rule := DefaultRule("r", "c").(senderDomains := ["c"]);
    var email := EmailContent("", "a@b@c", "", "", []);
    assert SenderReason(rule, email) == [];
    assert DomainFailure(rule, email) == [];
    assert Failures(rule, email) == [];
  }

  /** The pipeline reads `b` and the test endpoint `c` from `a@b@c`. */
  lemma TwoAtsDomains()
    ensures PipelineDomain("a@b@c") == Some("b") && TestDomain("a@b@c") == "c"
  {
    SplitTwoAts();
    LowerKeepsLowercase("b");
    LowerKeepsLowercase("c");
  }

  /** The pieces of the sample sender with two '@'. */
  lemma SplitTwoAts()
    ensures Split("a@b@c", '@') == ["a", "b", "c"]
  {
    assert "c"[1..] == "" && "@c"[1..] == "c" && "b@c"[1..] == "@c" && "@b@c"[1..] == "b@c" && "a@b@c"[1..] == "@b@c";
    assert Split("", '@') == [""];
    assert ['c'] + "" == "c";
    assert Split("c", '@') == ["c"];
    assert Split("@c", '@') == ["", "c"];
    assert ['b'] + "" == "b" && ["", "c"][1..] == ["c"];
    assert Split("b@c", '@') == ["b", "c"];
    assert Split("@b@c", '@') == ["", "b", "c"];
    assert ['a'] + "" == "a" && ["", "b", "c"][1..] == ["b", "c"];
  }

  /** For a rule that only lists sender domains and a sender with exactly
      one '@', the pipeline fires the rule exactly when the test endpoint
      reports a match, given sizes that are not negative. */
  lemma SenderOnlyRuleAgrees(name: string, classification: string, domains: seq<string>, c: EmailContent)
    requires domains != [] && CountChar(c.sender, '@') == 1
    requires forall k :: 0 <= k < |c.attachments| ==> c.attachments[k].size.GetOr(0) >= 0
    ensures var rule := DefaultRule(name, classification).(senderDomains := domains);
      Reasons(rule, c) != [] <==> TestRuleResponse(Some(rule), Some(c)).matches
  {
    SingleAtDomainsAgree(c.sender);
    TotalSizeBounds(c.attachments);
  }

  /** `test_rule`. The source clears its `matches` flag exactly when it
      appends a failure, so the flag is whether no failure was appended. */
  method TestRule(ruleData: Option<Rule>, emailData: Option<EmailContent>) returns (resp: TestResponse)
    ensures resp == TestRuleResponse(ruleData, emailData)
  {
    if ruleData.None? || emailData.None? {
      return BadRequest("Both rule and email data are required");
    }
    var rule := ruleData.value;
    var email := emailData.value;
    var textFailures := CheckText(rule, email);
    var attachmentFailures := CheckAttachments(rule, email);
    var reasons := textFailures + attachmentFailures;
    assert reasons == Failures(rule, email);
    var matches := reasons == [];
    resp := TestOutcome(matches, if !matches then reasons else ["All conditions met"],
                        if matches then Some(rule.classification) else None);
  }

  /** The sender, subject and body checks of `test_rule`, each appending
      its message when it fails. */
  method CheckText(rule: Rule, email: EmailContent) returns (reasons: seq<string>)
    ensures reasons == DomainFailure(rule, email) + SubjectFailure(rule, email) + BodyFailure(rule, email)
  {
    reasons := [];
    if rule.senderDomains != [] {
      var domain := TestDomain(email.sender);
      if domain !in rule.senderDomains {
        reasons := reasons + ["Sender domain does not match"];
      }
    }
    assert reasons == DomainFailure(rule, email);
    ghost var done := reasons;
    if rule.subjectKeywords != [] && !AnyKeywordIn(rule.subjectKeywords, email.subject) {
      reasons := reasons + ["Subject keywords not found"];
    }
    assert reasons == done + SubjectFailure(rule, email);
    done := reasons;
    if rule.bodyKeywords != [] && !AnyKeywordIn(rule.bodyKeywords, email.body) {
      reasons := reasons + ["Body keywords not found"];
    }
    assert reasons == done + BodyFailure(rule, email);
  }

  /** The attachment count and size checks of `test_rule`: the minimums
      always, the maximums only when set and non-zero. */
  method CheckAttachments(rule: Rule, email: EmailContent) returns (reasons: seq<string>)
    ensures reasons == FewFailure(rule, email) + ManyFailure(rule, email) + SmallFailure(rule, email) + LargeFailure(rule, email)
  {
    reasons := [];
    var count := |email.attachments|;
    if count < rule.minAttachments {
      reasons := reasons + ["Too few attachments"];
    }
    assert reasons == FewFailure(rule, email);
    ghost var done := reasons;
    if Truthy(rule.maxAttachments) && count > rule.maxAttachments.value {
      reasons := reasons + ["Too many attachments"];
    }
    assert reasons == done + ManyFailure(rule, email);
    done := reasons;
    var total := TotalSize(email.attachments);
    if total < rule.minAttachmentSize {
      reasons := reasons + ["Attachment size too small"];
    }
    assert reasons == done + SmallFailure(rule, email);
    done := reasons;
    if Truthy(rule.maxAttachmentSize) && total > rule.maxAttachmentSize.value {
      reasons := reasons + ["Attachment size too large"];
    }
    assert reasons == done + LargeFailure(rule, email);
  }

  // ---------------------------------------------------------------- posted email content

  /** The body of a content request: a bare string, or an object whose
      absent `subject`/`body` keys read as ''. */
  datatype Payload = RawText(text: string) | JsonObject(subject: string, body: string)

  /** The subject and body a payload stands for; a bare string is the body. */
  function PayloadParts(p: Payload): (string, string) {
    match p
    case RawText(t) => ("", t)
    case JsonObject(s, b) => (s, b)
  }

  /** The validation and formatting shared by `create` and `classify`: the
      400 message, or the text handed to the pipeline. */
  function ContentRequest(p: Payload): (r: Result<string, string>)
    ensures r.Err? <==> PayloadParts(p).0 == "" && PayloadParts(p).1 == ""
    ensures r.Err? ==> r.error == "Email content cannot be empty"
  {
    var (subject, body) := PayloadParts(p);
    if subject == "" && body == "" then Err("Email content cannot be empty")
    else Ok(FormatContent(subject, body))
  }

  /** A non-empty bare string is sent with an empty subject, and can be read
      back after the "Body: " label. */
  lemma RawTextIsBody(t: string)
    requires t != ""
    ensures ContentRequest(RawText(t)).Ok?
    ensures var f := ContentRequest(RawText(t)).value;
      f == "Subject: \n\nBody: " + t && f[17..] == t
  {
    SubjectEndsAtFirstNewline("", t);
  }

  /** Two accepted payloads whose subjects hold no line break give the same
      text only when they have the same subject and body. */
  lemma ContentRequestInjective(p: Payload, q: Payload)
    requires ContentRequest(p).Ok? && ContentRequest(q).Ok?
    requires '\n' !in PayloadParts(p).0 && '\n' !in PayloadParts(q).0
    requires ContentRequest(p) == ContentRequest(q)
    ensures PayloadParts(p) == PayloadParts(q)
  {
    FormatContentInjective(PayloadParts(p).0, PayloadParts(p).1, PayloadParts(q).0, PayloadParts(q).1);
  }

  // ---------------------------------------------------------------- uploaded file type

  /** `EmailFile.FILE_TYPE_CHOICES`. */
  const FileTypeChoices: set<string> := {"txt", "html", "eml", "oft", "msg", "other"}

  /** `splitext(name)[1].lower()[1:]`, or 'other' when that is not a
      choice. */
  function UploadFileType(name: string): (t: string)
    ensures t in FileTypeChoices
  {
    var ext := DropFirst(Lower(Extension(name)));
    if ext in FileTypeChoices then ext else "other"
  }

  /** The recorded type is the lower-cased extension without its dot when
      that is a choice, and 'other' otherwise. */
  lemma UploadFileTypeIsExtension(name: string, t: string)
    requires t in FileTypeChoices
    ensures UploadFileType(name) == t <==> Lower(Extension(name)) == "." + t || (t == "other" && DropFirst(Lower(Extension(name))) !in FileTypeChoices)
  {
    var ext := Extension(name);
    var low := Lower(ext);
    if low != "" {
      assert low[0] == LowerChar(ext[0]) == '.';
      assert low == "." + DropFirst(low);
    }
  }
}
