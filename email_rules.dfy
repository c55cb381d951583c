/** The email records the cascade works on and the rule engine that is
    its first stage: active rules, highest priority first, the first rule
    with any matched condition wins. */
module EmailRules {
  import opened Wrappers
  import opened Text

  // ---------------------------------------------------------------- email records

  /** An attachment entry; `size` is absent when the entry has no `size`
      key. */
  datatype Attachment = Attachment(size: Option<int>)

  /** The extracted email content. Absent keys read as '' and [], which is
      how every consumer reads them. */
  datatype EmailContent = EmailContent(subject: string, sender: string, recipient: string, body: string, attachments: seq<Attachment>)

  /** `sum(a.get('size', 0) for a in attachments)`. */
  function TotalSize(atts: seq<Attachment>): int {
    if atts == [] then 0 else atts[0].size.GetOr(0) + TotalSize(atts[1..])
  }

  /** Sizes that are not negative add up to a total that is not negative,
      and attachments without sizes add up to 0. */
  lemma {:induction false} TotalSizeBounds(atts: seq<Attachment>)
    ensures (forall k :: 0 <= k < |atts| ==> atts[k].size.GetOr(0) >= 0) ==> TotalSize(atts) >= 0
    ensures (forall k :: 0 <= k < |atts| ==> atts[k].size.GetOr(0) == 0) ==> TotalSize(atts) == 0
  {
    if atts != [] {
      TotalSizeBounds(atts[1..]);
      assert forall k :: 1 <= k < |atts| ==> atts[1..][k - 1] == atts[k];
    }
  }

  /** The text the model stages classify: "Subject: {s}\n\nBody: {b}". */
  function FormatContent(subject: string, body: string): string {
    "Subject: " + subject + "\n\nBody: " + body
  }

  /** The first line break of the formatted text follows the subject. */
  lemma SubjectEndsAtFirstNewline(s: string, b: string)
    requires '\n' !in s
    ensures var f := FormatContent(s, b);
      && |f| == 9 + |s| + 8 + |b|
      && f[9 + |s|] == '\n'
      && (forall i :: 0 <= i < 9 + |s| ==> f[i] != '\n')
      && f[9..9 + |s|] == s
      && f[9 + |s| + 8..] == b
  {
    var head := "Subject: " + s;
    var f := FormatContent(s, b);
    assert f == head + ("\n\nBody: " + b);
    assert forall i :: 0 <= i < 9 + |s| ==> f[i] == head[i];
    assert forall i :: 9 <= i < 9 + |s| ==> head[i] == s[i - 9];
  }

  /** A subject without a line break can be read back from the formatted
      text, and the body with it. */
  lemma FormatContentInjective(s1: string, b1: string, s2: string, b2: string)
    requires '\n' !in s1 && '\n' !in s2
    requires FormatContent(s1, b1) == FormatContent(s2, b2)
    ensures s1 == s2 && b1 == b2
  {
    SubjectEndsAtFirstNewline(s1, b1);
    SubjectEndsAtFirstNewline(s2, b2);
  }

  // ---------------------------------------------------------------- rules

  /** `EmailClassificationRule`; a null `max_*` bound is None. */
  datatype Rule = Rule(
    name: string,
    senderDomains: seq<string>,
    subjectKeywords: seq<string>,
    bodyKeywords: seq<string>,
    minAttachments: int,
    maxAttachments: Option<int>,
    minAttachmentSize: int,
    maxAttachmentSize: Option<int>,
    classification: string,
    priority: int,
    isActive: bool
  )

  /** A rule whose conditions all keep the model's defaults. */
  function DefaultRule(name: string, classification: string): Rule {
    Rule(name, [], [], [], 0, None, 0, None, classification, 0, true)
  }

  /** A nullable integer bound in a boolean context: set and non-zero. */
  predicate Truthy(bound: Option<int>) {
    bound.Some? && bound.value != 0
  }

  /** The keywords, in rule order, that occur in the text, both sides
      lower-cased. */
  function MatchedKeywords(keywords: seq<string>, text: string): (r: seq<string>)
    ensures |r| <= |keywords|
  {
    if keywords == [] then []
    else if Contains(Lower(text), Lower(keywords[0])) then [keywords[0]] + MatchedKeywords(keywords[1..], text)
    else MatchedKeywords(keywords[1..], text)
  }

  /** The reason lists exactly the keywords that hit: every listed keyword
      occurs in the text and every keyword that occurs is listed. */
  lemma {:induction false} MatchedKeywordsExact(keywords: seq<string>, text: string)
    ensures forall k :: k in MatchedKeywords(keywords, text) ==> k in keywords && Contains(Lower(text), Lower(k))
    ensures forall k :: k in keywords && Contains(Lower(text), Lower(k)) ==> k in MatchedKeywords(keywords, text)
  {
    if keywords != [] {
      MatchedKeywordsExact(keywords[1..], text);
      assert keywords == [keywords[0]] + keywords[1..];
    }
  }

  /** A reason the pipeline records for a rule, in check order. */
  datatype Reason =
    | SenderDomainMatched(domain: string)
    | SubjectKeywordsMatched(keywords: seq<string>)
    | BodyKeywordsMatched(keywords: seq<string>)
    | AttachmentsAtLeast(count: int, min: int)
    | AttachmentsAtMost(count: int, max: int)
    | SizeAtLeast(total: int, min: int)
    | SizeAtMost(total: int, max: int)

  function ReasonText(r: Reason): string {
    match r
    case SenderDomainMatched(d) => "Sender domain " + d + " matched"
    case SubjectKeywordsMatched(ks) => "Subject contains keywords: " + ListRepr(ks)
    case BodyKeywordsMatched(ks) => "Body contains keywords: " + ListRepr(ks)
    case AttachmentsAtLeast(n, m) => "Attachment count (" + IntToString(n) + ") >= " + IntToString(m)
    case AttachmentsAtMost(n, m) => "Attachment count (" + IntToString(n) + ") <= " + IntToString(m)
    case SizeAtLeast(t, m) => "Total attachment size (" + IntToString(t) + ") >= " + IntToString(m)
    case SizeAtMost(t, m) => "Total attachment size (" + IntToString(t) + ") <= " + IntToString(m)
  }

  function ReasonTexts(rs: seq<Reason>): (ts: seq<string>)
    ensures |ts| == |rs|
    ensures forall k :: 0 <= k < |rs| ==> ts[k] == ReasonText(rs[k])
  {
    seq(|rs|, k requires 0 <= k < |rs| => ReasonText(rs[k]))
  }

  /** The domain the pipeline reads from a sender: the piece after the
      first '@', lower-cased; none without an '@'. */
  function PipelineDomain(sender: string): Option<string> {
    if '@' in sender then Some(Lower(Split(sender, '@')[1])) else None
  }

  /** Every condition of `rule` that holds for `c`, in check order. */
  function Reasons(rule: Rule, c: EmailContent): seq<Reason> {
    SenderReason(rule, c) + SubjectReason(rule, c) + BodyReason(rule, c)
    + MinCountReason(rule, c) + MaxCountReason(rule, c)
    + MinSizeReason(rule, c) + MaxSizeReason(rule, c)
  }

  function SenderReason(rule: Rule, c: EmailContent): seq<Reason> {
    var domain := PipelineDomain(c.sender);
    if rule.senderDomains != [] && domain.Some? && domain.value in rule.senderDomains then [SenderDomainMatched(domain.value)] else []
  }

  function SubjectReason(rule: Rule, c: EmailContent): seq<Reason> {
    var hits := MatchedKeywords(rule.subjectKeywords, c.subject);
    if rule.subjectKeywords != [] && hits != [] then [SubjectKeywordsMatched(hits)] else []
  }

  function BodyReason(rule: Rule, c: EmailContent): seq<Reason> {
    var hits := MatchedKeywords(rule.bodyKeywords, c.body);
    if rule.bodyKeywords != [] && hits != [] then [BodyKeywordsMatched(hits)] else []
  }

  function MinCountReason(rule: Rule, c: EmailContent): seq<Reason> {
    var count := |c.attachments|;
    if rule.minAttachments > 0 && count >= rule.minAttachments then [AttachmentsAtLeast(count, rule.minAttachments)] else []
  }

  function MaxCountReason(rule: Rule, c: EmailContent): seq<Reason> {
    var count := |c.attachments|;
    if Truthy(rule.maxAttachments) && count <= rule.maxAttachments.value then [AttachmentsAtMost(count, rule.maxAttachments.value)] else []
  }

  function MinSizeReason(rule: Rule, c: EmailContent): seq<Reason> {
    var total := TotalSize(c.attachments);
    if rule.minAttachmentSize > 0 && total >= rule.minAttachmentSize then [SizeAtLeast(total, rule.minAttachmentSize)] else []
  }

  function MaxSizeReason(rule: Rule, c: EmailContent): seq<Reason> {
    var total := TotalSize(c.attachments);
    if Truthy(rule.maxAttachmentSize) && total <= rule.maxAttachmentSize.value then [SizeAtMost(total, rule.maxAttachmentSize.value)] else []
  }

  /** The conditions of the pipeline, each stated on its own: a rule
      matches when any one of them holds. */
  predicate AnyConditionHolds(rule: Rule, c: EmailContent) {
    || (exists d :: d in rule.senderDomains && PipelineDomain(c.sender) == Some(d))
    || (exists k :: k in rule.subjectKeywords && Contains(Lower(c.subject), Lower(k)))
    || (exists k :: k in rule.bodyKeywords && Contains(Lower(c.body), Lower(k)))
    || (0 < rule.minAttachments <= |c.attachments|)
    || (Truthy(rule.maxAttachments) && |c.attachments| <= rule.maxAttachments.value)
    || (0 < rule.minAttachmentSize <= TotalSize(c.attachments))
    || (Truthy(rule.maxAttachmentSize) && TotalSize(c.attachments) <= rule.maxAttachmentSize.value)
  }

  /** Conditions are OR'd: a rule records a reason exactly when one of its
      conditions holds. */
  lemma ReasonsIffAnyCondition(rule: Rule, c: EmailContent)
    ensures Reasons(rule, c) != [] <==> AnyConditionHolds(rule, c)
  {
    var subjectHits := MatchedKeywords(rule.subjectKeywords, c.subject);
    var bodyHits := MatchedKeywords(rule.bodyKeywords, c.body);
    MatchedKeywordsExact(rule.subjectKeywords, c.subject);
    MatchedKeywordsExact(rule.bodyKeywords, c.body);
    if exists k :: k in rule.subjectKeywords && Contains(Lower(c.subject), Lower(k)) {
      var k :| k in rule.subjectKeywords && Contains(Lower(c.subject), Lower(k));
      assert k in subjectHits;
    }
    if subjectHits != [] {
      assert subjectHits[0] in rule.subjectKeywords;
    }
    if exists k :: k in rule.bodyKeywords && Contains(Lower(c.body), Lower(k)) {
      var k :| k in rule.bodyKeywords && Contains(Lower(c.body), Lower(k));
      assert k in bodyHits;
    }
    if bodyHits != [] {
      assert bodyHits[0] in rule.bodyKeywords;
    }
  }

  /** A rule that keeps every default never matches in the pipeline. */
  lemma DefaultRuleNeverMatches(name: string, classification: string, c: EmailContent)
    ensures Reasons(DefaultRule(name, classification), c) == []
  {
  }

  /** The explanation of a rule match: its reasons joined by ", ". */
  function Explanation(reasons: seq<Reason>): string {
    Join(ReasonTexts(reasons), ", ")
  }

  /** The subject reason lists exactly the keywords that occur in the
      subject, and the explanation carries that list. */
  lemma ExplanationListsSubjectKeywords(rule: Rule, c: EmailContent)
    requires exists k :: k in rule.subjectKeywords && Contains(Lower(c.subject), Lower(k))
    ensures var hits := MatchedKeywords(rule.subjectKeywords, c.subject);
      && SubjectKeywordsMatched(hits) in Reasons(rule, c)
      && Contains(Explanation(Reasons(rule, c)), "Subject contains keywords: " + ListRepr(hits))
  {
    var hits := MatchedKeywords(rule.subjectKeywords, c.subject);
    MatchedKeywordsExact(rule.subjectKeywords, c.subject);
    var k :| k in rule.subjectKeywords && Contains(Lower(c.subject), Lower(k));
    assert k in hits;
    SubjectReasonFollowsSender(rule, c);
    ExplanationHasReason(Reasons(rule, c), |SenderReason(rule, c)|);
  }

  /** A subject reason comes right after the sender reason, if any. */
  lemma SubjectReasonFollowsSender(rule: Rule, c: EmailContent)
    requires SubjectReason(rule, c) != []
    ensures |SenderReason(rule, c)| < |Reasons(rule, c)|
    ensures Reasons(rule, c)[|SenderReason(rule, c)|] == SubjectReason(rule, c)[0]
  {
    var sender := SenderReason(rule, c);
    assert (sender + SubjectReason(rule, c))[|sender|] == SubjectReason(rule, c)[0];
  }

  /** The explanation carries the text of every reason. */
  lemma ExplanationHasReason(rs: seq<Reason>, i: nat)
    requires i < |rs|
    ensures Contains(Explanation(rs), ReasonText(rs[i]))
  {
    JoinContainsPart(ReasonTexts(rs), ", ", i);
  }

  // ---------------------------------------------------------------- the active rule query

  predicate SortedByPriority(rs: seq<Rule>) {
    forall i, j :: 0 <= i < j < |rs| ==> rs[i].priority >= rs[j].priority
  }

  /** Places `r` before the first rule of priority not above its own. */
  function Insert(r: Rule, rs: seq<Rule>): (out: seq<Rule>)
    requires SortedByPriority(rs)
    ensures |out| == |rs| + 1
    ensures out[0] == r || (rs != [] && out[0] == rs[0])
    ensures SortedByPriority(out)
    ensures forall x :: x in out <==> x == r || x in rs
  {
    if rs == [] || r.priority >= rs[0].priority then [r] + rs
    else
      var tail := Insert(r, rs[1..]);
      assert rs == [rs[0]] + rs[1..];
      assert rs[0].priority >= tail[0].priority;
      [rs[0]] + tail
  }

  /** `filter(is_active=True).order_by('-priority')`: the active rules,
      highest priority first; rules of equal priority keep their stored
      order. */
  function Query(rules: seq<Rule>): (r: seq<Rule>)
    ensures SortedByPriority(r)
    ensures forall x :: x in r <==> x in rules && x.isActive
  {
    if rules == [] then []
    else
      assert rules == [rules[0]] + rules[1..];
      if rules[0].isActive then Insert(rules[0], Query(rules[1..]))
      else Query(rules[1..])
  }

  /** The active rules in stored order. */
  function Active(rules: seq<Rule>): seq<Rule> {
    if rules == [] then []
    else if rules[0].isActive then [rules[0]] + Active(rules[1..])
    else Active(rules[1..])
  }

  lemma {:induction false} InsertPermutes(r: Rule, rs: seq<Rule>)
    requires SortedByPriority(rs)
    ensures multiset(Insert(r, rs)) == multiset(rs) + multiset{r}
  {
    if !(rs == [] || r.priority >= rs[0].priority) {
      InsertPermutes(r, rs[1..]);
      assert rs == [rs[0]] + rs[1..];
    }
  }

  /** The query reorders the active rules and drops nothing else: each
      active rule appears as often as it is stored. */
  lemma {:induction false} QueryPermutes(rules: seq<Rule>)
    ensures multiset(Query(rules)) == multiset(Active(rules))
  {
    if rules != [] {
      QueryPermutes(rules[1..]);
      if rules[0].isActive {
        InsertPermutes(rules[0], Query(rules[1..]));
      }
    }
  }

  // ---------------------------------------------------------------- first match

  datatype RuleMatch = RuleMatch(classification: string, confidence: real, methodName: string, ruleName: string, explanation: string)

  /** The result of a rule that matched for the given reasons. */
  function MatchOf(rule: Rule, reasons: seq<Reason>): RuleMatch {
    RuleMatch(rule.classification, 1.0, "Decision Tree", rule.name, Explanation(reasons))
  }

  /** The reasons of each rule, in the order the rules are walked. */
  function ReasonTable(rs: seq<Rule>, c: EmailContent): (table: seq<seq<Reason>>)
    ensures |table| == |rs|
  {
    if rs == [] then [] else [Reasons(rs[0], c)] + ReasonTable(rs[1..], c)
  }

  lemma {:induction false} ReasonTableAt(rs: seq<Rule>, c: EmailContent, j: nat)
    requires j < |rs|
    ensures ReasonTable(rs, c)[j] == Reasons(rs[j], c)
  {
    if j > 0 {
      ReasonTableAt(rs[1..], c, j - 1);
    }
  }

  /** The index of the first non-empty entry. */
  function FirstNonEmpty(table: seq<seq<Reason>>): (r: Option<nat>)
    ensures r.Some? ==> r.value < |table| && table[r.value] != []
    ensures r.Some? ==> forall j :: 0 <= j < r.value ==> table[j] == []
    ensures r.None? ==> forall j :: 0 <= j < |table| ==> table[j] == []
  {
    if table == [] then None
    else if table[0] != [] then Some(0)
    else
      match FirstNonEmpty(table[1..])
      case None => None
      case Some(i) => Some(i + 1)
  }

  /** A table of empty entries has no first non-empty one. */
  lemma {:induction false} NoneNonEmpty(table: seq<seq<Reason>>)
    requires forall j :: 0 <= j < |table| ==> table[j] == []
    ensures FirstNonEmpty(table) == None
  {
    if table != [] {
      NoneNonEmpty(table[1..]);
    }
  }

  /** The first non-empty index is the one `FirstNonEmpty` finds. */
  lemma {:induction false} FirstNonEmptyIs(table: seq<seq<Reason>>, i: nat)
    requires i < |table| && table[i] != []
    requires forall j :: 0 <= j < i ==> table[j] == []
    ensures FirstNonEmpty(table) == Some(i)
  {
    if i > 0 {
      assert table[0] == [];
      FirstNonEmptyIs(table[1..], i - 1);
    }
  }

  /** The first rule, in the given order, with a reason. */
  function FirstFiring(active: seq<Rule>, c: EmailContent): Option<Rule> {
    match FirstNonEmpty(ReasonTable(active, c))
    case None => None
    case Some(i) => Some(active[i])
  }

  /** The result of the first rule, in the given order, with a reason. */
  function FirstMatch(active: seq<Rule>, c: EmailContent): Option<RuleMatch> {
    var table := ReasonTable(active, c);
    match FirstNonEmpty(table)
    case None => None
    case Some(i) => Some(MatchOf(active[i], table[i]))
  }

  /** None of the first `i` rules has a reason. */
  predicate NoReasonBefore(active: seq<Rule>, c: EmailContent, i: nat) {
    forall j :: 0 <= j < i && j < |active| ==> Reasons(active[j], c) == []
  }

  /** The first rule with a reason decides the match. */
  lemma FirstMatchAt(active: seq<Rule>, c: EmailContent, i: nat)
    requires i < |active| && NoReasonBefore(active, c, i) && Reasons(active[i], c) != []
    ensures FirstMatch(active, c) == Some(MatchOf(active[i], Reasons(active[i], c)))
  {
    var table := ReasonTable(active, c);
    forall j | 0 <= j < i
      ensures table[j] == []
    {
      ReasonTableAt(active, c, j);
    }
    ReasonTableAt(active, c, i);
    FirstNonEmptyIs(table, i);
  }

  /** Without a rule with a reason there is no match. */
  lemma FirstMatchNone(active: seq<Rule>, c: EmailContent)
    requires NoReasonBefore(active, c, |active|)
    ensures FirstMatch(active, c) == None
  {
    var table := ReasonTable(active, c);
    forall j | 0 <= j < |table|
      ensures table[j] == []
    {
      ReasonTableAt(active, c, j);
    }
    NoneNonEmpty(table);
  }

  /** The rule `_apply_rules` settles on for the stored rules. */
  function Winner(rules: seq<Rule>, c: EmailContent): Option<Rule> {
    FirstFiring(Query(rules), c)
  }

  /** What `_apply_rules` returns for the stored rules and the file's
      content; a file without content raises inside the `try` and gives
      None. */
  function MatchRules(rules: seq<Rule>, content: Option<EmailContent>): Option<RuleMatch> {
    match content
    case None => None
    case Some(c) => FirstMatch(Query(rules), c)
  }

  /** The winner is an active stored rule with at least one reason, and
      the match carries its classification, its name and its reasons. */
  lemma WinnerFires(rules: seq<Rule>, c: EmailContent)
    requires Winner(rules, c).Some?
    ensures var w := Winner(rules, c).value;
      && w in rules && w.isActive && Reasons(w, c) != []
      && MatchRules(rules, Some(c)) == Some(RuleMatch(w.classification, 1.0, "Decision Tree", w.name, Explanation(Reasons(w, c))))
  {
    var active := Query(rules);
    var i := FirstNonEmpty(ReasonTable(active, c)).value;
    ReasonTableAt(active, c, i);
    assert active[i] in active;
  }

  /** No active rule of strictly higher priority than the winner has a
      reason. */
  lemma WinnerHasTopPriority(rules: seq<Rule>, c: EmailContent, r: Rule)
    requires Winner(rules, c).Some?
    requires r in rules && r.isActive && r.priority > Winner(rules, c).value.priority
    ensures Reasons(r, c) == []
  {
    var active := Query(rules);
    var i := FirstNonEmpty(ReasonTable(active, c)).value;
    var j :| 0 <= j < |active| && active[j] == r;
    SortedPriorityOrder(active, j, i);
    ReasonTableAt(active, c, j);
  }

  /** In a sorted list a rule of strictly higher priority comes first. */
  lemma SortedPriorityOrder(rs: seq<Rule>, a: nat, b: nat)
    requires SortedByPriority(rs) && a < |rs| && b < |rs|
    requires rs[a].priority > rs[b].priority
    ensures a < b
  {
  }

  /** Without a winner no active rule has a reason: conditions are only
      ever missed when none of them holds. */
  lemma NoWinnerNoReasons(rules: seq<Rule>, c: EmailContent, r: Rule)
    requires Winner(rules, c).None?
    requires r in rules && r.isActive
    ensures Reasons(r, c) == []
    ensures MatchRules(rules, Some(c)).None?
  {
    var active := Query(rules);
    var j :| 0 <= j < |active| && active[j] == r;
    ReasonTableAt(active, c, j);
  }

  /** Rules after the winner are not examined: appending rules behind a
      matching one does not change the winner. */
  lemma FirstMatchIgnoresLaterRules(rs: seq<Rule>, more: seq<Rule>, c: EmailContent)
    requires FirstNonEmpty(ReasonTable(rs, c)).Some?
    ensures FirstNonEmpty(ReasonTable(rs + more, c)) == FirstNonEmpty(ReasonTable(rs, c))
  {
    var i := FirstNonEmpty(ReasonTable(rs, c)).value;
    var table := ReasonTable(rs + more, c);
    forall j | 0 <= j <= i
      ensures table[j] == ReasonTable(rs, c)[j]
    {
      ReasonTableAt(rs + more, c, j);
      ReasonTableAt(rs, c, j);
    }
    FirstNonEmptyIs(table, i);
  }

  /** The body of the rule loop in `_apply_rules`: each condition that
      holds appends its reason. */
  method CollectReasons(rule: Rule, c: EmailContent) returns (reasons: seq<Reason>)
    ensures reasons == Reasons(rule, c)
  {
    reasons := [];
    if rule.senderDomains != [] {
      if '@' in c.sender {
        var domain := Lower(Split(c.sender, '@')[1]);
        if domain in rule.senderDomains {
          reasons := reasons + [SenderDomainMatched(domain)];
        }
      }
    }
    assert reasons == SenderReason(rule, c);
    ghost var done := reasons;
    if rule.subjectKeywords != [] {
      var hits := MatchedKeywords(rule.subjectKeywords, c.subject);
      if hits != [] {
        reasons := reasons + [SubjectKeywordsMatched(hits)];
      }
    }
    assert reasons == done + SubjectReason(rule, c);
    done := reasons;
    if rule.bodyKeywords != [] {
      var hits := MatchedKeywords(rule.bodyKeywords, c.body);
      if hits != [] {
        reasons := reasons + [BodyKeywordsMatched(hits)];
      }
    }
    assert reasons == done + BodyReason(rule, c);
    done := reasons;
    var count := |c.attachments|;
    if rule.minAttachments > 0 && count >= rule.minAttachments {
      reasons := reasons + [AttachmentsAtLeast(count, rule.minAttachments)];
    }
    assert reasons == done + MinCountReason(rule, c);
    done := reasons;
    if Truthy(rule.maxAttachments) && count <= rule.maxAttachments.value {
      reasons := reasons + [AttachmentsAtMost(count, rule.maxAttachments.value)];
    }
    assert reasons == done + MaxCountReason(rule, c);
    done := reasons;
    var total := TotalSize(c.attachments);
    if rule.minAttachmentSize > 0 && total >= rule.minAttachmentSize {
      reasons := reasons + [SizeAtLeast(total, rule.minAttachmentSize)];
    }
    assert reasons == done + MinSizeReason(rule, c);
    done := reasons;
    if Truthy(rule.maxAttachmentSize) && total <= rule.maxAttachmentSize.value {
      reasons := reasons + [SizeAtMost(total, rule.maxAttachmentSize.value)];
    }
    assert reasons == done + MaxSizeReason(rule, c);
  }

  /** `_apply_rules`: the active rules in query order are walked, each
      rule's reasons are collected check by check, and the first rule with
      any reason is returned. */
  method ApplyRules(rules: seq<Rule>, content: Option<EmailContent>) returns (r: Option<RuleMatch>)
    ensures r == MatchRules(rules, content)
  {
    if content.None? {
      return None;
    }
    r := FindFirstMatch(Query(rules), content.value);
  }

  /** The loop of `_apply_rules` over the queried rules. */
  method FindFirstMatch(active: seq<Rule>, c: EmailContent) returns (r: Option<RuleMatch>)
    ensures r == FirstMatch(active, c)
  {
    var i := 0;
    while i < |active|
      invariant 0 <= i <= |active|
      invariant NoReasonBefore(active, c, i)
    {
      var rule := active[i];
      var reasons := CollectReasons(rule, c);
      if reasons != [] {
        FirstMatchAt(active, c, i);
        return Some(MatchOf(rule, reasons));
      }
      i := i + 1;
    }
    FirstMatchNone(active, c);
    return None;
  }
}
