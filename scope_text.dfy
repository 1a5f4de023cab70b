/** The two plain-text renderings of a summary (src/features/conversion/scopeModel.ts):
    the scope document and the message to send on Fiverr. */
module ScopeText {
  import opened Text
  import opened ScopeModel

  // ---------------------------------------------------------------------------
  // Pieces of the scope document

  /** The 40-dash rule under each section header. */
  const Rule := "----------------------------------------"

  const ScopeHeader := "SCOPE SUMMARY (Draft)"
  const EstimateHeader := "ESTIMATE (Preview)"
  const DeliverablesHeader := "DELIVERABLES"
  const RiskHeader := "RISK FLAGS"
  const NextStepHeader := "NEXT STEP"
  const SendPrefix := "Send this scope to me on Fiverr: "

  const ProjectTypePrefix := "Project Type: "
  const DesignSourcePrefix := "Design Source: "
  const PagesPrefix := "Sections/Pages: "
  const AnimationsPrefix := "Animations: "
  const FormsPrefix := "Forms: "
  const DeploymentPrefix := "Deployment: "
  const DeadlinePrefix := "Deadline: "

  function YesNo(b: bool): string {
    if b then "Yes" else "No"
  }

  function DeadlineName(d: Deadline): string {
    if d == Rush then "Rush" else "Normal"
  }

  /** One `- ` line per item, in order. */
  function Bullets(items: seq<string>): (r: seq<string>)
    ensures |r| == |items|
    ensures forall i | 0 <= i < |items| :: r[i] == "- " + items[i]
  {
    if |items| == 0 then [] else Bullets(items[..|items| - 1]) + ["- " + items[|items| - 1]]
  }

  /** The seven lines that record the state's fields. */
  function FieldLines(sum: ScopeSummary): seq<string> {
    [ ProjectTypePrefix + sum.projectTypeLabel,
      DesignSourcePrefix + sum.designSourceLabel,
      PagesPrefix + IntToString(sum.state.pagesOrSections),
      AnimationsPrefix + sum.animationsLabel,
      FormsPrefix + sum.formsLabel,
      DeploymentPrefix + YesNo(sum.state.deployment),
      DeadlinePrefix + DeadlineName(sum.state.deadline) ]
  }

  /** The estimate section: its header and the package, timeline and price lines. */
  function EstimateLines(sum: ScopeSummary): seq<string> {
    [ "", EstimateHeader, Rule,
      "Recommended Package: " + sum.recommendedPackage,
      "Estimated Timeline: " + sum.timelineText,
      "Estimated Price Range: " + sum.priceText ]
  }

  /** The lines before the first deliverable: the scope header, the fields, the estimate section
      and the deliverables header (18 lines). */
  function HeadLines(sum: ScopeSummary): seq<string> {
    [ScopeHeader, Rule] + FieldLines(sum) + EstimateLines(sum) + ["", DeliverablesHeader, Rule]
  }

  function RiskBlock(risks: seq<string>): seq<string> {
    if |risks| > 0 then ["", RiskHeader, Rule] + Bullets(risks) else []
  }

  /** `opts?.fiverrUrl` is truthy: given and not the empty string. */
  predicate HasUrl(url: Option<string>) {
    url.Some? && url.value != ""
  }

  function NextStepBlock(url: Option<string>): seq<string> {
    if HasUrl(url) then ["", NextStepHeader, Rule, SendPrefix + url.value] else []
  }

  /** The lines of the scope document, before they are joined. */
  function ScopeTextLines(sum: ScopeSummary, url: Option<string>): seq<string> {
    HeadLines(sum) + Bullets(sum.deliverables) + RiskBlock(sum.risks) + NextStepBlock(url)
  }

  /** The `for` loop that pushes one `- ` line per item onto `lines`. */
  method PushBullets(lines0: seq<string>, items: seq<string>) returns (lines: seq<string>)
    ensures lines == lines0 + Bullets(items)
  {
    lines := lines0;
    for i := 0 to |items|
      invariant lines == lines0 + Bullets(items[..i])
    {
      assert items[..i + 1][..i] == items[..i];
      lines := lines + ["- " + items[i]];
    }
    assert items[..|items|] == items;
  }

  /** The seven pushes of `buildScopeText` that record the state's fields. */
  method PushFields(lines0: seq<string>, summary: ScopeSummary) returns (lines: seq<string>)
    ensures lines == lines0 + FieldLines(summary)
  {
    lines := lines0;
    lines := lines + [ProjectTypePrefix + summary.projectTypeLabel];
    lines := lines + [DesignSourcePrefix + summary.designSourceLabel];
    lines := lines + [PagesPrefix + IntToString(summary.state.pagesOrSections)];
    lines := lines + [AnimationsPrefix + summary.animationsLabel];
    lines := lines + [FormsPrefix + summary.formsLabel];
    lines := lines + [DeploymentPrefix + (if summary.state.deployment then "Yes" else "No")];
    lines := lines + [DeadlinePrefix + (if summary.state.deadline == Rush then "Rush" else "Normal")];
  }

  /** The six pushes of `buildScopeText` that make up the estimate section. */
  method PushEstimate(lines0: seq<string>, summary: ScopeSummary) returns (lines: seq<string>)
    ensures lines == lines0 + EstimateLines(summary)
  {
    lines := lines0;
    lines := lines + [""];
    lines := lines + [EstimateHeader];
    lines := lines + [Rule];
    lines := lines + ["Recommended Package: " + summary.recommendedPackage];
    lines := lines + ["Estimated Timeline: " + summary.timelineText];
    lines := lines + ["Estimated Price Range: " + summary.priceText];
  }

  /** The first eighteen pushes of `buildScopeText`, down to the deliverables header. */
  method PushHead(summary: ScopeSummary) returns (lines: seq<string>)
    ensures lines == HeadLines(summary)
  {
    lines := [ScopeHeader];
    lines := lines + [Rule];
    lines := PushFields(lines, summary);
    lines := PushEstimate(lines, summary);
    ghost var upToEstimate := lines;
    lines := lines + [""];
    lines := lines + [DeliverablesHeader];
    lines := lines + [Rule];
    assert lines == upToEstimate + ["", DeliverablesHeader, Rule];
  }

  /** The risk-flags section of `buildScopeText`, pushed only when there are risks. */
  method PushRiskFlags(lines0: seq<string>, risks: seq<string>) returns (lines: seq<string>)
    ensures lines == lines0 + RiskBlock(risks)
  {
    lines := lines0;
    if |risks| > 0 {
      lines := lines + ["", RiskHeader, Rule];
      lines := PushBullets(lines, risks);
    }
  }

  /** `buildScopeText`: lines pushed section by section, then joined with '\n'. */
  method BuildScopeText(summary: ScopeSummary, fiverrUrl: Option<string>) returns (text: string)
    ensures text == Join(ScopeTextLines(summary, fiverrUrl))
  {
    var lines := PushHead(summary);
    lines := PushBullets(lines, summary.deliverables);
    lines := PushRiskFlags(lines, summary.risks);
    ghost var withRisks := lines;
    if fiverrUrl.Some? && fiverrUrl.value != "" {
      lines := lines + ["", NextStepHeader, Rule, SendPrefix + fiverrUrl.value];
    }
    assert lines == withRisks + NextStepBlock(fiverrUrl);
    text := Join(lines);
  }

  // ---------------------------------------------------------------------------
  // Reading the state back from the field block

  function ParseProjectType(line: string): Option<ProjectType> {
    var v := AfterPrefix(ProjectTypePrefix, line);
    if v.Some? then ProjectTypeFromLabel(v.value) else None
  }

  function ParseDesignSource(line: string): Option<DesignSource> {
    var v := AfterPrefix(DesignSourcePrefix, line);
    if v.Some? then DesignSourceFromLabel(v.value) else None
  }

  function ParsePages(line: string): Option<int> {
    var v := AfterPrefix(PagesPrefix, line);
    if v.Some? then ParseInt(v.value) else None
  }

  function ParseAnimations(line: string): Option<Animations> {
    var v := AfterPrefix(AnimationsPrefix, line);
    if v.Some? then AnimationsFromLabel(v.value) else None
  }

  function ParseForms(line: string): Option<Forms> {
    var v := AfterPrefix(FormsPrefix, line);
    if v.Some? then FormsFromLabel(v.value) else None
  }

  function ParseDeployment(line: string): Option<bool> {
    var v := AfterPrefix(DeploymentPrefix, line);
    if v == Some("Yes") then Some(true) else if v == Some("No") then Some(false) else None
  }

  function ParseDeadline(line: string): Option<Deadline> {
    var v := AfterPrefix(DeadlinePrefix, line);
    if v == Some("Rush") then Some(Rush) else if v == Some("Normal") then Some(Normal) else None
  }

  /** The state recorded by seven field lines, if they are well formed. */
  function ParseFields(f: seq<string>): Option<ScopeState>
    requires |f| == 7
  {
    var t, d, p := ParseProjectType(f[0]), ParseDesignSource(f[1]), ParsePages(f[2]);
    var a, m := ParseAnimations(f[3]), ParseForms(f[4]);
    var y, l := ParseDeployment(f[5]), ParseDeadline(f[6]);
    if t.Some? && d.Some? && p.Some? && a.Some? && m.Some? && y.Some? && l.Some? then
      Some(ScopeState(t.value, d.value, p.value, a.value, m.value, y.value, l.value))
    else None
  }

  /** The state recorded in the third to ninth lines of a scope document. */
  function ParseScopeState(text: string): Option<ScopeState> {
    var lines := Split(text);
    if |lines| < 9 then None else ParseFields(lines[2..9])
  }

  /** The four labels of `sum` are the table labels of the state it carries. */
  predicate LabelsMatch(sum: ScopeSummary) {
    && sum.projectTypeLabel == ProjectTypeLabel(sum.state.projectType)
    && sum.designSourceLabel == DesignSourceLabel(sum.state.designSource)
    && sum.animationsLabel == AnimationsLabel(sum.state.animations)
    && sum.formsLabel == FormsLabel(sum.state.forms)
  }

  /** Each field line names its field: it reads back to the state's value and holds no line
      break. */
  lemma ProjectTypeLine(sum: ScopeSummary)
    requires LabelsMatch(sum)
    ensures ParseProjectType(FieldLines(sum)[0]) == Some(sum.state.projectType)
    ensures NoNewline(FieldLines(sum)[0])
  {
    var v := sum.projectTypeLabel;
    assert FieldLines(sum)[0] == ProjectTypePrefix + v;
    ProjectTypeLabelRoundTrip(sum.state.projectType);
    ProjectTypeLabelNoNewline(sum.state.projectType);
    AfterPrefixOf(ProjectTypePrefix, v);
    NoNewlineAppend(ProjectTypePrefix, v);
  }

  lemma DesignSourceLine(sum: ScopeSummary)
    requires LabelsMatch(sum)
    ensures ParseDesignSource(FieldLines(sum)[1]) == Some(sum.state.designSource)
    ensures NoNewline(FieldLines(sum)[1])
  {
    var v := sum.designSourceLabel;
    assert FieldLines(sum)[1] == DesignSourcePrefix + v;
    DesignSourceLabelRoundTrip(sum.state.designSource);
    DesignSourceLabelNoNewline(sum.state.designSource);
    AfterPrefixOf(DesignSourcePrefix, v);
    NoNewlineAppend(DesignSourcePrefix, v);
  }

  lemma PagesLine(sum: ScopeSummary)
    ensures ParsePages(FieldLines(sum)[2]) == Some(sum.state.pagesOrSections)
    ensures NoNewline(FieldLines(sum)[2])
  {
    var v := IntToString(sum.state.pagesOrSections);
    assert FieldLines(sum)[2] == PagesPrefix + v;
    ParseIntToString(sum.state.pagesOrSections);
    AfterPrefixOf(PagesPrefix, v);
    NoNewlineAppend(PagesPrefix, v);
  }

  lemma AnimationsLine(sum: ScopeSummary)
    requires LabelsMatch(sum)
    ensures ParseAnimations(FieldLines(sum)[3]) == Some(sum.state.animations)
    ensures NoNewline(FieldLines(sum)[3])
  {
    var v := sum.animationsLabel;
    assert FieldLines(sum)[3] == AnimationsPrefix + v;
    AnimationsLabelRoundTrip(sum.state.animations);
    AfterPrefixOf(AnimationsPrefix, v);
    NoNewlineAppend(AnimationsPrefix, v);
  }

  lemma FormsLine(sum: ScopeSummary)
    requires LabelsMatch(sum)
    ensures ParseForms(FieldLines(sum)[4]) == Some(sum.state.forms)
    ensures NoNewline(FieldLines(sum)[4])
  {
    var v := sum.formsLabel;
    assert FieldLines(sum)[4] == FormsPrefix + v;
    FormsLabelRoundTrip(sum.state.forms);
    AfterPrefixOf(FormsPrefix, v);
    NoNewlineAppend(FormsPrefix, v);
  }

  lemma DeploymentLine(sum: ScopeSummary)
    ensures ParseDeployment(FieldLines(sum)[5]) == Some(sum.state.deployment)
    ensures NoNewline(FieldLines(sum)[5])
  {
    var v := YesNo(sum.state.deployment);
    assert FieldLines(sum)[5] == DeploymentPrefix + v;
    AfterPrefixOf(DeploymentPrefix, v);
    NoNewlineAppend(DeploymentPrefix, v);
  }

  lemma DeadlineLine(sum: ScopeSummary)
    ensures ParseDeadline(FieldLines(sum)[6]) == Some(sum.state.deadline)
    ensures NoNewline(FieldLines(sum)[6])
  {
    var v := DeadlineName(sum.state.deadline);
    assert FieldLines(sum)[6] == DeadlinePrefix + v;
    AfterPrefixOf(DeadlinePrefix, v);
    NoNewlineAppend(DeadlinePrefix, v);
  }

  /** The field lines of a summary whose labels come from the tables record its state, and none
      of them holds a line break. */
  lemma FieldLinesRoundTrip(sum: ScopeSummary)
    requires LabelsMatch(sum)
    ensures ParseFields(FieldLines(sum)) == Some(sum.state)
    ensures AllNoNewline(FieldLines(sum))
  {
    ProjectTypeLine(sum);
    DesignSourceLine(sum);
    PagesLine(sum);
    AnimationsLine(sum);
    FormsLine(sum);
    DeploymentLine(sum);
    DeadlineLine(sum);
    var f := FieldLines(sum);
    forall i | 0 <= i < 7 ensures NoNewline(f[i]) {
      if i == 0 {} else if i == 1 {} else if i == 2 {} else if i == 3 {}
      else if i == 4 {} else if i == 5 {} else {}
    }
  }

  lemma TopLinesNoNewline()
    ensures AllNoNewline([ScopeHeader, Rule])
  {
  }

  /** The field block of a scope document determines the state it was built from, whatever
      follows it. */
  lemma ScopeTextRoundTrip(sum: ScopeSummary, url: Option<string>)
    requires LabelsMatch(sum)
    ensures ParseScopeState(Join(ScopeTextLines(sum, url))) == Some(sum.state)
  {
    var lines := ScopeTextLines(sum, url);
    var fields := FieldLines(sum);
    FieldLinesRoundTrip(sum);
    var top := [ScopeHeader, Rule] + fields;
    var head := top + EstimateLines(sum) + ["", DeliverablesHeader, Rule];
    TakeAppend(head + Bullets(sum.deliverables) + RiskBlock(sum.risks), NextStepBlock(url), 9);
    TakeAppend(head + Bullets(sum.deliverables), RiskBlock(sum.risks), 9);
    TakeAppend(head, Bullets(sum.deliverables), 9);
    TakeAppend(top + EstimateLines(sum), ["", DeliverablesHeader, Rule], 9);
    TakeAppend(top, EstimateLines(sum), 9);
    assert lines[..9] == top;
    TopLinesNoNewline();
    AllNoNewlineAppend([ScopeHeader, Rule], fields);
    SplitJoinTake(lines, 9);
    var split := Split(Join(lines));
    assert split[2..9] == lines[..9][2..9];
  }

  /** The scope document of a state's summary names that state. */
  lemma SummaryTextRoundTrip(s: ScopeState, url: Option<string>)
    ensures ParseScopeState(Join(ScopeTextLines(Summarize(s), url))) == Some(s)
  {
    ScopeTextRoundTrip(Summarize(s), url);
  }

  // ---------------------------------------------------------------------------
  // The section structure of the scope document

  /** The document has 18 head lines, one line per deliverable, a four-line header and one line
      per risk when there are risks, and four more lines when a link is given. */
  lemma ScopeTextLength(sum: ScopeSummary, url: Option<string>)
    ensures |ScopeTextLines(sum, url)| ==
      18 + |sum.deliverables| + (if |sum.risks| > 0 then 3 + |sum.risks| else 0)
      + (if HasUrl(url) then 4 else 0)
  {
  }

  /** The document starts with the head lines, and the deliverable bullets follow them. */
  lemma ScopeTextSplitsAtBullets(sum: ScopeSummary, url: Option<string>)
    ensures var lines := ScopeTextLines(sum, url);
      && |lines| >= 18 + |sum.deliverables|
      && lines[..18] == HeadLines(sum)
      && lines[18..18 + |sum.deliverables|] == Bullets(sum.deliverables)
  {
    var head, bullets := HeadLines(sum), Bullets(sum.deliverables);
    var tail := RiskBlock(sum.risks) + NextStepBlock(url);
    assert ScopeTextLines(sum, url) == head + bullets + tail;
    assert (head + bullets + tail)[..18] == head;
    assert (head + bullets + tail)[18..18 + |bullets|] == bullets;
  }

  /** The fixed headers of the head come in a fixed order, around the field lines. */
  lemma HeadLinesShape(sum: ScopeSummary)
    ensures var h := HeadLines(sum);
      && |h| == 18
      && h[0] == ScopeHeader && h[1] == Rule
      && h[9] == "" && h[10] == EstimateHeader && h[11] == Rule
      && h[15] == "" && h[16] == DeliverablesHeader && h[17] == Rule
      && h[2..9] == FieldLines(sum)
  {
  }

  /** A line that does not start with a dash is no bullet. */
  lemma NotABullet(items: seq<string>, line: string)
    requires |line| > 0 && line[0] != '-'
    ensures line !in Bullets(items)
  {
    forall i | 0 <= i < |items| ensures Bullets(items)[i][0] == '-' {
      assert Bullets(items)[i] == "- " + items[i];
    }
  }

  /** No head line is the risk header. */
  lemma RiskHeaderNotInHead(sum: ScopeSummary)
    ensures RiskHeader !in HeadLines(sum)
  {
    assert RiskHeader[0] == 'R' && RiskHeader[1] == 'I';
    assert RiskHeader !in [ScopeHeader, Rule];
    assert RiskHeader !in FieldLines(sum);
    assert RiskHeader !in EstimateLines(sum);
    assert RiskHeader !in ["", DeliverablesHeader, Rule];
  }

  /** No head line is the next-step header. */
  lemma NextStepHeaderNotInHead(sum: ScopeSummary)
    ensures NextStepHeader !in HeadLines(sum)
  {
    assert NextStepHeader[0] == 'N';
    assert NextStepHeader !in [ScopeHeader, Rule];
    assert NextStepHeader !in FieldLines(sum);
    assert NextStepHeader !in EstimateLines(sum);
    assert NextStepHeader !in ["", DeliverablesHeader, Rule];
  }

  /** The risk-flags section follows the deliverables exactly when there are risks, and holds one
      bullet per risk, in order. */
  lemma ScopeTextRiskFlags(sum: ScopeSummary, url: Option<string>)
    ensures var lines, d, r := ScopeTextLines(sum, url), |sum.deliverables|, |sum.risks|;
      && (r > 0 ==> lines[18 + d..21 + d + r] == ["", RiskHeader, Rule] + Bullets(sum.risks))
      && (r == 0 ==> lines[18 + d..] == NextStepBlock(url))
  {
    var head := HeadLines(sum) + Bullets(sum.deliverables);
    assert |head| == 18 + |sum.deliverables|;
    assert ScopeTextLines(sum, url) == head + RiskBlock(sum.risks) + NextStepBlock(url);
  }

  /** The next-step section closes the document exactly when a non-empty link is given. */
  lemma ScopeTextNextStep(sum: ScopeSummary, url: Option<string>)
    ensures var lines := ScopeTextLines(sum, url);
      && (HasUrl(url) ==>
            && |lines| >= 4
            && lines[|lines| - 4..] == ["", NextStepHeader, Rule, SendPrefix + url.value])
      && (!HasUrl(url) ==>
            lines == HeadLines(sum) + Bullets(sum.deliverables) + RiskBlock(sum.risks))
  {
  }

  /** The RISK FLAGS header appears exactly when the summary has risks. */
  lemma RiskHeaderIff(sum: ScopeSummary, url: Option<string>)
    ensures RiskHeader in ScopeTextLines(sum, url) <==> |sum.risks| > 0
  {
    var lines := ScopeTextLines(sum, url);
    if |sum.risks| > 0 {
      ScopeTextRiskFlags(sum, url);
      assert lines[19 + |sum.deliverables|] == RiskHeader;
    } else {
      RiskHeaderNotInHead(sum);
      assert RiskHeader[0] == 'R';
      NotABullet(sum.deliverables, RiskHeader);
      assert RiskHeader !in NextStepBlock(url);
    }
  }

  /** The NEXT STEP header appears exactly when a non-empty link is given. */
  lemma NextStepHeaderIff(sum: ScopeSummary, url: Option<string>)
    ensures NextStepHeader in ScopeTextLines(sum, url) <==> HasUrl(url)
  {
    var lines := ScopeTextLines(sum, url);
    if HasUrl(url) {
      ScopeTextNextStep(sum, url);
      assert lines[|lines| - 3] == NextStepHeader;
    } else {
      NextStepHeaderNotInHead(sum);
      assert NextStepHeader[0] == 'N';
      NotABullet(sum.deliverables, NextStepHeader);
      NotABullet(sum.risks, NextStepHeader);
      assert NextStepHeader !in RiskBlock(sum.risks);
    }
  }

  // ---------------------------------------------------------------------------
  // The Fiverr message

  const GreetingPrefix := "Hi Dante \U{2014} I\U{2019}d like to hire you for "
  const DesignPrefix := "Design: "
  const WillSend := "(will send)"
  const EstimatePrefix := "Estimate preview (ok if you adjust after review): "
  const PackagePrefix := "Preferred package: "
  const NotesHeader := "Notes:"
  const ClosingQuestion := "Can you confirm price + timeline and what you need from me to start?"

  /** `s?.trim()` is truthy: the text is given and is not whitespace only. */
  predicate Filled(s: Option<string>) {
    s.Some? && Trim(s.value) != ""
  }

  /** What the design line names: the trimmed link, or the placeholder. */
  function DesignText(designLink: Option<string>): string {
    if Filled(designLink) then Trim(designLink.value) else WillSend
  }

  function Greeting(sum: ScopeSummary): string {
    GreetingPrefix + sum.projectTypeLabel + "."
  }

  /** The five lines after the design line: pages, deadline and the estimate preview. */
  function MessageFactLines(sum: ScopeSummary): seq<string> {
    [ PagesPrefix + IntToString(sum.state.pagesOrSections),
      DeadlinePrefix + DeadlineName(sum.state.deadline), "",
      EstimatePrefix + sum.priceText + ", " + sum.timelineText,
      PackagePrefix + sum.recommendedPackage ]
  }

  /** The eight lines from the greeting to the preferred package. */
  function MessageTopLines(sum: ScopeSummary, designLink: Option<string>): seq<string> {
    [Greeting(sum), "", DesignPrefix + DesignText(designLink)] + MessageFactLines(sum)
  }

  function NotesBlock(notes: Option<string>): seq<string> {
    if Filled(notes) then ["", NotesHeader, Trim(notes.value)] else []
  }

  /** The lines of the message, before they are joined. */
  function FiverrMessageLines(sum: ScopeSummary, designLink: Option<string>, notes: Option<string>)
    : seq<string>
  {
    MessageTopLines(sum, designLink) + NotesBlock(notes) + ["", ClosingQuestion]
  }

  /** The five pushes of `buildFiverrMessage` after the design line. */
  method PushMessageFacts(lines0: seq<string>, summary: ScopeSummary) returns (lines: seq<string>)
    ensures lines == lines0 + MessageFactLines(summary)
  {
    lines := lines0;
    lines := lines + [PagesPrefix + IntToString(summary.state.pagesOrSections)];
    lines := lines + [DeadlinePrefix + (if summary.state.deadline == Rush then "Rush" else "Normal")];
    lines := lines + [""];
    lines := lines + [EstimatePrefix + summary.priceText + ", " + summary.timelineText];
    lines := lines + [PackagePrefix + summary.recommendedPackage];
  }

  /** The first three pushes of `buildFiverrMessage`: the greeting, a blank line and the design
      line. */
  method PushGreeting(summary: ScopeSummary, designLink: Option<string>) returns (lines: seq<string>)
    ensures lines == [Greeting(summary), "", DesignPrefix + DesignText(designLink)]
  {
    lines := [GreetingPrefix + summary.projectTypeLabel + "."];
    lines := lines + [""];
    var link := if designLink.Some? then Trim(designLink.value) else "";
    lines := lines + [DesignPrefix + (if link != "" then link else WillSend)];
  }

  /** The notes section of `buildFiverrMessage`, pushed only when the notes are not blank. */
  method PushNotes(lines0: seq<string>, notes: Option<string>) returns (lines: seq<string>)
    ensures lines == lines0 + NotesBlock(notes)
  {
    lines := lines0;
    var trimmedNotes := if notes.Some? then Trim(notes.value) else "";
    if trimmedNotes != "" {
      lines := lines + ["", NotesHeader, trimmedNotes];
    }
  }

  /** `buildFiverrMessage`: lines pushed in order, the notes only when they are not blank. */
  method BuildFiverrMessage(summary: ScopeSummary, designLink: Option<string>, notes: Option<string>)
    returns (text: string)
    ensures text == Join(FiverrMessageLines(summary, designLink, notes))
  {
    var lines := PushGreeting(summary, designLink);
    lines := PushMessageFacts(lines, summary);
    lines := PushNotes(lines, notes);
    lines := lines + ["", ClosingQuestion];
    text := Join(lines);
  }

  /** A link or note counts exactly when it is given and not whitespace only. */
  lemma FilledIff(s: Option<string>)
    ensures Filled(s) <==> s.Some? && !AllSpace(s.value)
  {
    if s.Some? { TrimEmptyIff(s.value); }
  }

  /** The design line shows the trimmed link, or the placeholder when the link is absent or
      blank. */
  lemma DesignLine(designLink: Option<string>)
    ensures designLink.None? || AllSpace(designLink.value) ==> DesignText(designLink) == WillSend
    ensures designLink.Some? && !AllSpace(designLink.value) ==>
      DesignText(designLink) == Trim(designLink.value) != ""
  {
    FilledIff(designLink);
  }

  /** The message has ten lines, or thirteen with notes: the greeting naming the project type,
      the design line, the notes block when there are notes, and the closing question last. */
  lemma FiverrMessageShape(sum: ScopeSummary, designLink: Option<string>, notes: Option<string>)
    ensures var lines := FiverrMessageLines(sum, designLink, notes);
      && |lines| == (if Filled(notes) then 13 else 10)
      && lines[0] == GreetingPrefix + sum.projectTypeLabel + "."
      && lines[2] == DesignPrefix + DesignText(designLink)
      && lines[|lines| - 2] == "" && lines[|lines| - 1] == ClosingQuestion
      && (Filled(notes) ==> lines[8..11] == ["", NotesHeader, Trim(notes.value)])
  {
  }

  /** The Notes header appears exactly when the notes are not blank. */
  lemma NotesHeaderIff(sum: ScopeSummary, designLink: Option<string>, notes: Option<string>)
    ensures NotesHeader in FiverrMessageLines(sum, designLink, notes) <==> Filled(notes)
  {
    var lines := FiverrMessageLines(sum, designLink, notes);
    if Filled(notes) {
      FiverrMessageShape(sum, designLink, notes);
      assert lines[8..11][1] == NotesHeader;
    } else {
      assert NotesHeader[0] == 'N';
      assert NotesHeader !in [Greeting(sum), "", DesignPrefix + DesignText(designLink)];
      assert NotesHeader !in MessageFactLines(sum);
      assert NotesBlock(notes) == [];
    }
  }

  /** The message text starts with the greeting and ends with the closing question. */
  lemma FiverrMessageEnds(sum: ScopeSummary, designLink: Option<string>, notes: Option<string>)
    ensures var text := Join(FiverrMessageLines(sum, designLink, notes));
      && GreetingPrefix + sum.projectTypeLabel + "." <= text
      && |text| >= |ClosingQuestion|
      && text[|text| - |ClosingQuestion|..] == ClosingQuestion
  {
    var lines := FiverrMessageLines(sum, designLink, notes);
    FiverrMessageShape(sum, designLink, notes);
    JoinEnds(lines);
  }
}
