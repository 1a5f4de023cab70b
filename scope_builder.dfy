/** The scope-builder demo (src/features/projects/demos/ScopeBuilderDemo.tsx): a three-step
    wizard over a scope state, its summary and its scope document. The demo carries its own copy
    of the estimate engine; that copy is the engine of `ScopeModel` line for line, so the demo is
    modelled on top of `ScopeModel.BuildScopeSummary`. */
module ScopeBuilder {
  import opened Text
  import opened ScopeModel
  import opened ScopeText
  import Profile

  const TotalSteps := 3

  /** The link the demo's NEXT STEP section always names. */
  const FiverrLink := Profile.ProfileSocials.fiverr

  /** The selections the demo starts from. */
  const DefaultState := ScopeState(UiConversion, Figma, 3, Basic, NoForms, true, Normal)

  /** The profile link is a non-empty string. */
  lemma FiverrLinkGiven()
    ensures HasUrl(Some(FiverrLink))
  {
    assert |FiverrLink| == 32;
  }

  /** The demo's `buildScopeText`: the same sections as the shared renderer, with the NEXT STEP
      section always present and naming the profile link. It is the shared renderer given that
      link. */
  method BuildDemoScopeText(summary: ScopeSummary) returns (text: string)
    ensures text == Join(ScopeTextLines(summary, Some(FiverrLink)))
  {
    var lines := PushHead(summary);
    lines := PushBullets(lines, summary.deliverables);
    lines := PushRiskFlags(lines, summary.risks);
    lines := lines + ["", NextStepHeader, Rule, SendPrefix + FiverrLink];
    FiverrLinkGiven();
    text := Join(lines);
  }

  /** The demo's document always closes with the NEXT STEP section naming the profile link. */
  lemma DemoScopeTextEndsWithNextStep(sum: ScopeSummary)
    ensures var lines := ScopeTextLines(sum, Some(FiverrLink));
      && |lines| >= 4
      && lines[|lines| - 4..] == ["", NextStepHeader, Rule, SendPrefix + FiverrLink]
      && NextStepHeader in lines
    ensures var text := Join(ScopeTextLines(sum, Some(FiverrLink)));
      && |text| >= |SendPrefix + FiverrLink|
      && text[|text| - |SendPrefix + FiverrLink|..] == SendPrefix + FiverrLink
  {
    FiverrLinkGiven();
    ScopeTextNextStep(sum, Some(FiverrLink));
    NextStepHeaderIff(sum, Some(FiverrLink));
    var lines := ScopeTextLines(sum, Some(FiverrLink));
    assert lines[|lines| - 1] == lines[|lines| - 4..][3];
    JoinEnds(lines);
  }

  /** The default selections' base bracket and page cost: the rapid UI conversion bracket, with
      the three pages included. */
  lemma DefaultBase()
    ensures GetBase(DefaultState.projectType).estimate.Plus(PagesCost(DefaultState)) == Estimate(99, 199, 2, 3)
  {
    assert ExtraUnits(DefaultState) == 0;
    assert PagesCost(DefaultState) == NoCost;
  }

  /** The default options add basic animations and deployment, nothing for forms or the
      Figma design. */
  lemma DefaultOptions(e: Estimate)
    requires e == Estimate(99, 199, 2, 3)
    ensures e.Plus(AnimationsCost(Basic)).Plus(FormsCost(NoForms)).Plus(DeploymentCost(true))
      .Plus(DesignCost(Figma)) == Estimate(164, 329, 2, 4)
  {
    var e2 := e.Plus(AnimationsCost(Basic));
    assert e2 == Estimate(139, 279, 2, 4);
    var e3 := e2.Plus(FormsCost(NoForms));
    assert e3 == e2;
    var e4 := e3.Plus(DeploymentCost(true));
    assert e4 == Estimate(164, 329, 2, 4);
    assert DesignCost(Figma) == NoCost;
  }

  /** The default selections quote $164 to $329 over two to four days. */
  lemma DefaultEstimate()
    ensures FinalEstimate(DefaultState) == Estimate(164, 329, 2, 4)
  {
    var s := DefaultState;
    DefaultBase();
    DefaultOptions(GetBase(s.projectType).estimate.Plus(PagesCost(s)));
    assert s.deadline == Normal;
    assert FinalEstimate(s) == AdditiveEstimate(s);
  }

  /** The default selections recommend the rapid UI conversion package, raise no risk flag and
      list seven deliverables. */
  lemma DefaultQuote()
    ensures GetBase(DefaultState.projectType).packageName == "Rapid UI Conversion"
    ensures Risks(DefaultState) == []
    ensures |Deliverables(DefaultState)| == 7
  {
    RisksShape(DefaultState);
    DeliverablesLength(DefaultState);
  }

  /** With the default selections the texts read "$164 – $329" and "2–4 days". */
  lemma DefaultQuoteTexts()
    ensures PriceText(Estimate(164, 329, 2, 4)) == "$164 \U{2013} $329"
    ensures TimelineText(Estimate(164, 329, 2, 4)) == "2\U{2013}4 days"
  {
    assert NatToString(164) == "164" by {
      assert NatToString(1) == "1";
      assert NatToString(16) == NatToString(1) + [DigitChar(6)];
    }
    assert NatToString(329) == "329" by {
      assert NatToString(3) == "3";
      assert NatToString(32) == NatToString(3) + [DigitChar(2)];
    }
  }

  // ---------------------------------------------------------------------------
  // The risk card

  const NoFlagsText := "No flags. Looks straightforward."

  /** What the risk card shows: the no-flags line, or at most the first three risks. */
  datatype RiskCardView = NoFlags | Flags(items: seq<string>)

  function RiskCard(risks: seq<string>): RiskCardView {
    if |risks| == 0 then NoFlags else Flags(risks[..Min(3, |risks|)])
  }

  /** The card says "No flags" exactly when there are no risks; otherwise it lists the first
      risks in order, at most three, and every risk of a summary fits. */
  lemma RiskCardShows(risks: seq<string>)
    ensures RiskCard(risks) == NoFlags <==> |risks| == 0
    ensures RiskCard(risks).Flags? ==>
      && |RiskCard(risks).items| == Min(3, |risks|)
      && RiskCard(risks).items <= risks
    ensures |risks| <= 3 && |risks| > 0 ==> RiskCard(risks) == Flags(risks)
  {
  }

  /** A summary never has more than two risks, so the card lists all of them. */
  lemma RiskCardShowsAllRisks(s: ScopeState)
    ensures RiskCard(Risks(s)) == (if Risks(s) == [] then NoFlags else Flags(Risks(s)))
  {
    RisksShape(s);
    RiskCardShows(Risks(s));
  }

  // ---------------------------------------------------------------------------
  // The wizard

  /** The demo's component state: the wizard step and the selections. */
  class Wizard {
    var step: int
    var state: ScopeState

    predicate Valid()
      reads this
    {
      0 <= step < TotalSteps
    }

    constructor ()
      ensures step == 0 && state == DefaultState
      ensures Valid()
    {
      step := 0;
      state := DefaultState;
    }

    predicate BackDisabled()
      reads this
    {
      step == 0
    }

    predicate NextDisabled()
      reads this
    {
      step == TotalSteps - 1
    }

    /** `useMemo(() => buildSummary(state))`. */
    function Summary(): ScopeSummary
      reads this
    {
      Summarize(state)
    }

    /** `useMemo(() => buildScopeText(summary))`. */
    function ScopeDocument(): string
      reads this
    {
      Join(ScopeTextLines(Summary(), Some(FiverrLink)))
    }

    /** Back: one step earlier, never below the first. */
    method Back()
      modifies this
      ensures step == Clamp(old(step) - 1, 0, TotalSteps - 1) && state == old(state)
      ensures Valid()
      ensures old(Valid()) ==> (if old(step) == 0 then step == 0 else step == old(step) - 1)
    {
      step := Clamp(step - 1, 0, TotalSteps - 1);
    }

    /** Next: one step later, never past the last. */
    method Next()
      modifies this
      ensures step == Clamp(old(step) + 1, 0, TotalSteps - 1) && state == old(state)
      ensures Valid()
      ensures old(Valid()) ==>
        (if old(step) == TotalSteps - 1 then step == old(step) else step == old(step) + 1)
    {
      step := Clamp(step + 1, 0, TotalSteps - 1);
    }

    method SetProjectType(v: ProjectType)
      modifies this
      ensures state == old(state).(projectType := v) && step == old(step)
    {
      state := state.(projectType := v);
    }

    method SetDesignSource(v: DesignSource)
      modifies this
      ensures state == old(state).(designSource := v) && step == old(step)
    {
      state := state.(designSource := v);
    }

    /** The range input offers whole numbers from 1 to 12. */
    method SetPages(v: int)
      requires 1 <= v <= 12
      modifies this
      ensures state == old(state).(pagesOrSections := v) && step == old(step)
    {
      state := state.(pagesOrSections := v);
    }

    method SetAnimations(v: Animations)
      modifies this
      ensures state == old(state).(animations := v) && step == old(step)
    {
      state := state.(animations := v);
    }

    method SetForms(v: Forms)
      modifies this
      ensures state == old(state).(forms := v) && step == old(step)
    {
      state := state.(forms := v);
    }

    method ToggleDeployment()
      modifies this
      ensures state == old(state).(deployment := !old(state).deployment) && step == old(step)
    {
      state := state.(deployment := !state.deployment);
    }

    method SetDeadline(v: Deadline)
      modifies this
      ensures state == old(state).(deadline := v) && step == old(step)
    {
      state := state.(deadline := v);
    }
  }

  /** Back is disabled exactly on the first step and Next exactly on the last; from any other
      step each moves by one and stays in range. */
  lemma StepMoves(step: int)
    requires 0 <= step < TotalSteps
    ensures step > 0 ==> Clamp(step - 1, 0, TotalSteps - 1) == step - 1
    ensures step < TotalSteps - 1 ==> Clamp(step + 1, 0, TotalSteps - 1) == step + 1
    ensures step == 0 ==> Clamp(step - 1, 0, TotalSteps - 1) == 0
    ensures step == TotalSteps - 1 ==> Clamp(step + 1, 0, TotalSteps - 1) == step
  {
  }
}
