/** The quote/scope estimation engine and its two text renderers
    (src/features/conversion/scopeModel.ts). */
module ScopeModel {
  import opened Text

  // ---------------------------------------------------------------------------
  // Data model

  datatype ProjectType = UiConversion | LandingPage | Dashboard | Bugfix
  datatype DesignSource = Figma | Screenshots | NoDesign
  datatype Animations = NoAnimations | Basic | Premium
  datatype Forms = NoForms | Simple | Advanced
  datatype Deadline = Normal | Rush

  /** The user's selections. `pagesOrSections` is any integer: the engine is total over it. */
  datatype ScopeState = ScopeState(
    projectType: ProjectType,
    designSource: DesignSource,
    pagesOrSections: int,
    animations: Animations,
    forms: Forms,
    deployment: bool,
    deadline: Deadline)

  /** The state the summary was built from, with the derived texts and lists. */
  datatype ScopeSummary = ScopeSummary(
    state: ScopeState,
    recommendedPackage: string,
    priceText: string,
    timelineText: string,
    deliverables: seq<string>,
    risks: seq<string>,
    projectTypeLabel: string,
    designSourceLabel: string,
    animationsLabel: string,
    formsLabel: string)

  // ---------------------------------------------------------------------------
  // Label tables and their inverses

  function ProjectTypeLabel(t: ProjectType): string {
    match t
    case UiConversion => "UI Conversion (Figma \U{2192} React/Tailwind)"
    case LandingPage => "Landing Page"
    case Dashboard => "Dashboard"
    case Bugfix => "Bug Fix / Refactor"
  }

  function DesignSourceLabel(d: DesignSource): string {
    match d
    case Figma => "Figma file available"
    case Screenshots => "Screenshots only"
    case NoDesign => "No design yet (needs guidance)"
  }

  function AnimationsLabel(a: Animations): string {
    match a
    case NoAnimations => "None"
    case Basic => "Basic"
    case Premium => "Premium"
  }

  function FormsLabel(f: Forms): string {
    match f
    case NoForms => "None"
    case Simple => "Simple"
    case Advanced => "Advanced"
  }

  function ProjectTypeFromLabel(name: string): Option<ProjectType> {
    if name == ProjectTypeLabel(UiConversion) then Some(UiConversion)
    else if name == ProjectTypeLabel(LandingPage) then Some(LandingPage)
    else if name == ProjectTypeLabel(Dashboard) then Some(Dashboard)
    else if name == ProjectTypeLabel(Bugfix) then Some(Bugfix)
    else None
  }

  function DesignSourceFromLabel(name: string): Option<DesignSource> {
    if name == DesignSourceLabel(Figma) then Some(Figma)
    else if name == DesignSourceLabel(Screenshots) then Some(Screenshots)
    else if name == DesignSourceLabel(NoDesign) then Some(NoDesign)
    else None
  }

  function AnimationsFromLabel(name: string): Option<Animations> {
    if name == AnimationsLabel(NoAnimations) then Some(NoAnimations)
    else if name == AnimationsLabel(Basic) then Some(Basic)
    else if name == AnimationsLabel(Premium) then Some(Premium)
    else None
  }

  function FormsFromLabel(name: string): Option<Forms> {
    if name == FormsLabel(NoForms) then Some(NoForms)
    else if name == FormsLabel(Simple) then Some(Simple)
    else if name == FormsLabel(Advanced) then Some(Advanced)
    else None
  }

  /** Each label table is injective: its label names the value it came from. */
  lemma ProjectTypeLabelRoundTrip(t: ProjectType)
    ensures ProjectTypeFromLabel(ProjectTypeLabel(t)) == Some(t)
  {
    assert |ProjectTypeLabel(UiConversion)| == 38 && |ProjectTypeLabel(LandingPage)| == 12;
    assert |ProjectTypeLabel(Dashboard)| == 9 && |ProjectTypeLabel(Bugfix)| == 18;
  }

  lemma DesignSourceLabelRoundTrip(d: DesignSource)
    ensures DesignSourceFromLabel(DesignSourceLabel(d)) == Some(d)
  {
    assert |DesignSourceLabel(Figma)| == 20 && |DesignSourceLabel(Screenshots)| == 16;
    assert |DesignSourceLabel(NoDesign)| == 30;
  }

  lemma UiConversionLabelNoNewline()
    ensures NoNewline(ProjectTypeLabel(UiConversion))
  {
  }

  lemma NoDesignLabelNoNewline()
    ensures NoNewline(DesignSourceLabel(NoDesign))
  {
  }

  /** Every label fits on one line. */
  lemma ProjectTypeLabelNoNewline(t: ProjectType)
    ensures NoNewline(ProjectTypeLabel(t))
  {
    if t == UiConversion { UiConversionLabelNoNewline(); }
  }

  lemma DesignSourceLabelNoNewline(d: DesignSource)
    ensures NoNewline(DesignSourceLabel(d))
  {
    if d == NoDesign { NoDesignLabelNoNewline(); }
  }

  lemma AnimationsLabelRoundTrip(a: Animations)
    ensures AnimationsFromLabel(AnimationsLabel(a)) == Some(a)
    ensures NoNewline(AnimationsLabel(a))
  {
  }

  lemma FormsLabelRoundTrip(f: Forms)
    ensures FormsFromLabel(FormsLabel(f)) == Some(f)
    ensures NoNewline(FormsLabel(f))
  {
  }

  // ---------------------------------------------------------------------------
  // Small pure helpers

  /** `Math.min(max, Math.max(min, n))`. */
  function Clamp(n: int, lo: int, hi: int): (r: int)
    ensures lo <= hi ==> lo <= r <= hi
    ensures lo <= n <= hi ==> r == n
    ensures hi < lo ==> r == hi
  {
    Min(hi, Max(lo, n))
  }

  /** `plural(n, singular)` with the default plural form `singular + "s"`. */
  function Plural(n: int, singular: string): (r: string)
    ensures n == 1 <==> r == singular
  {
    if n == 1 then singular else singular + "s"
  }

  // ---------------------------------------------------------------------------
  // The estimate: a reference definition as a sum of cost vectors

  /** The engine's running accumulator (min, max, daysMin, daysMax). */
  datatype Estimate = Estimate(min: int, max: int, daysMin: int, daysMax: int) {
    function Plus(o: Estimate): Estimate {
      Estimate(min + o.min, max + o.max, daysMin + o.daysMin, daysMax + o.daysMax)
    }
    /** Every component is at most the corresponding component of `o`. */
    predicate AtMost(o: Estimate) {
      min <= o.min && max <= o.max && daysMin <= o.daysMin && daysMax <= o.daysMax
    }
    /** No component lowers the upper bound below the lower one. */
    predicate Widening() {
      0 <= min <= max && 0 <= daysMin <= daysMax
    }
  }

  const NoCost := Estimate(0, 0, 0, 0)

  datatype Base = Base(estimate: Estimate, packageName: string)

  /** Every package starts at 79 dollars or more, with an upper price and day count above the
      lower ones. */
  function GetBase(t: ProjectType): (b: Base)
    ensures 79 <= b.estimate.min < b.estimate.max
    ensures 1 <= b.estimate.daysMin < b.estimate.daysMax
  {
    match t
    case UiConversion => Base(Estimate(99, 199, 2, 3), "Rapid UI Conversion")
    case LandingPage => Base(Estimate(249, 449, 3, 5), "Landing Page Build")
    case Dashboard => Base(Estimate(399, 799, 5, 9), "Custom Dashboard")
    case Bugfix => Base(Estimate(79, 199, 1, 3), "Bug Fix & Refactor")
  }

  /** Pages or sections included in the base price. */
  function FreeUnits(t: ProjectType): int {
    if t == Bugfix then 1 else 3
  }

  /** `Math.max(0, pagesOrSections - freeUnits)`. */
  function ExtraUnits(s: ScopeState): nat {
    var e := s.pagesOrSections - FreeUnits(s.projectType);
    if e > 0 then e else 0
  }

  /** `Math.ceil(n / 3)` for a non-negative integer `n`. */
  function CeilThird(n: nat): (r: nat)
    ensures 3 * r >= n && 3 * (r - 1) < n
  {
    (n + 2) / 3
  }

  /** `Math.ceil(n / 2)` for a non-negative integer `n`. */
  function CeilHalf(n: nat): (r: nat)
    ensures 2 * r >= n && 2 * (r - 1) < n
  {
    (n + 1) / 2
  }

  function PagesCost(s: ScopeState): Estimate {
    var e := ExtraUnits(s);
    Estimate(e * 20, e * 45, CeilThird(e), CeilHalf(e))
  }

  function AnimationsCost(a: Animations): Estimate {
    match a
    case NoAnimations => NoCost
    case Basic => Estimate(40, 80, 0, 1)
    case Premium => Estimate(80, 160, 1, 2)
  }

  function FormsCost(f: Forms): Estimate {
    match f
    case NoForms => NoCost
    case Simple => Estimate(35, 70, 0, 1)
    case Advanced => Estimate(75, 150, 1, 2)
  }

  function DeploymentCost(deployment: bool): Estimate {
    if deployment then Estimate(25, 50, 0, 0) else NoCost
  }

  function DesignCost(d: DesignSource): Estimate {
    match d
    case Figma => NoCost
    case Screenshots => Estimate(0, 0, 0, 1)
    case NoDesign => Estimate(0, 120, 0, 2)
  }

  /** The estimate before the deadline is considered: the base bracket plus every modifier. */
  function AdditiveEstimate(s: ScopeState): Estimate {
    GetBase(s.projectType).estimate
      .Plus(PagesCost(s))
      .Plus(AnimationsCost(s.animations))
      .Plus(FormsCost(s.forms))
      .Plus(DeploymentCost(s.deployment))
      .Plus(DesignCost(s.designSource))
  }

  /** `Math.round(n * 1.25)`: half-way cases round up, as `Math.round` does. */
  function RoundTimes125(n: int): int { (5 * n + 2) / 4 }

  /** `Math.floor(d * 0.75)`. */
  function FloorTimes075(d: int): int { (3 * d) / 4 }

  /** `Math.floor(d * 0.85)`; the double product rounds to 17d/20 exactly on integers of this size. */
  function FloorTimes085(d: int): int { (17 * d) / 20 }

  /** The rush adjustment: prices up by a quarter, days compressed, daysMax kept at least daysMin. */
  function RushAdjust(e: Estimate): (r: Estimate)
    ensures 1 <= r.daysMin <= r.daysMax
    ensures 0 <= e.min ==> e.min <= r.min
    ensures 0 <= e.max ==> e.max <= r.max
    ensures 1 <= e.daysMin ==> r.daysMin <= e.daysMin
  {
    var daysMin := Max(1, FloorTimes075(e.daysMin));
    Estimate(RoundTimes125(e.min), RoundTimes125(e.max), daysMin, Max(daysMin, FloorTimes085(e.daysMax)))
  }

  function FinalEstimate(s: ScopeState): Estimate {
    if s.deadline == Rush then RushAdjust(AdditiveEstimate(s)) else AdditiveEstimate(s)
  }

  // ---------------------------------------------------------------------------
  // Risks and deliverables

  const ScreenshotsRisk := "Screenshots only: expect minor interpretation decisions + extra review."
  const ScopeMayChange := "scope may change"
  const NoDesignRisk := "No design yet: " + ScopeMayChange + " as we finalize layout and components."
  const RushRisk := "Rush deadline: limited revision bandwidth; scope must be very clear."

  function DesignRisks(d: DesignSource): seq<string> {
    match d
    case Figma => []
    case Screenshots => [ScreenshotsRisk]
    case NoDesign => [NoDesignRisk]
  }

  /** `xs` with `x` pushed on when `c` holds. */
  function PushIf(xs: seq<string>, c: bool, x: string): seq<string> {
    if c then xs + [x] else xs
  }

  function Risks(s: ScopeState): seq<string> {
    PushIf(DesignRisks(s.designSource), s.deadline == Rush, RushRisk)
  }

  const BaseDeliverables: seq<string> := [
    "Responsive layout (mobile \U{2192} desktop)",
    "Clean component structure (React + TypeScript)",
    "Tailwind styling with consistent spacing + typography",
    "Accessible UI basics (labels, focus states)",
    "Professional handoff (run/build instructions)"
  ]
  const LandingDeliverable := "Conversion-friendly sections (hero, benefits, CTA, etc.)"
  const DashboardDeliverable := "Interactive UI (filters, tables, and chart skeleton)"
  const AnimationsDeliverable := "Polished animations (Framer Motion)"
  const FormsDeliverable := "Form validation + success state"
  const DeploymentDeliverable := "Deploy to Netlify/Vercel"

  /** The optional deliverables in the order they are appended. */
  const OptionalDeliverables: seq<string> :=
    [LandingDeliverable, DashboardDeliverable, AnimationsDeliverable, FormsDeliverable, DeploymentDeliverable]

  function Deliverables(s: ScopeState): seq<string> {
    var d := PushIf(BaseDeliverables, s.projectType == LandingPage, LandingDeliverable);
    var d := PushIf(d, s.projectType == Dashboard, DashboardDeliverable);
    var d := PushIf(d, s.animations != NoAnimations, AnimationsDeliverable);
    var d := PushIf(d, s.forms != NoForms, FormsDeliverable);
    PushIf(d, s.deployment, DeploymentDeliverable)
  }

  // ---------------------------------------------------------------------------
  // The summary

  function TimelineText(e: Estimate): string {
    IntToString(e.daysMin) + "\U{2013}" + IntToString(e.daysMax) + " " + Plural(e.daysMax, "day")
  }

  function PriceText(e: Estimate): string {
    FormatUSD(e.min) + " \U{2013} " + FormatUSD(e.max)
  }

  /** What `buildScopeSummary` returns for `s`, stated through the reference estimate. */
  function Summarize(s: ScopeState): ScopeSummary {
    var e := FinalEstimate(s);
    ScopeSummary(
      state := s,
      recommendedPackage := GetBase(s.projectType).packageName,
      priceText := PriceText(e),
      timelineText := TimelineText(e),
      deliverables := Deliverables(s),
      risks := Risks(s),
      projectTypeLabel := ProjectTypeLabel(s.projectType),
      designSourceLabel := DesignSourceLabel(s.designSource),
      animationsLabel := AnimationsLabel(s.animations),
      formsLabel := FormsLabel(s.forms))
  }

  /** The first section of `buildScopeSummary`: the base bracket plus the cost of the sections or
      pages beyond the ones the base price includes. */
  method PagesBounds(state: ScopeState) returns (min: int, max: int, daysMin: int, daysMax: int)
    ensures Estimate(min, max, daysMin, daysMax) == GetBase(state.projectType).estimate.Plus(PagesCost(state))
  {
    var base := GetBase(state.projectType).estimate;
    min, max, daysMin, daysMax := base.min, base.max, base.daysMin, base.daysMax;
    var extraUnits := Max(0, state.pagesOrSections - (if state.projectType == Bugfix then 1 else 3));
    min := min + extraUnits * 20;
    max := max + extraUnits * 45;
    daysMin := daysMin + CeilThird(extraUnits);
    daysMax := daysMax + CeilHalf(extraUnits);
  }

  /** The deliverables section of `buildScopeSummary`: the base list, then one line per option. */
  method CollectDeliverables(state: ScopeState) returns (deliverables: seq<string>)
    ensures deliverables == Deliverables(state)
  {
    deliverables := BaseDeliverables;
    if state.projectType == LandingPage { deliverables := deliverables + [LandingDeliverable]; }
    if state.projectType == Dashboard { deliverables := deliverables + [DashboardDeliverable]; }
    if state.animations != NoAnimations { deliverables := deliverables + [AnimationsDeliverable]; }
    if state.forms != NoForms { deliverables := deliverables + [FormsDeliverable]; }
    if state.deployment { deliverables := deliverables + [DeploymentDeliverable]; }
  }

  /** The animations, forms and deployment sections of `buildScopeSummary`: each chosen option
      adds its fixed amounts to the running bounds. */
  method AddOptions(state: ScopeState, min0: int, max0: int, daysMin0: int, daysMax0: int)
    returns (min: int, max: int, daysMin: int, daysMax: int)
    ensures Estimate(min, max, daysMin, daysMax) == Estimate(min0, max0, daysMin0, daysMax0)
      .Plus(AnimationsCost(state.animations)).Plus(FormsCost(state.forms)).Plus(DeploymentCost(state.deployment))
  {
    min, max, daysMin, daysMax := min0, max0, daysMin0, daysMax0;
    if state.animations == Basic {
      min, max, daysMax := min + 40, max + 80, daysMax + 1;
    }
    if state.animations == Premium {
      min, max, daysMin, daysMax := min + 80, max + 160, daysMin + 1, daysMax + 2;
    }

    if state.forms == Simple {
      min, max, daysMax := min + 35, max + 70, daysMax + 1;
    }
    if state.forms == Advanced {
      min, max, daysMin, daysMax := min + 75, max + 150, daysMin + 1, daysMax + 2;
    }

    if state.deployment {
      min, max := min + 25, max + 50;
    }
  }

  /** `buildScopeSummary`: the running bounds updated section by section, as the source does. */
  method BuildScopeSummary(state: ScopeState) returns (summary: ScopeSummary)
    ensures summary == Summarize(state)
  {
    var min, max, daysMin, daysMax := PagesBounds(state);
    min, max, daysMin, daysMax := AddOptions(state, min, max, daysMin, daysMax);

    // the design source adds risk and time
    var risks: seq<string> := [];
    if state.designSource == Screenshots {
      risks := risks + [ScreenshotsRisk];
      daysMax := daysMax + 1;
    }
    if state.designSource == NoDesign {
      risks := risks + [NoDesignRisk];
      daysMax := daysMax + 2;
      max := max + 120;
    }
    assert Estimate(min, max, daysMin, daysMax) == AdditiveEstimate(state);
    assert risks == DesignRisks(state.designSource);

    if state.deadline == Rush {
      risks := risks + [RushRisk];
      min := RoundTimes125(min);
      max := RoundTimes125(max);
      daysMin := Max(1, FloorTimes075(daysMin));
      daysMax := Max(daysMin, FloorTimes085(daysMax));
    }

    var deliverables := CollectDeliverables(state);
    var estimate := Estimate(min, max, daysMin, daysMax);
    assert estimate == FinalEstimate(state);
    summary := ScopeSummary(
      state := state,
      recommendedPackage := GetBase(state.projectType).packageName,
      priceText := PriceText(estimate),
      timelineText := TimelineText(estimate),
      deliverables := deliverables,
      risks := risks,
      projectTypeLabel := ProjectTypeLabel(state.projectType),
      designSourceLabel := DesignSourceLabel(state.designSource),
      animationsLabel := AnimationsLabel(state.animations),
      formsLabel := FormsLabel(state.forms));
  }

  // ---------------------------------------------------------------------------
  // Properties of the estimate

  /** Every modifier adds at least as much to the upper bounds as to the lower ones. */
  lemma ModifiersWiden(s: ScopeState)
    ensures PagesCost(s).Widening()
    ensures AnimationsCost(s.animations).Widening() && FormsCost(s.forms).Widening()
    ensures DeploymentCost(s.deployment).Widening() && DesignCost(s.designSource).Widening()
  {
    var e := ExtraUnits(s);
    assert CeilThird(e) <= CeilHalf(e);
  }

  lemma PlusWidening(a: Estimate, b: Estimate)
    requires a.Widening() && b.Widening()
    ensures a.Plus(b).Widening() && a.AtMost(a.Plus(b))
  {
  }

  /** Before the deadline step the bounds are ordered and the lower price is at least 79. */
  lemma {:induction false} AdditiveEstimateBounds(s: ScopeState)
    ensures var e := AdditiveEstimate(s); 79 <= e.min <= e.max && 1 <= e.daysMin <= e.daysMax
  {
    ModifiersWiden(s);
    var b := GetBase(s.projectType).estimate;
    var e1 := b.Plus(PagesCost(s));
    PlusWidening(b, PagesCost(s));
    var e2 := e1.Plus(AnimationsCost(s.animations));
    PlusWidening(e1, AnimationsCost(s.animations));
    var e3 := e2.Plus(FormsCost(s.forms));
    PlusWidening(e2, FormsCost(s.forms));
    var e4 := e3.Plus(DeploymentCost(s.deployment));
    PlusWidening(e3, DeploymentCost(s.deployment));
    PlusWidening(e4, DesignCost(s.designSource));
  }

  /** The final estimate is a well-formed range: `min <= max` and `1 <= daysMin <= daysMax`. */
  lemma EstimateBounds(s: ScopeState)
    ensures var e := FinalEstimate(s); 0 < e.min <= e.max && 1 <= e.daysMin <= e.daysMax
  {
    AdditiveEstimateBounds(s);
  }

  /** The upper day bound is always at least 2, so the timeline always reads "days". */
  lemma DaysMaxAtLeastTwo(s: ScopeState)
    ensures FinalEstimate(s).daysMax >= 2
    ensures TimelineText(FinalEstimate(s)) ==
      IntToString(FinalEstimate(s).daysMin) + "\U{2013}" + IntToString(FinalEstimate(s).daysMax) + " days"
  {
    var b := GetBase(s.projectType).estimate;
    AdditiveEstimateBounds(s);
    ModifiersWiden(s);
    assert AdditiveEstimate(s).daysMax >= b.daysMax >= 3;
  }

  lemma RushAdjustMonotone(a: Estimate, b: Estimate)
    requires a.AtMost(b)
    ensures RushAdjust(a).AtMost(RushAdjust(b))
  {
    assert FloorTimes075(a.daysMin) <= FloorTimes075(b.daysMin);
    assert FloorTimes085(a.daysMax) <= FloorTimes085(b.daysMax);
    assert RoundTimes125(a.min) <= RoundTimes125(b.min);
    assert RoundTimes125(a.max) <= RoundTimes125(b.max);
  }

  /** With everything else fixed, more pages never lower any bound, with or without rush. */
  lemma PagesMonotone(s: ScopeState, p: int, q: int)
    requires p <= q
    ensures FinalEstimate(s.(pagesOrSections := p)).AtMost(FinalEstimate(s.(pagesOrSections := q)))
  {
    var sp, sq := s.(pagesOrSections := p), s.(pagesOrSections := q);
    assert CeilThird(ExtraUnits(sp)) <= CeilThird(ExtraUnits(sq));
    assert CeilHalf(ExtraUnits(sp)) <= CeilHalf(ExtraUnits(sq));
    assert AdditiveEstimate(sp).AtMost(AdditiveEstimate(sq));
    if s.deadline == Rush {
      RushAdjustMonotone(AdditiveEstimate(sp), AdditiveEstimate(sq));
    }
  }

  /** Choosing rush never lowers either price bound. */
  lemma RushNeverLowersPrice(s: ScopeState)
    ensures FinalEstimate(s.(deadline := Rush)).min >= FinalEstimate(s.(deadline := Normal)).min
    ensures FinalEstimate(s.(deadline := Rush)).max >= FinalEstimate(s.(deadline := Normal)).max
  {
    AdditiveEstimateBounds(s);
    assert AdditiveEstimate(s.(deadline := Rush)) == AdditiveEstimate(s);
    assert AdditiveEstimate(s.(deadline := Normal)) == AdditiveEstimate(s);
  }

  /** Under rush: daysMin is max(1, floor(3d/4)), daysMax is clamped up to daysMin, neither day
      bound grows, both prices are the additive ones times 1.25 rounded, and the rush risk comes last. */
  lemma RushCompressesTimeline(s: ScopeState)
    requires s.deadline == Rush
    ensures var e, a := FinalEstimate(s), FinalEstimate(s.(deadline := Normal));
      && e.daysMin == Max(1, (3 * a.daysMin) / 4)
      && e.daysMin <= e.daysMax
      && e.daysMin <= a.daysMin && e.daysMax <= a.daysMax
      && e.min == RoundTimes125(a.min) && e.max == RoundTimes125(a.max)
    ensures |Risks(s)| > 0 && Risks(s)[|Risks(s)| - 1] == RushRisk
  {
    AdditiveEstimateBounds(s);
    assert AdditiveEstimate(s.(deadline := Normal)) == AdditiveEstimate(s);
  }

  // ---------------------------------------------------------------------------
  // Properties of the risks and deliverables

  /** No flags exactly for a Figma file on a normal deadline; never more than two. */
  lemma RisksShape(s: ScopeState)
    ensures Risks(s) == [] <==> s.designSource == Figma && s.deadline == Normal
    ensures |Risks(s)| <= 2
    ensures forall t: ScopeState | t.designSource == s.designSource && t.deadline == s.deadline ::
      Risks(t) == Risks(s)
  {
  }

  /** The no-design flag warns that the scope may change. */
  lemma NoDesignRiskWording()
    ensures Contains(NoDesignRisk, ScopeMayChange)
  {
    var lead := "No design yet: ";
    assert NoDesignRisk == lead + ScopeMayChange + " as we finalize layout and components.";
    assert NoDesignRisk[|lead|..] == ScopeMayChange + " as we finalize layout and components.";
    assert ScopeMayChange <= NoDesignRisk[|lead|..];
  }

  /** The no-design flag is raised exactly when there is no design. */
  lemma NoDesignFlagsScopeChange(s: ScopeState)
    ensures Contains(NoDesignRisk, ScopeMayChange)
    ensures NoDesignRisk in Risks(s) <==> s.designSource == NoDesign
  {
    NoDesignRiskWording();
    assert |NoDesignRisk| == 69;
    assert |ScreenshotsRisk| == 71 && |RushRisk| == 68;
  }

  /** Position of a line in the list of optional deliverables (5 for any other line). */
  function OptionalRank(line: string): nat {
    if line == LandingDeliverable then 0
    else if line == DashboardDeliverable then 1
    else if line == AnimationsDeliverable then 2
    else if line == FormsDeliverable then 3
    else if line == DeploymentDeliverable then 4
    else 5
  }

  /** The ten deliverable lines are pairwise distinct (they differ in length). */
  lemma DeliverableLinesDistinct()
    ensures forall i, j | 0 <= i < 5 && 0 <= j < 5 :: OptionalDeliverables[i] != BaseDeliverables[j]
    ensures forall i, j | 0 <= i < j < 5 :: OptionalDeliverables[i] != OptionalDeliverables[j]
  {
    assert |BaseDeliverables[0]| == 36 && |BaseDeliverables[1]| == 46 && |BaseDeliverables[2]| == 53;
    assert |BaseDeliverables[3]| == 43 && |BaseDeliverables[4]| == 45;
    assert |LandingDeliverable| == 56 && |DashboardDeliverable| == 52 && |AnimationsDeliverable| == 35;
    assert |FormsDeliverable| == 31 && |DeploymentDeliverable| == 24;
  }

  /** The deliverables are the five base items followed by the chosen optional lines. */
  lemma DeliverablesLength(s: ScopeState)
    ensures var d := Deliverables(s);
      && d[..5] == BaseDeliverables
      && |d| == 5 + (if s.projectType in {LandingPage, Dashboard} then 1 else 0)
                  + (if s.animations != NoAnimations then 1 else 0)
                  + (if s.forms != NoForms then 1 else 0)
                  + (if s.deployment then 1 else 0)
      && forall i | 5 <= i < |d| :: d[i] in OptionalDeliverables
  {
  }

  /** Whether the option behind the `k`-th optional deliverable is chosen. */
  predicate OptionChosen(s: ScopeState, k: int) {
    (k == 0 && s.projectType == LandingPage)
    || (k == 1 && s.projectType == Dashboard)
    || (k == 2 && s.animations != NoAnimations)
    || (k == 3 && s.forms != NoForms)
    || (k == 4 && s.deployment)
  }

  /** Each optional deliverable is listed exactly when its option is chosen. */
  lemma DeliverablesMembership(s: ScopeState, k: int)
    requires 0 <= k < 5
    ensures OptionalDeliverables[k] in Deliverables(s) <==> OptionChosen(s, k)
  {
    DeliverableLinesDistinct();
    var d := Deliverables(s);
    assert d == BaseDeliverables + d[5..];
    assert OptionalDeliverables[k] !in BaseDeliverables;
  }

  /** The optional lines come in the fixed order landing, dashboard, animations, forms, deployment. */
  lemma DeliverablesOrder(s: ScopeState)
    ensures var d := Deliverables(s);
      forall i, j | 5 <= i < j < |d| :: OptionalRank(d[i]) < OptionalRank(d[j])
  {
    DeliverableLinesDistinct();
    assert OptionalRank(LandingDeliverable) == 0;
    assert OptionalRank(DashboardDeliverable) == 1;
    assert OptionalRank(AnimationsDeliverable) == 2;
    assert OptionalRank(FormsDeliverable) == 3;
    assert OptionalRank(DeploymentDeliverable) == 4;
  }

  /** A summary carries the state it was built from, and its four labels name the state's
      enumerations: each decodes back to the state's value. */
  lemma SummaryLabels(s: ScopeState)
    ensures var sum := Summarize(s);
      && sum.state == s
      && ProjectTypeFromLabel(sum.projectTypeLabel) == Some(s.projectType)
      && DesignSourceFromLabel(sum.designSourceLabel) == Some(s.designSource)
      && AnimationsFromLabel(sum.animationsLabel) == Some(s.animations)
      && FormsFromLabel(sum.formsLabel) == Some(s.forms)
  {
    ProjectTypeLabelRoundTrip(s.projectType);
    DesignSourceLabelRoundTrip(s.designSource);
    AnimationsLabelRoundTrip(s.animations);
    FormsLabelRoundTrip(s.forms);
  }
}
