# Scope and quote engine of a freelance portfolio site, in Dafny

The site is a React portfolio with a Fiverr-oriented "fast quote" flow. Its one piece of real
logic is the quote engine:

- A seven-field scope state goes in: project type, design source, number of pages or sections,
  animations, forms, deployment and deadline.
- A summary comes out: a recommended package, a price range, a timeline, a list of deliverables
  and a list of risk flags.

Two renderers turn a summary into text:

- a plain-text scope document;
- a short message to paste into Fiverr.

Around the engine sit small client-side state machines:

- the three-step scope-builder wizard;
- the quick-quote dialog;
- a lead form with validation and a submit status;
- an analytics table with a sortable column;
- the expandable experience cards;
- a one-open FAQ accordion.

The project models each of these with its own module:

| module | file |
|---|---|
| `Text` | `text.dfy` |
| `ScopeModel` | `scope_model.dfy` |
| `ScopeText` | `scope_text.dfy` |
| `Profile` | `profile.dfy` |
| `ScopeBuilder` | `scope_builder.dfy` |
| `QuickQuote` | `quick_quote.dfy` |
| `LeadForm` | `lead_form.dfy` |
| `AnalyticsDashboard` | `analytics_dashboard.dfy` |
| `Experience` | `experience.dfy` |
| `Faq` | `faq.dfy` |

`Text` holds the JavaScript string primitives the engine relies on: `join("\n")` and its
inverse, `trim`, number-to-string, and the en-US currency format.

**How the engine is modelled**

- `ScopeModel.BuildScopeSummary` is the source's accumulator code. It is proved equal to
  `ScopeModel.Summarize`, a reference definition: the base bracket plus a sum of per-option cost
  vectors, followed by the rush adjustment.
- The bounds, monotonicity and list-shape properties are proved about that reference.
- The JavaScript arithmetic is written out on integers:

  | JavaScript | Dafny |
  |---|---|
  | `Math.round(n * 1.25)` | `(5n + 2) / 4` |
  | `Math.floor(d * 0.75)` | `3d / 4` |
  | `Math.floor(d * 0.85)` | `17d / 20` |
  | `Math.ceil(e / 3)` | `(e + 2) / 3` |
  | `Math.ceil(e / 2)` | `(e + 1) / 2` |

  All operands are non-negative. For `0.85` the day counts stay small, so the double product
  never crosses an integer boundary.

**The scope-builder demo**

- `ScopeBuilderDemo.tsx` carries its own copy of the label tables, `getBase` and the summary
  builder. That copy matches `scopeModel.ts` apart from `export` keywords, the function's name and
  signature (its return type is inferred) and whitespace. One engine therefore serves both.
- The demo's `buildScopeText` differs from the shared renderer only in always writing the NEXT
  STEP block with the profile's Fiverr link. `ScopeBuilder.BuildDemoScopeText` is proved to
  equal the shared renderer given that link.

**How the state machines are modelled**

- Component state that the source updates through React setters is a Dafny `class`:
  `ScopeBuilder.Wizard`, `QuickQuote.QuickQuote`, `LeadForm.LeadFormDemo` and
  `AnalyticsDashboard.Dashboard`. Each setter is a method whose contract gives the new state.
- The pure updaters of the experience cards and the FAQ are functions.
- The table sort copies the range's rows into a fresh array and sorts that array in place, as
  the source's `[...rows].sort(cmp)` does.
- Conversion rates, which have three decimals in the data, are held in thousandths.

## Model

| member | source | states |
|---|---|---|
| ScopeModel.BuildScopeSummary | src/features/conversion/scopeModel.ts:79-179 | the accumulator code (base, page units, animations, forms, deployment, design source, rush, deliverables, texts, labels) yields exactly the reference summary `Summarize(state)`; the demo's `buildSummary` (src/features/projects/demos/ScopeBuilderDemo.tsx:117-216) is the same code |
| ScopeModel.Summarize | src/features/conversion/scopeModel.ts:167-178 | the reference summary: the state, the package of its base, price and timeline texts of the final estimate, the deliverables, the risks and the four labels; `BuildScopeSummary` is proved to return it |
| ScopeModel.GetBase | src/features/conversion/scopeModel.ts:66-77 | the base bracket and package per project type (`getBase`); every bracket starts at 79 dollars or more and has upper price and days strictly above the lower ones |
| ScopeModel.AdditiveEstimate | src/features/conversion/scopeModel.ts:80-137 | the estimate before the deadline is considered: the base bracket plus the page, animations, forms, deployment and design-source cost vectors; its bounds are the ensures of `AdditiveEstimateBounds` |
| ScopeModel.Estimate.Plus | src/features/conversion/scopeModel.ts:90-137 | the four `+=` updates of one modifier, component by component; `PlusWidening` states what adding a widening vector does |
| ScopeModel.RushAdjust | src/features/conversion/scopeModel.ts:139-146 | the rush adjustment; the days come out ordered with daysMin at least 1 and at most the old daysMin, and neither non-negative price is lowered |
| ScopeModel.FinalEstimate | src/features/conversion/scopeModel.ts:79-146 | the final estimate, the rush adjustment applied only on a rush deadline; its bounds are the ensures of `EstimateBounds` and `PagesMonotone` |
| ScopeModel.Risks | src/features/conversion/scopeModel.ts:127-146 | the risk flags: the design-source flag, then the rush flag; their shape is the ensures of `RisksShape` |
| ScopeModel.Deliverables | src/features/conversion/scopeModel.ts:148-162 | the deliverable list: the five base lines, then each optional line whose option is chosen; its shape is the ensures of `DeliverablesLength`, `DeliverablesMembership` and `DeliverablesOrder` |
| ScopeModel.TimelineText | src/features/conversion/scopeModel.ts:164 | "daysMin–daysMax day(s)"; `DaysMaxAtLeastTwo` shows "days" is always chosen |
| ScopeModel.PriceText | src/features/conversion/scopeModel.ts:165 | the two prices in currency format, joined by " – " |
| ScopeModel.FreeUnits | src/features/conversion/scopeModel.ts:89 | the pages included in the base price: 1 for a bug fix, 3 otherwise |
| ScopeModel.ExtraUnits | src/features/conversion/scopeModel.ts:89 | `Math.max(0, pages - included)`; its cost is stated by `PagesBounds` and `PagesMonotone` |
| ScopeModel.PagesCost | src/features/conversion/scopeModel.ts:90-93 | the page cost vector: 20 and 45 dollars per extra unit, `ceil(e/3)` and `ceil(e/2)` days; `ModifiersWiden` shows it widens the range |
| ScopeModel.AnimationsCost | src/features/conversion/scopeModel.ts:95-106 | the animation cost vector (basic +40/+80 and a day on the upper side, premium +80/+160 and 1 to 2 days); stated by `AddOptions` and `ModifiersWiden` |
| ScopeModel.FormsCost | src/features/conversion/scopeModel.ts:108-119 | the forms cost vector (simple +35/+70 and a day on the upper side, advanced +75/+150 and 1 to 2 days); stated by `AddOptions` and `ModifiersWiden` |
| ScopeModel.DeploymentCost | src/features/conversion/scopeModel.ts:121-125 | the deployment cost vector, +25/+50; stated by `AddOptions` and `ModifiersWiden` |
| ScopeModel.DesignCost | src/features/conversion/scopeModel.ts:127-137 | the design-source cost vector (screenshots a day on the upper side, no design 2 days and 120 dollars); stated by `AddOptions` and `ModifiersWiden` |
| ScopeModel.DesignRisks | src/features/conversion/scopeModel.ts:128-137 | the design-source flag, none for a Figma file; stated by `RisksShape` and `NoDesignFlagsScopeChange` |
| ScopeModel.RoundTimes125 | src/features/conversion/scopeModel.ts:141-142 | `Math.round(n * 1.25)` on integers; `RushNeverLowersPrice` and `RushAdjustMonotone` state its effect |
| ScopeModel.FloorTimes075 | src/features/conversion/scopeModel.ts:143 | `Math.floor(d * 0.75)`; stated through `RushCompressesTimeline` |
| ScopeModel.FloorTimes085 | src/features/conversion/scopeModel.ts:144 | `Math.floor(d * 0.85)`; stated through `RushCompressesTimeline` and `DaysMaxAtLeastTwo` |
| ScopeModel.ProjectTypeLabel | src/features/conversion/scopeModel.ts:29-34 | the project-type label table; `ProjectTypeLabelRoundTrip` proves it injective and `ProjectTypeLabelNoNewline` single-line |
| ScopeModel.DesignSourceLabel | src/features/conversion/scopeModel.ts:36-40 | the design-source label table; `DesignSourceLabelRoundTrip` proves it injective and `DesignSourceLabelNoNewline` single-line |
| ScopeModel.AnimationsLabel | src/features/conversion/scopeModel.ts:42-46 | the animation label table; `AnimationsLabelRoundTrip` proves it injective and single-line |
| ScopeModel.FormsLabel | src/features/conversion/scopeModel.ts:48-52 | the forms label table; `FormsLabelRoundTrip` proves it injective and single-line |
| ScopeModel.PagesBounds | src/features/conversion/scopeModel.ts:80-93 | the first section leaves the base bracket plus `extraUnits*20`, `extraUnits*45`, `ceil(extraUnits/3)`, `ceil(extraUnits/2)` |
| ScopeModel.AddOptions | src/features/conversion/scopeModel.ts:95-137 | the option sections add exactly the animations, forms, deployment and design-source cost vectors |
| ScopeModel.CollectDeliverables | src/features/conversion/scopeModel.ts:149-162 | the pushes produce the reference deliverable list |
| ScopeModel.EstimateBounds | src/features/conversion/scopeModel.ts:79-146 | for every state the final range is well formed: `0 < min <= max` and `1 <= daysMin <= daysMax` (no precondition on the page count is needed, since negative surpluses clamp to 0) |
| ScopeModel.AdditiveEstimateBounds | src/features/conversion/scopeModel.ts:80-137 | before rush every bound is ordered and the lower price is at least 79, because each modifier adds at least as much to the upper side |
| ScopeModel.ModifiersWiden | src/features/conversion/scopeModel.ts:88-137 | each modifier's cost vector is non-negative and widens the range |
| ScopeModel.PlusWidening | src/features/conversion/scopeModel.ts:88-137 | adding a widening vector to a well-formed range keeps it well formed and raises no bound |
| ScopeModel.CeilThird | src/features/conversion/scopeModel.ts:92 | the result is the least r with 3r >= n |
| ScopeModel.CeilHalf | src/features/conversion/scopeModel.ts:93 | the result is the least r with 2r >= n |
| ScopeModel.PagesMonotone | src/features/conversion/scopeModel.ts:89-93 | with everything else fixed, more pages never lower min, max, daysMin or daysMax, with or without rush |
| ScopeModel.RushAdjustMonotone | src/features/conversion/scopeModel.ts:140-146 | the rush adjustment preserves the component-wise order of estimates |
| ScopeModel.RushNeverLowersPrice | src/features/conversion/scopeModel.ts:140-143 | rush never lowers either price bound |
| ScopeModel.RushCompressesTimeline | src/features/conversion/scopeModel.ts:140-146 | under rush daysMin is `max(1, floor(3d/4))` of the normal daysMin, daysMax is at least daysMin, and the rush flag is the last risk |
| ScopeModel.DaysMaxAtLeastTwo | src/features/conversion/scopeModel.ts:164 | daysMax is always at least 2, so the timeline always ends in "days" |
| ScopeModel.Plural | src/features/conversion/scopeModel.ts:62-64 | the singular word is returned exactly when n is 1 |
| ScopeModel.Clamp | src/features/conversion/scopeModel.ts:54-56 | with min <= max the result lies in [min, max] and equals n when n is inside; the demo's copy is src/features/projects/demos/ScopeBuilderDemo.tsx:58-60 |
| ScopeModel.RisksShape | src/features/conversion/scopeModel.ts:128-146 | no risks exactly for a Figma file on a normal deadline; at most two; the risks depend only on design source and deadline |
| ScopeModel.NoDesignFlagsScopeChange | src/features/conversion/scopeModel.ts:133-137 | the no-design flag is raised exactly when there is no design, and it says "scope may change" |
| ScopeModel.NoDesignRiskWording | src/features/conversion/scopeModel.ts:134 | the no-design flag contains "scope may change" |
| ScopeModel.DeliverablesLength | src/features/conversion/scopeModel.ts:149-162 | the list starts with the five base items in order, then only optional lines; its length is 5 plus one per chosen option (5 to 8) |
| ScopeModel.DeliverablesMembership | src/features/conversion/scopeModel.ts:158-162 | each optional line is listed exactly when its option is chosen |
| ScopeModel.DeliverablesOrder | src/features/conversion/scopeModel.ts:158-162 | the optional lines come in the order landing, dashboard, animations, forms, deployment |
| ScopeModel.DeliverableLinesDistinct | src/features/conversion/scopeModel.ts:149-162 | the ten deliverable texts are pairwise distinct |
| ScopeModel.SummaryLabels | src/features/conversion/scopeModel.ts:167-178 | the summary copies the state and its four labels decode back to the state's values |
| ScopeModel.ProjectTypeLabelRoundTrip | src/features/conversion/scopeModel.ts:29-34 | the project-type label table is injective |
| ScopeModel.DesignSourceLabelRoundTrip | src/features/conversion/scopeModel.ts:36-40 | the design-source label table is injective |
| ScopeModel.AnimationsLabelRoundTrip | src/features/conversion/scopeModel.ts:42-46 | the animation label table is injective and its labels are single lines |
| ScopeModel.FormsLabelRoundTrip | src/features/conversion/scopeModel.ts:48-52 | the forms label table is injective and its labels are single lines |
| ScopeModel.ProjectTypeLabelNoNewline | src/features/conversion/scopeModel.ts:29-34 | every project-type label is a single line |
| ScopeModel.DesignSourceLabelNoNewline | src/features/conversion/scopeModel.ts:36-40 | every design-source label is a single line |
| ScopeModel.UiConversionLabelNoNewline | src/features/conversion/scopeModel.ts:30 | the UI conversion label is a single line |
| ScopeModel.NoDesignLabelNoNewline | src/features/conversion/scopeModel.ts:39 | the no-design label is a single line |
| ScopeText.BuildScopeText | src/features/conversion/scopeModel.ts:181-215 | the line-by-line pushes produce `Join` of the reference line list: header, seven fields, estimate, one `- ` line per deliverable, the RISK FLAGS block, the NEXT STEP block |
| ScopeText.ScopeTextLines | src/features/conversion/scopeModel.ts:181-213 | the reference line list of the scope document that `BuildScopeText` is proved to join; its shape is stated by `ScopeTextLength`, `HeadLinesShape`, `ScopeTextRiskFlags`, `ScopeTextNextStep` and its parse-back by `ScopeTextRoundTrip` |
| ScopeText.FieldLines | src/features/conversion/scopeModel.ts:185-191 | the seven field lines; `FieldLinesRoundTrip` proves they parse back to the state |
| ScopeText.YesNo | src/features/conversion/scopeModel.ts:190 | "Yes" or "No" for the deployment flag; `DeploymentLine` reads it back |
| ScopeText.DeadlineName | src/features/conversion/scopeModel.ts:191 | "Rush" or "Normal" for the deadline; `DeadlineLine` reads it back |
| ScopeText.EstimateLines | src/features/conversion/scopeModel.ts:192-197 | the estimate block: blank line, header, rule, package, price and timeline |
| ScopeText.HeadLines | src/features/conversion/scopeModel.ts:183-200 | the fixed head of the document; laid out by `HeadLinesShape` |
| ScopeText.RiskBlock | src/features/conversion/scopeModel.ts:202-207 | the RISK FLAGS block, empty without risks; stated by `ScopeTextRiskFlags` and `RiskHeaderIff` |
| ScopeText.HasUrl | src/features/conversion/scopeModel.ts:208 | the truthiness of `opts?.fiverrUrl`: present and non-empty |
| ScopeText.NextStepBlock | src/features/conversion/scopeModel.ts:208-213 | the NEXT STEP block naming the link, empty without one; stated by `ScopeTextNextStep` and `NextStepHeaderIff` |
| ScopeText.PushHead | src/features/conversion/scopeModel.ts:183-200 | the fixed head is 18 lines: header, fields, estimate and the deliverables header |
| ScopeText.PushFields | src/features/conversion/scopeModel.ts:185-191 | the seven field lines are appended |
| ScopeText.PushEstimate | src/features/conversion/scopeModel.ts:192-197 | the six estimate lines are appended |
| ScopeText.PushBullets | src/features/conversion/scopeModel.ts:201 | the loop appends one `- ` line per item, in order |
| ScopeText.PushRiskFlags | src/features/conversion/scopeModel.ts:202-207 | the risk block is appended exactly when there are risks |
| ScopeText.Bullets | src/features/conversion/scopeModel.ts:201 | one line per item, the i-th being `- ` followed by the i-th item |
| ScopeText.ScopeTextRoundTrip | src/features/conversion/scopeModel.ts:183-191 | splitting the document at newlines and reading lines 3 to 9 recovers the scope state, given labels from the tables |
| ScopeText.SummaryTextRoundTrip | src/features/conversion/scopeModel.ts:79-215 | the document of a summary determines the state it was computed from |
| ScopeText.FieldLinesRoundTrip | src/features/conversion/scopeModel.ts:185-191 | the field block parses back to the state and has no embedded newline |
| ScopeText.ProjectTypeLine | src/features/conversion/scopeModel.ts:185 | the project type field line is a single line and reads back as the state's project type |
| ScopeText.DesignSourceLine | src/features/conversion/scopeModel.ts:186 | the design source field line is a single line and reads back as the state's design source |
| ScopeText.PagesLine | src/features/conversion/scopeModel.ts:187 | the pages field line is a single line and reads back as the state's pages |
| ScopeText.AnimationsLine | src/features/conversion/scopeModel.ts:188 | the animations field line is a single line and reads back as the state's animations |
| ScopeText.FormsLine | src/features/conversion/scopeModel.ts:189 | the forms field line is a single line and reads back as the state's forms |
| ScopeText.DeploymentLine | src/features/conversion/scopeModel.ts:190 | the deployment field line is a single line and reads back as the state's deployment |
| ScopeText.DeadlineLine | src/features/conversion/scopeModel.ts:191 | the deadline field line is a single line and reads back as the state's deadline |
| ScopeText.HeadLinesShape | src/features/conversion/scopeModel.ts:183-200 | the fixed headers sit at lines 1, 2, 10 to 12 and 16 to 18 of the head |
| ScopeText.ScopeTextLength | src/features/conversion/scopeModel.ts:181-214 | the document has 18 + deliverables lines, plus 3 + risks with risks, plus 4 with a link |
| ScopeText.ScopeTextSplitsAtBullets | src/features/conversion/scopeModel.ts:183-201 | the head is followed by exactly the deliverable bullets |
| ScopeText.ScopeTextRiskFlags | src/features/conversion/scopeModel.ts:202-207 | with risks, the deliverables are followed by the RISK FLAGS header and one bullet per risk; without, by the NEXT STEP part only |
| ScopeText.ScopeTextNextStep | src/features/conversion/scopeModel.ts:208-213 | with a non-empty link the last four lines are the NEXT STEP block naming it; otherwise the document ends with the risks |
| ScopeText.RiskHeaderIff | src/features/conversion/scopeModel.ts:202-207 | the RISK FLAGS header appears exactly when there are risks |
| ScopeText.NextStepHeaderIff | src/features/conversion/scopeModel.ts:208-213 | the NEXT STEP header appears exactly when the link is a non-empty string |
| ScopeText.NotABullet | src/features/conversion/scopeModel.ts:201 | a line not starting with `-` is never one of the bullets |
| ScopeText.RiskHeaderNotInHead | src/features/conversion/scopeModel.ts:183-204 | the RISK FLAGS header is none of the head lines |
| ScopeText.NextStepHeaderNotInHead | src/features/conversion/scopeModel.ts:183-210 | the NEXT STEP header is none of the head lines |
| ScopeText.TopLinesNoNewline | src/features/conversion/scopeModel.ts:183-184 | the document header and rule are single lines |
| ScopeText.BuildFiverrMessage | src/features/conversion/scopeModel.ts:217-241 | the pushes produce `Join` of the reference message lines |
| ScopeText.FiverrMessageLines | src/features/conversion/scopeModel.ts:222-240 | the reference line list of the message that `BuildFiverrMessage` is proved to join; its layout is stated by `FiverrMessageShape`, `NotesHeaderIff` and `FiverrMessageEnds` |
| ScopeText.Greeting | src/features/conversion/scopeModel.ts:223 | the greeting line naming the project-type label |
| ScopeText.MessageTopLines | src/features/conversion/scopeModel.ts:223-230 | greeting, blank line, design line, then the fact lines |
| ScopeText.Filled | src/features/conversion/scopeModel.ts:225 | the truthiness of `s?.trim()`; characterised by `FilledIff` |
| ScopeText.DesignText | src/features/conversion/scopeModel.ts:225 | the trimmed link, or "(will send)"; characterised by `DesignLine` |
| ScopeText.MessageFactLines | src/features/conversion/scopeModel.ts:226-230 | the pages, deadline, estimate and package lines |
| ScopeText.NotesBlock | src/features/conversion/scopeModel.ts:232-236 | the notes block with the trimmed notes, empty for blank notes; stated by `NotesHeaderIff` |
| ScopeText.PushGreeting | src/features/conversion/scopeModel.ts:223-225 | greeting, blank line and the design line with the trimmed link or "(will send)" |
| ScopeText.PushMessageFacts | src/features/conversion/scopeModel.ts:226-230 | pages, deadline, estimate and package lines |
| ScopeText.PushNotes | src/features/conversion/scopeModel.ts:232-236 | the notes block holds the trimmed notes and is appended only when they are not blank |
| ScopeText.DesignLine | src/features/conversion/scopeModel.ts:225 | the design line shows "(will send)" exactly for a missing or blank link, otherwise the trimmed link |
| ScopeText.FilledIff | src/features/conversion/scopeModel.ts:225-232 | a value counts as given exactly when it is present and not all whitespace |
| ScopeText.FiverrMessageShape | src/features/conversion/scopeModel.ts:222-240 | 10 lines, or 13 with notes; greeting first, design line third, the notes block at lines 9 to 11, the question last |
| ScopeText.NotesHeaderIff | src/features/conversion/scopeModel.ts:232-236 | the Notes header appears exactly when the notes are not blank |
| ScopeText.FiverrMessageEnds | src/features/conversion/scopeModel.ts:223-239 | the message starts with the greeting naming the project type and ends with the confirmation question |
| Text.SplitJoin | src/features/conversion/scopeModel.ts:214 | splitting a newline join of single-line strings gives the strings back |
| Text.Join | src/features/conversion/scopeModel.ts:214 | `lines.join("\n")`; inverted by `Split`, as `SplitJoin` states |
| Text.Split | src/features/conversion/scopeModel.ts:214 | splitting at newlines, the inverse of the join; it always yields at least one line |
| Text.Trim | src/features/conversion/scopeModel.ts:225 | `trim()`: the text without leading and trailing ECMAScript whitespace; its shape is the ensures of `TrimShape` and `TrimEmptyIff` |
| Text.IsSpace | src/features/conversion/scopeModel.ts:225 | the ECMAScript white space and line terminator characters that `trim()` and `\s` remove |
| Text.TrimStart | src/features/conversion/scopeModel.ts:225 | `trimStart()`; characterised by `TrimStartShape` |
| Text.TrimEnd | src/features/conversion/scopeModel.ts:225 | `trimEnd()`; characterised by `TrimEndShape` |
| Text.FormatUSD | src/features/conversion/scopeModel.ts:58-60 | the en-US whole-dollar currency format; its shape is the ensures of `FormatUSDDigits` |
| Text.NatToString | src/features/conversion/scopeModel.ts:164 | the decimal digits of a count, with no leading zero |
| Text.GroupThousands | src/features/conversion/scopeModel.ts:58-60 | comma grouping of a digit string in threes from the right; `GroupThousandsDigits` shows removing the commas gives the digits back |
| Text.GroupThousandsDigits | src/features/conversion/scopeModel.ts:58-60 | removing the commas from a grouped digit string gives the digits back |
| Text.Utf16Length | src/features/projects/demos/LandingLeadFormDemo.tsx:45 | `.length` of a string: UTF-16 code units, between the number of characters and twice it, and equal to it exactly when no character is astral |
| Text.Utf16LengthAppend | src/features/projects/demos/LandingLeadFormDemo.tsx:45 | the length of a concatenation is the sum of the lengths |
| Text.JoinEnds | src/features/conversion/scopeModel.ts:214-240 | a join starts with its first line and ends with its last |
| Text.TrimEmptyIff | src/features/conversion/scopeModel.ts:225-232 | the trimmed text is empty exactly when the text is all whitespace |
| Text.TrimShape | src/features/conversion/scopeModel.ts:225-235 | the trimmed text is a slice of the text that neither starts nor ends with whitespace |
| Text.TrimStartShape | src/features/conversion/scopeModel.ts:225 | leading whitespace is dropped and only that |
| Text.TrimEndShape | src/features/conversion/scopeModel.ts:225 | trailing whitespace is dropped and only that |
| Text.ParseIntToString | src/features/conversion/scopeModel.ts:187 | the decimal rendering of a page count reads back as that count |
| Text.FormatUSDDigits | src/features/conversion/scopeModel.ts:58-60 | the currency text of a whole-dollar amount is "$" followed by its decimal digits with comma separators |
| Text.IntToString | src/features/conversion/scopeModel.ts:187 | the decimal rendering is a single line |
| ScopeBuilder.BuildDemoScopeText | src/features/projects/demos/ScopeBuilderDemo.tsx:83-115 | the demo's renderer is the shared renderer given the profile's Fiverr link |
| ScopeBuilder.DemoScopeTextEndsWithNextStep | src/features/projects/demos/ScopeBuilderDemo.tsx:109-113 | the demo document always ends with the NEXT STEP block, its last line naming the profile link |
| ScopeBuilder.FiverrLinkGiven | src/data/profile.ts:158 | the profile link is a non-empty string |
| ScopeBuilder.DefaultEstimate | src/features/projects/demos/ScopeBuilderDemo.tsx:222-230 | the default selections quote 164 to 329 dollars over 2 to 4 days |
| ScopeBuilder.DefaultBase | src/features/projects/demos/ScopeBuilderDemo.tsx:222-230 | the default selections start from the 99 to 199 dollar, 2 to 3 day bracket, the three pages being included |
| ScopeBuilder.DefaultOptions | src/features/projects/demos/ScopeBuilderDemo.tsx:222-230 | basic animations and deployment add 65 to 130 dollars and a day; no forms and a Figma file add nothing |
| ScopeBuilder.DefaultQuote | src/features/projects/demos/ScopeBuilderDemo.tsx:222-230 | the defaults recommend "Rapid UI Conversion", raise no flag and list 7 deliverables |
| ScopeBuilder.DefaultQuoteTexts | src/features/projects/demos/ScopeBuilderDemo.tsx:201-202 | that estimate reads "$164 – $329" and "2–4 days" |
| ScopeBuilder.RiskCardShows | src/features/projects/demos/ScopeBuilderDemo.tsx:484-495 | "No flags" exactly when there are no risks; otherwise the first min(3, n) risks in order |
| ScopeBuilder.RiskCard | src/features/projects/demos/ScopeBuilderDemo.tsx:484-495 | the risk card: "No flags" without risks, otherwise the first three risks; stated by `RiskCardShows` |
| ScopeBuilder.RiskCardShowsAllRisks | src/features/projects/demos/ScopeBuilderDemo.tsx:484-495 | a summary's risks all fit on the card |
| ScopeBuilder.Wizard.constructor | src/features/projects/demos/ScopeBuilderDemo.tsx:218-230 | step 0 and the default selections |
| ScopeBuilder.Wizard.BackDisabled | src/features/projects/demos/ScopeBuilderDemo.tsx:294 | the Back button is disabled on the first step |
| ScopeBuilder.Wizard.NextDisabled | src/features/projects/demos/ScopeBuilderDemo.tsx:301 | the Next button is disabled on the last step |
| ScopeBuilder.Wizard.Summary | src/features/projects/demos/ScopeBuilderDemo.tsx:232 | the summary memo: the engine's summary of the current selections |
| ScopeBuilder.Wizard.ScopeDocument | src/features/projects/demos/ScopeBuilderDemo.tsx:233 | the scope-text memo: the demo document of that summary |
| ScopeBuilder.Wizard.Back | src/features/projects/demos/ScopeBuilderDemo.tsx:294-295 | the step becomes `clamp(step - 1, 0, 2)`, stays in range and moves back by one unless at 0 |
| ScopeBuilder.Wizard.Next | src/features/projects/demos/ScopeBuilderDemo.tsx:301-302 | the step becomes `clamp(step + 1, 0, 2)`, stays in range and moves on by one unless at 2 |
| ScopeBuilder.StepMoves | src/features/projects/demos/ScopeBuilderDemo.tsx:235-302 | from a step in range, Back and Next move by one except at the end where their button is disabled |
| ScopeBuilder.Wizard.SetProjectType | src/features/projects/demos/ScopeBuilderDemo.tsx:322 | only the project type changes |
| ScopeBuilder.Wizard.SetDesignSource | src/features/projects/demos/ScopeBuilderDemo.tsx:334 | only the design source changes |
| ScopeBuilder.Wizard.SetPages | src/features/projects/demos/ScopeBuilderDemo.tsx:350-354 | only the page count changes, to a value of the 1 to 12 slider |
| ScopeBuilder.Wizard.SetAnimations | src/features/projects/demos/ScopeBuilderDemo.tsx:368 | only the animations choice changes |
| ScopeBuilder.Wizard.SetForms | src/features/projects/demos/ScopeBuilderDemo.tsx:380 | only the forms choice changes |
| ScopeBuilder.Wizard.ToggleDeployment | src/features/projects/demos/ScopeBuilderDemo.tsx:397 | only deployment changes, to its negation |
| ScopeBuilder.Wizard.SetDeadline | src/features/projects/demos/ScopeBuilderDemo.tsx:420 | only the deadline changes |
| QuickQuote.ComposeScopeState | src/features/conversion/QuickQuoteModal.tsx:35-47 | the four selections are kept and animations basic, forms none and deployment on are fixed |
| QuickQuote.QuickQuoteDeliverables | src/features/conversion/QuickQuoteModal.tsx:35-49 | whatever is chosen, the quick quote lists the animations and deployment lines and never the forms line |
| QuickQuote.FiverrHref | src/features/conversion/QuickQuoteModal.tsx:25 | the gig link when present, otherwise the profile link |
| QuickQuote.ProfileHref | src/features/conversion/QuickQuoteModal.tsx:25 | with the site's profile data the dialog links to the Fiverr profile |
| QuickQuote.QuickQuote.constructor | src/features/conversion/QuickQuoteModal.tsx:27-32 | uiConversion, figma, empty link, 3 pages, normal deadline, empty notes |
| QuickQuote.QuickQuote.ScopeState | src/features/conversion/QuickQuoteModal.tsx:35-47 | the scope state the dialog quotes, from `ComposeScopeState` over the four selections |
| QuickQuote.QuickQuote.Summary | src/features/conversion/QuickQuoteModal.tsx:49 | the engine's summary of that state |
| QuickQuote.QuickQuote.Message | src/features/conversion/QuickQuoteModal.tsx:51-59 | the Fiverr message of that summary with the design link and notes |
| QuickQuote.QuickQuote.SetProjectType | src/features/conversion/QuickQuoteModal.tsx:131 | only the project type changes |
| QuickQuote.QuickQuote.SetDesignSource | src/features/conversion/QuickQuoteModal.tsx:150 | only the design source changes |
| QuickQuote.QuickQuote.SetDeadline | src/features/conversion/QuickQuoteModal.tsx:168 | only the deadline changes |
| QuickQuote.QuickQuote.SetPagesOrSections | src/features/conversion/QuickQuoteModal.tsx:181-184 | only the page count changes, to a value of the 1 to 12 slider |
| QuickQuote.QuickQuote.SetDesignLink | src/features/conversion/QuickQuoteModal.tsx:202 | only the link changes; the preview summary stays the same and the message is rebuilt around it with the new link |
| QuickQuote.QuickQuote.SetNotes | src/features/conversion/QuickQuoteModal.tsx:215 | only the notes change; the preview summary stays the same and the message is rebuilt around it with the new notes |
| QuickQuote.MessageMentionsSelections | src/features/conversion/QuickQuoteModal.tsx:51-59 | the dialog's message greets with the chosen project type and shows the trimmed link or "(will send)" |
| LeadForm.ValidEmailIff | src/features/projects/demos/LandingLeadFormDemo.tsx:16-19 | the check accepts exactly the texts whose trimmed form matches `^[^\s@]+@[^\s@]+\.[^\s@]+$`, read as a choice of the `@` and the `.` |
| LeadForm.IsValidEmail | src/features/projects/demos/LandingLeadFormDemo.tsx:16-19 | the e-mail check on the trimmed text; `ValidEmailIff` proves it accepts exactly the texts the pattern matches |
| LeadForm.MatchesEmailPattern | src/features/projects/demos/LandingLeadFormDemo.tsx:18 | an independent reading of `^[^\s@]+@[^\s@]+\.[^\s@]+$`: an `@` and a later `.` split the text into three non-empty runs without whitespace or `@`; `ValidEmailIff` ties it to the check |
| LeadForm.ErrorFor | src/features/projects/demos/LandingLeadFormDemo.tsx:40-49 | the error `validate` records for one field; stated case by case in `NameAndCompanyErrors`, `EmailErrors` and `MessageErrors` |
| LeadForm.CanSubmit | src/features/projects/demos/LandingLeadFormDemo.tsx:31-33 | a non-blank name and a valid e-mail; `CanSubmitIff` ties it to the validation errors |
| LeadForm.HasErrors | src/features/projects/demos/LandingLeadFormDemo.tsx:56 | `Object.keys(nextErrors).length > 0`: some field has an error; used by `OnSubmit` |
| LeadForm.AcceptedMatches | src/features/projects/demos/LandingLeadFormDemo.tsx:18 | an accepted trimmed text matches the pattern |
| LeadForm.MatchesAccepted | src/features/projects/demos/LandingLeadFormDemo.tsx:18 | a trimmed text matching the pattern is accepted |
| LeadForm.IndexOf | src/features/projects/demos/LandingLeadFormDemo.tsx:18 | the first position of a character, or none when it does not occur |
| LeadForm.IndexOfFirst | src/features/projects/demos/LandingLeadFormDemo.tsx:18 | a position holding the character with none before it is the one found |
| LeadForm.AllPartCharsSlice | src/features/projects/demos/LandingLeadFormDemo.tsx:18 | a slice of a run of `[^\s@]` characters is again such a run |
| LeadForm.Validate | src/features/projects/demos/LandingLeadFormDemo.tsx:40-49 | the record filled field by field holds, for each field, exactly the error the rules give, the message length counted in UTF-16 code units |
| LeadForm.NameAndCompanyErrors | src/features/projects/demos/LandingLeadFormDemo.tsx:42 | a name error exactly for a blank name; the company never errs |
| LeadForm.EmailErrors | src/features/projects/demos/LandingLeadFormDemo.tsx:43-44 | "enter your email" exactly for a blank field, "valid email" exactly for a non-blank text the pattern rejects, otherwise none |
| LeadForm.MessageErrors | src/features/projects/demos/LandingLeadFormDemo.tsx:45-47 | a message error exactly when the trimmed message has 1 to 9 UTF-16 code units, i.e. is not blank and shorter than 10; without astral characters that is 1 to 9 characters |
| LeadForm.FiveEmojiMessageAccepted | src/features/projects/demos/LandingLeadFormDemo.tsx:45-47 | five emoji are five characters but ten UTF-16 code units, so they pass the ten-unit minimum |
| LeadForm.CanSubmitIff | src/features/projects/demos/LandingLeadFormDemo.tsx:31-49 | submit is enabled exactly when there is no name and no e-mail error; the message does not enter into it |
| LeadForm.Form.Set | src/features/projects/demos/LandingLeadFormDemo.tsx:36 | only the given field changes |
| LeadForm.Form.Get | src/features/projects/demos/LandingLeadFormDemo.tsx:22-29 | the value of one form field |
| LeadForm.LeadFormDemo.constructor | src/features/projects/demos/LandingLeadFormDemo.tsx:22-29 | empty fields, no errors, idle |
| LeadForm.LeadFormDemo.SubmitDisabled | src/features/projects/demos/LandingLeadFormDemo.tsx:237 | the button is disabled without a name and a valid e-mail, and while the request is sent |
| LeadForm.LeadFormDemo.Update | src/features/projects/demos/LandingLeadFormDemo.tsx:35-38 | one field set, only that field's error cleared, status unchanged; stored errors stay those of the current values |
| LeadForm.LeadFormDemo.OnSubmit | src/features/projects/demos/LandingLeadFormDemo.tsx:51-62 | ignored while submitting; with errors they are stored and the status stays; otherwise the status becomes submitting and no error is showing |
| LeadForm.LeadFormDemo.CompleteRequest | src/features/projects/demos/LandingLeadFormDemo.tsx:64 | after the request the status is success |
| LeadForm.LeadFormDemo.Reset | src/features/projects/demos/LandingLeadFormDemo.tsx:67-71 | empty fields, no errors, idle |
| AnalyticsDashboard.Rows | src/features/projects/demos/AnalyticsDashboardDemo.tsx:95-104 | the rows are a permutation of the range's table, ordered by the comparator |
| AnalyticsDashboard.SortRows | src/features/projects/demos/AnalyticsDashboardDemo.tsx:97-102 | the in-place sort permutes the array and leaves neighbours in comparator order |
| AnalyticsDashboard.InsertAt | src/features/projects/demos/AnalyticsDashboardDemo.tsx:97-102 | one insertion extends the ordered prefix by one, permuting the array |
| AnalyticsDashboard.SwapDown | src/features/projects/demos/AnalyticsDashboardDemo.tsx:97-102 | exactly the two neighbours at j-1 and j trade places, a permutation |
| AnalyticsDashboard.InsertStart | src/features/projects/demos/AnalyticsDashboardDemo.tsx:97-102 | an ordered prefix of length i is a valid start for inserting the i-th row |
| AnalyticsDashboard.InsertSwap | src/features/projects/demos/AnalyticsDashboardDemo.tsx:97-102 | swapping an out-of-order pair moves the inserted row one place down and keeps the rest ordered |
| AnalyticsDashboard.InsertEnd | src/features/projects/demos/AnalyticsDashboardDemo.tsx:97-102 | once the inserted row is not ahead of its left neighbour the prefix of length i+1 is ordered |
| AnalyticsDashboard.AdjacentSortedIsSorted | src/features/projects/demos/AnalyticsDashboardDemo.tsx:97-102 | neighbours in order means every pair in order |
| AnalyticsDashboard.CompareProperties | src/features/projects/demos/AnalyticsDashboardDemo.tsx:99-101 | the comparator is 0 exactly on equal keys, antisymmetric, and `desc` negates `asc` |
| AnalyticsDashboard.Compare | src/features/projects/demos/AnalyticsDashboardDemo.tsx:97-102 | the sort comparator: -1, 1 or 0 by the key, negated for `desc`; stated by `CompareProperties`, `InOrderMeans` and `InOrderTransitive` |
| AnalyticsDashboard.KeyLess | src/features/projects/demos/AnalyticsDashboardDemo.tsx:98-100 | `aVal < bVal` for the chosen key, with JavaScript string `<` for the page path |
| AnalyticsDashboard.SameKey | src/features/projects/demos/AnalyticsDashboardDemo.tsx:98-100 | neither key value is below the other; `CompareProperties` shows the comparator is 0 exactly then |
| AnalyticsDashboard.StrLess | src/features/projects/demos/AnalyticsDashboardDemo.tsx:100 | JavaScript string `<`, lexicographic by character; stated by the four `StrLess` lemmas |
| AnalyticsDashboard.InOrderMeans | src/features/projects/demos/AnalyticsDashboardDemo.tsx:99-101 | ordered means a non-decreasing key for `asc` and a non-increasing one for `desc` |
| AnalyticsDashboard.InOrderTransitive | src/features/projects/demos/AnalyticsDashboardDemo.tsx:99-101 | the comparator's order is transitive |
| AnalyticsDashboard.StrLessTotal | src/features/projects/demos/AnalyticsDashboardDemo.tsx:99 | JavaScript string `<` orders any two different strings |
| AnalyticsDashboard.StrLessTransitive | src/features/projects/demos/AnalyticsDashboardDemo.tsx:99 | JavaScript string `<` is transitive |
| AnalyticsDashboard.StrLessAsymmetric | src/features/projects/demos/AnalyticsDashboardDemo.tsx:99 | JavaScript string `<` is asymmetric |
| AnalyticsDashboard.StrLessIrreflexive | src/features/projects/demos/AnalyticsDashboardDemo.tsx:99 | no string is less than itself |
| AnalyticsDashboard.Dashboard.constructor | src/features/projects/demos/AnalyticsDashboardDemo.tsx:26-28 | range 30d, key views, descending |
| AnalyticsDashboard.Dashboard.ToggleSort | src/features/projects/demos/AnalyticsDashboardDemo.tsx:106-113 | the current key flips direction; another key becomes current, descending |
| AnalyticsDashboard.Dashboard.SetRange | src/features/projects/demos/AnalyticsDashboardDemo.tsx:135 | only the range changes |
| AnalyticsDashboard.Dashboard.CurrentRows | src/features/projects/demos/AnalyticsDashboardDemo.tsx:95-104 | the table shown is the current range's rows, permuted and ordered by the current key and direction |
| AnalyticsDashboard.Dashboard.TotalVisitors | src/features/projects/demos/AnalyticsDashboardDemo.tsx:66 | the total of the current range's series; `SumBounds` and `SeriesWellFormed` bound it |
| AnalyticsDashboard.Dashboard.ChartMin | src/features/projects/demos/AnalyticsDashboardDemo.tsx:78 | the least value of the current series, by `SeqMin` |
| AnalyticsDashboard.Dashboard.ChartMax | src/features/projects/demos/AnalyticsDashboardDemo.tsx:77 | the greatest value of the current series, by `SeqMax` |
| AnalyticsDashboard.SeqMax | src/features/projects/demos/AnalyticsDashboardDemo.tsx:77 | `Math.max(...series)` is an element at least every element |
| AnalyticsDashboard.SeqMin | src/features/projects/demos/AnalyticsDashboardDemo.tsx:78 | `Math.min(...series)` is an element at most every element |
| AnalyticsDashboard.SumAppend | src/features/projects/demos/AnalyticsDashboardDemo.tsx:66 | the `reduce` total of two consecutive parts is the sum of their totals |
| AnalyticsDashboard.Sum | src/features/projects/demos/AnalyticsDashboardDemo.tsx:66 | `series.reduce((a, b) => a + b, 0)`; stated by `SumAppend` and `SumBounds` |
| AnalyticsDashboard.SumBounds | src/features/projects/demos/AnalyticsDashboardDemo.tsx:66 | a total of non-negative counts is at least each count |
| AnalyticsDashboard.SeriesWellFormed | src/features/projects/demos/AnalyticsDashboardDemo.tsx:30-78 | every series is non-empty and non-negative, and min <= max <= total |
| AnalyticsDashboard.Series | src/features/projects/demos/AnalyticsDashboardDemo.tsx:30-34 | the visitor series of each range; `SeriesWellFormed` states its shape |
| AnalyticsDashboard.TopPages | src/features/projects/demos/AnalyticsDashboardDemo.tsx:36-61 | the top-pages table of each range, conversion in thousandths; `Rows` sorts a permutation of it |
| Experience.Remove | src/features/experience/Experience.tsx:15 | the filter keeps every other index with its multiplicity and drops all copies of the given one |
| Experience.ToggleExpand | src/features/experience/Experience.tsx:12-18 | `toggleExpand`: remove the index where present, otherwise append it; stated in `ToggleFlips` and `ToggleTwice` |
| Experience.IsExpanded | src/features/experience/Experience.tsx:32 | `expandedItems.includes(index)`; `ToggleFlips` states how a toggle changes it |
| Experience.Preview | src/features/experience/Experience.tsx:34 | the first two achievements; stated in `PreviewSplit` |
| Experience.Hidden | src/features/experience/Experience.tsx:35 | the achievements after the first two; stated in `PreviewSplit` |
| Experience.ToggleFlips | src/features/experience/Experience.tsx:12-18 | the toggled card flips, every other card keeps its state; an absent index is appended at the end |
| Experience.ToggleTwice | src/features/experience/Experience.tsx:12-18 | a list without repeats stays so; toggling twice restores membership, and the very list when the index was absent |
| Experience.RemoveLast | src/features/experience/Experience.tsx:14-16 | filtering out an index just appended gives the previous list back |
| Experience.PreviewSplit | src/features/experience/Experience.tsx:34-35 | preview then hidden is the whole list; the preview has min(2, n) items; the toggle button shows exactly when there are more than two |
| Faq.ClickEffect | src/features/faq/Faq.tsx:29-41 | clicking the open item closes all; clicking a closed one opens it and only it |
| Faq.Click | src/features/faq/Faq.tsx:41 | the click handler: the result is -1 (all closed) or the clicked index |
| Faq.IsOpen | src/features/faq/Faq.tsx:29 | `index === openIndex`; `ClickEffect` states how a click changes it |
| Faq.ClicksLeaveLastOrNone | src/features/faq/Faq.tsx:15-41 | after any non-empty sequence of clicks the open index is -1 or the last index clicked; with none it is unchanged |
| Faq.ClicksFromInitial | src/features/faq/Faq.tsx:15-41 | from the initial state (item 0 open), after any clicks the open item is none or the last one clicked (item 0 when there were none) |
| Faq.ClickTwice | src/features/faq/Faq.tsx:41 | clicking a closed item twice leaves everything closed |

## Left out

- Clipboard copy, the `execCommand` fallback, the file download and the 1200 ms reset of the
  "Copied" label are browser I/O. The `copied` flags of the wizard and the dialog are not
  modelled.
- The 900 ms wait inside `onSubmit` is a timer. The model splits the handler into
  `LeadForm.LeadFormDemo.OnSubmit`, up to the wait, and `CompleteRequest`, after it.
- `toLocaleString` / `Intl.NumberFormat` are locale library calls. `formatUSD` is modelled as the
  en-US currency shape, "$" followed by comma-grouped digits, for the whole-dollar amounts the
  engine produces. `formatNumber` is display only and not modelled.
- The floating-point KPIs (signups, conversion rate, daily average), the chart's point
  coordinates and `formatPct` are float work and are not part of this model.
- AnalyticsDashboard.Rows, AnalyticsDashboard.SortRows, AnalyticsDashboard.Dashboard.CurrentRows:
  `Array.prototype.sort` is stable; the model proves a sorted permutation and does not state
  stability. Equal keys do not occur in the data.
- `useMemo`, React rendering, the modal's focus trap and portal, the animations and all
  presentational components are framework plumbing.
- The static profile data is reduced to the Fiverr links (`Profile.ProfileSocials`).
- `update(key, value)` writes `[key]: undefined` into the error record. The model removes the key
  instead, because only the presence of a defined message is ever read.
- Wizard.SetPages and QuickQuote.SetPagesOrSections require 1 to 12. The range inputs only
  produce those values; `Number` of any other text is not modelled.
- The pattern's `\s` and `trim` use one whitespace set, the ECMAScript white space and line
  terminators.
- JavaScript string comparison is modelled character by character. It agrees with UTF-16 code
  unit order for the ASCII page paths of the data.
