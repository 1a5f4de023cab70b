/** The quick-quote dialog (src/features/conversion/QuickQuoteModal.tsx): four scope selections,
    a design link and free notes, from which it derives a summary preview and a ready-to-send
    Fiverr message. The remaining scope fields are fixed. */
module QuickQuote {
  import opened Text
  import opened ScopeModel
  import opened ScopeText
  import Profile

  /** `scopeState`: the user's four selections with the dialog's fixed defaults (basic
      animations, no forms, deployment included). */
  function ComposeScopeState(projectType: ProjectType, designSource: DesignSource,
                             pages: int, deadline: Deadline): (s: ScopeState)
    ensures s.animations == Basic && s.forms == NoForms && s.deployment
    ensures s.projectType == projectType && s.designSource == designSource
    ensures s.pagesOrSections == pages && s.deadline == deadline
  {
    ScopeState(projectType, designSource, pages, Basic, NoForms, true, deadline)
  }

  /** Whatever is selected, the quick quote always lists the animations and deployment
      deliverables and never the forms one. */
  lemma QuickQuoteDeliverables(projectType: ProjectType, designSource: DesignSource,
                               pages: int, deadline: Deadline)
    ensures var d := Deliverables(ComposeScopeState(projectType, designSource, pages, deadline));
      && AnimationsDeliverable in d
      && DeploymentDeliverable in d
      && FormsDeliverable !in d
  {
    var s := ComposeScopeState(projectType, designSource, pages, deadline);
    DeliverablesMembership(s, 2);
    DeliverablesMembership(s, 3);
    DeliverablesMembership(s, 4);
  }

  /** `fiverrGig ?? fiverr`: the gig link when the profile has one, else the profile link. */
  function FiverrHref(socials: Profile.Socials): (href: string)
    ensures socials.fiverrGig.Some? ==> href == socials.fiverrGig.value
    ensures socials.fiverrGig.None? ==> href == socials.fiverr
  {
    match socials.fiverrGig
    case Some(gig) => gig
    case None => socials.fiverr
  }

  /** The site's profile has no gig link, so the dialog links to the Fiverr profile. */
  lemma ProfileHref()
    ensures FiverrHref(Profile.ProfileSocials) == "https://www.fiverr.com/dominerex"
  {
  }

  /** The dialog's state: one field per `useState`. */
  class QuickQuote {
    var projectType: ProjectType
    var designSource: DesignSource
    var designLink: string
    var pagesOrSections: int
    var deadline: Deadline
    var notes: string

    constructor ()
      ensures projectType == UiConversion && designSource == Figma && designLink == ""
      ensures pagesOrSections == 3 && deadline == Normal && notes == ""
    {
      projectType := UiConversion;
      designSource := Figma;
      designLink := "";
      pagesOrSections := 3;
      deadline := Normal;
      notes := "";
    }

    function ScopeState(): ScopeModel.ScopeState
      reads this
    {
      ComposeScopeState(projectType, designSource, pagesOrSections, deadline)
    }

    /** The preview: `buildScopeSummary(scopeState)`. */
    function Summary(): ScopeSummary
      reads this
    {
      Summarize(ScopeState())
    }

    /** The message: `buildFiverrMessage({summary, designLink, notes})`. */
    function Message(): string
      reads this
    {
      Join(FiverrMessageLines(Summary(), Some(designLink), Some(notes)))
    }

    method SetProjectType(v: ProjectType)
      modifies this
      ensures projectType == v
      ensures designSource == old(designSource) && designLink == old(designLink)
      ensures pagesOrSections == old(pagesOrSections) && deadline == old(deadline)
      ensures notes == old(notes)
    {
      projectType := v;
    }

    method SetDesignSource(v: DesignSource)
      modifies this
      ensures designSource == v
      ensures projectType == old(projectType) && designLink == old(designLink)
      ensures pagesOrSections == old(pagesOrSections) && deadline == old(deadline)
      ensures notes == old(notes)
    {
      designSource := v;
    }

    method SetDeadline(v: Deadline)
      modifies this
      ensures deadline == v
      ensures projectType == old(projectType) && designSource == old(designSource)
      ensures designLink == old(designLink) && pagesOrSections == old(pagesOrSections)
      ensures notes == old(notes)
    {
      deadline := v;
    }

    /** The range input offers whole numbers from 1 to 12. */
    method SetPagesOrSections(v: int)
      requires 1 <= v <= 12
      modifies this
      ensures pagesOrSections == v
      ensures projectType == old(projectType) && designSource == old(designSource)
      ensures designLink == old(designLink) && deadline == old(deadline)
      ensures notes == old(notes)
    {
      pagesOrSections := v;
    }

    /** Editing the design link leaves the preview as it was; the message is rebuilt around the
        same summary with the new link on its design line. */
    method SetDesignLink(v: string)
      modifies this
      ensures designLink == v
      ensures projectType == old(projectType) && designSource == old(designSource)
      ensures pagesOrSections == old(pagesOrSections) && deadline == old(deadline)
      ensures notes == old(notes)
      ensures Summary() == old(Summary())
      ensures Message() == Join(FiverrMessageLines(old(Summary()), Some(v), Some(old(notes))))
    {
      designLink := v;
    }

    /** Editing the notes leaves the preview as it was; the message is rebuilt around the same
        summary with the new notes. */
    method SetNotes(v: string)
      modifies this
      ensures notes == v
      ensures projectType == old(projectType) && designSource == old(designSource)
      ensures designLink == old(designLink) && pagesOrSections == old(pagesOrSections)
      ensures deadline == old(deadline)
      ensures Summary() == old(Summary())
      ensures Message() == Join(FiverrMessageLines(old(Summary()), Some(old(designLink)), Some(v)))
    {
      notes := v;
    }
  }

  /** The message the dialog offers names the chosen project type first and shows the chosen
      design link, trimmed, or "(will send)". */
  lemma MessageMentionsSelections(sum: ScopeSummary, link: string, notes: string)
    ensures var lines := FiverrMessageLines(sum, Some(link), Some(notes));
      && lines[0] == Greeting(sum)
      && (AllSpace(link) ==> lines[2] == DesignPrefix + WillSend)
      && (!AllSpace(link) ==> lines[2] == DesignPrefix + Trim(link))
  {
    FiverrMessageShape(sum, Some(link), Some(notes));
    DesignLine(Some(link));
  }
}
