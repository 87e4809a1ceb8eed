/**
 * The insights panel on the dashboard: which blocks it shows for the analysis details and the
 * strategy commentary, and when it offers to generate a learning schedule.
 */
module JobListings {
  import opened Wrappers
  import opened Text


  /** `Boolean(details?.trim()) || Boolean(commentary?.trim())`. */
  predicate HasContent(details: Option<string>, commentary: Option<string>) {
    (details.Some? && Trim(details.value) != "") || (commentary.Some? && Trim(commentary.value) != "")
  }

  datatype Panel = Panel(details: Option<string>, strategy: Option<string>, scheduleTarget: Option<string>, placeholder: bool)

  /** The address of the schedule page for a resume and a job. */
  function ScheduleUrl(resumeId: string, jobId: string): string {
    "/learning-schedule?resumeId=" + resumeId + "&jobId=" + jobId
  }

  /**
   * The panel: the details block for truthy details, the strategy block for truthy commentary,
   * the schedule button inside it only with both ids, and the placeholder exactly when neither
   * text has anything but white space.
   */
  function Render(details: Option<string>, commentary: Option<string>, resumeId: Option<string>, jobId: Option<string>): (p: Panel)
    ensures p.details.Some? <==> Given(details)
    ensures p.strategy.Some? <==> Given(commentary)
    ensures p.scheduleTarget.Some? <==> Given(commentary) && Given(resumeId) && Given(jobId)
    ensures p.scheduleTarget.Some? ==> p.scheduleTarget.value == ScheduleUrl(resumeId.value, jobId.value)
    ensures p.placeholder <==> !HasContent(details, commentary)
  {
    Panel(if Given(details) then details else None,
          if Given(commentary) then commentary else None,
          if Given(commentary) && Given(resumeId) && Given(jobId) then Some(ScheduleUrl(resumeId.value, jobId.value)) else None,
          !HasContent(details, commentary))
  }

  /** Blank details still show their block, so the block and the placeholder can appear together. */
  lemma BlankDetailsShowBoth(blank: string)
    requires blank != "" && IsBlank(blank)
    ensures var p := Render(Some(blank), None, None, None); p.details.Some? && p.placeholder
  {
  }

  /** Details with any visible character hide the placeholder, whatever the commentary. */
  lemma VisibleDetailsHidePlaceholder(details: string, commentary: Option<string>)
    requires !IsBlank(details)
    ensures !Render(Some(details), commentary, None, None).placeholder
  {
  }
}
