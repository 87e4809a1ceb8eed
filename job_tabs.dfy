/**
 * The job-description upload panel: up to three tabs of pasted job descriptions, each
 * submitted on its own, and a comparison of every submitted job against the current resume.
 */
module JobTabs {
  import opened Wrappers
  import JsonData
  import Text

  const MaxJobs := 3

  /** The storage key under which the tabs are persisted in the browser. */
  const SavedJobsKey := "resumeMatcher:savedJobs"

  datatype Status = Idle | Submitting | Succeeded | Errored

  /** One tab: its React key, the pasted text, the job id the backend assigned and the fetched job preview. */
  datatype JobEntry = JobEntry(id: string, text: string, jobId: Option<string>, jobData: Option<JsonData.Json>, status: Status)

  datatype FlashKind = FlashError | FlashSuccess

  /** The banner above the tabs. */
  datatype Flash = Flash(kind: FlashKind, message: string)

  /** A blank tab. */
  function NewEntry(id: string): JobEntry {
    JobEntry(id, "", None, None, Idle)
  }

  /** JavaScript truthiness of a `string | null`. */
  predicate Present(s: Option<string>) {
    s.Some? && s.value != ""
  }

  /** `jobs.filter(j => j.jobId).map(j => j.jobId)`. */
  function SubmittedIds(jobs: seq<JobEntry>): (r: seq<string>)
    ensures |r| <= |jobs|
    ensures forall k | 0 <= k < |r| :: r[k] != ""
  {
    if jobs == [] then []
    else if Present(jobs[0].jobId) then [jobs[0].jobId.value] + SubmittedIds(jobs[1..])
    else SubmittedIds(jobs[1..])
  }

  /** `${x}` of a `string | null` inside a template literal. */
  function TemplateText(s: Option<string>): string {
    if s.Some? then s.value else "null"
  }

  /** The comparison page the panel navigates to. */
  function CompareUrl(resumeId: Option<string>, jobIds: seq<string>): string {
    "/compare?resume_id=" + TemplateText(resumeId) + "&job_ids=" + Text.Join(jobIds, ",")
  }

  /** The message shown after job number `index` (zero-based) was uploaded. */
  function SuccessMessage(index: int): string {
    "Job " + Text.IntToString(index + 1) + " submitted successfully!"
  }

  /** The state of the upload panel. */
  class UploadPanel {
    var jobs: seq<JobEntry>
    var selected: int
    var flash: Option<Flash>

    /** There is always at least one tab, and the selected one exists. */
    predicate Valid()
      reads this
    {
      1 <= |jobs| && 0 <= selected < |jobs|
    }

    /**
     * Mounting the panel: one blank tab with id `1`, replaced by the tabs saved in the
     * browser when there is a non-empty saved list (`None` when nothing could be read or parsed).
     */
    constructor Mount(saved: Option<seq<JobEntry>>)
      ensures Valid()
      ensures saved.Some? && saved.value != [] ==> jobs == saved.value
      ensures !(saved.Some? && saved.value != []) ==> jobs == [NewEntry("1")]
      ensures selected == 0 && flash == None
    {
      if saved.Some? && saved.value != [] {
        jobs := saved.value;
      } else {
        jobs := [NewEntry("1")];
      }
      selected := 0;
      flash := None;
    }

    /** Clicking a tab. */
    method Select(index: int)
      requires Valid() && 0 <= index < |jobs|
      modifies this
      ensures Valid()
      ensures selected == index && jobs == old(jobs) && flash == old(flash)
    {
      selected := index;
    }

    /** `handleChange`: edits the text of one tab, resets its status and clears the banner. */
    method HandleChange(index: int, value: string)
      requires Valid()
      modifies this
      ensures Valid()
      ensures |jobs| == |old(jobs)| && selected == old(selected) && flash == None
      ensures forall i | 0 <= i < |jobs| ::
        jobs[i] == if i == index then old(jobs)[i].(text := value, status := Idle) else old(jobs)[i]
    {
      var prev := jobs;
      jobs := seq(|prev|, i requires 0 <= i < |prev| => if i == index then prev[i].(text := value, status := Idle) else prev[i]);
      flash := None;
    }

    /** `addJob`: appends a blank tab (its id taken from the clock) unless there are already three. */
    method AddJob(now: int)
      requires Valid()
      modifies this
      ensures Valid()
      ensures old(|jobs|) >= MaxJobs ==> jobs == old(jobs)
      ensures old(|jobs|) < MaxJobs ==> jobs == old(jobs) + [NewEntry(Text.IntToString(now))]
      ensures old(|jobs|) <= MaxJobs ==> |jobs| <= MaxJobs
      ensures selected == old(selected) && flash == old(flash)
    {
      if |jobs| >= MaxJobs {
        return;
      }
      jobs := jobs + [NewEntry(Text.IntToString(now))];
    }

    /**
     * `removeJob`: drops one tab unless it is the last one; the selection moves one tab to
     * the left when it was at or after the removed tab.
     */
    method RemoveJob(index: int)
      requires Valid()
      modifies this
      ensures Valid()
      ensures old(|jobs|) == 1 ==> jobs == old(jobs) && selected == old(selected)
      ensures old(|jobs|) > 1 && 0 <= index < old(|jobs|) ==> jobs == old(jobs)[..index] + old(jobs)[index + 1..]
      ensures old(|jobs|) > 1 && !(0 <= index < old(|jobs|)) ==> jobs == old(jobs)
      ensures old(|jobs|) > 1 ==> selected == if old(selected) >= index && old(selected) > 0 then old(selected) - 1 else old(selected)
      ensures flash == old(flash)
    {
      if |jobs| == 1 {
        return;
      }
      var kept: seq<JobEntry> := [];
      var i := 0;
      while i < |jobs|
        invariant 0 <= i <= |jobs|
        invariant 0 <= index < |jobs| ==> kept == if i <= index then jobs[..i] else jobs[..index] + jobs[index + 1..i]
        invariant !(0 <= index < |jobs|) ==> kept == jobs[..i]
      {
        if i != index {
          kept := kept + [jobs[i]];
        }
        i := i + 1;
      }
      assert jobs[..|jobs|] == jobs;
      if selected >= index && selected > 0 {
        selected := selected - 1;
      }
      jobs := kept;
    }

    /**
     * The synchronous part of `handleUpload`: rejects an empty description or a missing resume
     * with a banner; otherwise marks the tab as submitting and returns the upload request,
     * the trimmed text and the resume id.
     */
    method StartUpload(index: int, resumeId: Option<string>) returns (request: Option<(string, string)>)
      requires Valid() && 0 <= index < |jobs|
      modifies this
      ensures Valid()
      ensures selected == old(selected) && |jobs| == |old(jobs)|
      ensures Text.IsBlank(old(jobs)[index].text) ==>
        request == None && jobs == old(jobs) && flash == Some(Flash(FlashError, "Job description cannot be empty."))
      ensures !Text.IsBlank(old(jobs)[index].text) && !Present(resumeId) ==>
        request == None && jobs == old(jobs) && flash == Some(Flash(FlashError, "Missing resume ID."))
      ensures !Text.IsBlank(old(jobs)[index].text) && Present(resumeId) ==>
        request == Some((Text.Trim(old(jobs)[index].text), resumeId.value)) && flash == old(flash)
        && jobs == old(jobs)[index := old(jobs)[index].(status := Submitting)]
    {
      var trimmed := Text.Trim(jobs[index].text);
      if trimmed == "" {
        flash := Some(Flash(FlashError, "Job description cannot be empty."));
        return None;
      }
      if !Present(resumeId) {
        flash := Some(Flash(FlashError, "Missing resume ID."));
        return None;
      }
      jobs := jobs[index := jobs[index].(status := Submitting)];
      request := Some((trimmed, resumeId.value));
    }

    /**
     * The completion of `handleUpload` for the tab at `index`: the job id the backend returned,
     * or the message of the error the upload threw.
     */
    method FinishUpload(index: int, outcome: Result<string, string>)
      requires Valid()
      modifies this
      ensures Valid()
      ensures selected == old(selected) && |jobs| == |old(jobs)|
      ensures forall i | 0 <= i < |jobs| && i != index :: jobs[i] == old(jobs)[i]
      ensures 0 <= index < |jobs| && outcome.Success? ==> jobs[index] == old(jobs)[index].(jobId := Some(outcome.value), status := Succeeded)
      ensures 0 <= index < |jobs| && outcome.Failure? ==> jobs[index] == old(jobs)[index].(status := Errored)
      ensures outcome.Success? ==> flash == Some(Flash(FlashSuccess, SuccessMessage(index)))
      ensures outcome.Failure? ==> flash == Some(Flash(FlashError, outcome.error))
    {
      if 0 <= index < |jobs| {
        match outcome
        case Success(id) => jobs := jobs[index := jobs[index].(jobId := Some(id), status := Succeeded)];
        case Failure(_) => jobs := jobs[index := jobs[index].(status := Errored)];
      }
      match outcome
      case Success(_) => flash := Some(Flash(FlashSuccess, SuccessMessage(index)));
      case Failure(message) => flash := Some(Flash(FlashError, message));
    }

    /**
     * `handleCompareAll`: with at least two submitted jobs, the page to navigate to; otherwise
     * `None` and an error banner.
     */
    method HandleCompareAll(resumeId: Option<string>) returns (target: Option<string>)
      requires Valid()
      modifies this
      ensures Valid()
      ensures jobs == old(jobs) && selected == old(selected)
      ensures |SubmittedIds(jobs)| < 2 ==>
        target == None && flash == Some(Flash(FlashError, "Please submit at least 2 jobs to compare."))
      ensures |SubmittedIds(jobs)| >= 2 ==> target == Some(CompareUrl(resumeId, SubmittedIds(jobs))) && flash == old(flash)
    {
      var ids := SubmittedIds(jobs);
      if |ids| < 2 {
        flash := Some(Flash(FlashError, "Please submit at least 2 jobs to compare."));
        return None;
      }
      target := Some(CompareUrl(resumeId, ids));
    }
  }

  // ----- properties -----

  /** An id is among the submitted ids exactly when some tab holds it as its (non-empty) job id. */
  lemma {:induction false} SubmittedIdsExact(jobs: seq<JobEntry>, x: string)
    ensures x in SubmittedIds(jobs) <==> exists i | 0 <= i < |jobs| :: jobs[i].jobId == Some(x) && x != ""
  {
    if jobs != [] {
      SubmittedIdsExact(jobs[1..], x);
      if exists i | 0 <= i < |jobs| :: jobs[i].jobId == Some(x) && x != "" {
        var i :| 0 <= i < |jobs| && jobs[i].jobId == Some(x) && x != "";
        if i > 0 {
          assert jobs[1..][i - 1] == jobs[i];
        }
      }
      if exists i | 0 <= i < |jobs[1..]| :: jobs[1..][i].jobId == Some(x) && x != "" {
        var i :| 0 <= i < |jobs[1..]| && jobs[1..][i].jobId == Some(x) && x != "";
        assert jobs[i + 1] == jobs[1..][i];
      }
    }
  }

  /** The comparison page reads back exactly the submitted job ids from its `job_ids` parameter. */
  lemma CompareUrlJobIds(resumeId: Option<string>, jobIds: seq<string>)
    requires jobIds != []
    requires forall k | 0 <= k < |jobIds| :: ',' !in jobIds[k]
    ensures var url := CompareUrl(resumeId, jobIds);
      var prefix := "/compare?resume_id=" + TemplateText(resumeId) + "&job_ids=";
      prefix <= url && Text.Split(url[|prefix|..], ',') == jobIds
  {
    var prefix := "/compare?resume_id=" + TemplateText(resumeId) + "&job_ids=";
    var url := CompareUrl(resumeId, jobIds);
    assert url == prefix + Text.Join(jobIds, [',']);
    assert url[|prefix|..] == Text.Join(jobIds, [',']);
    Text.SplitJoin(jobIds, ',');
  }
}
