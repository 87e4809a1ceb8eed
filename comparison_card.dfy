/**
 * The card comparing a resume against one job: a spinner while the job is analysed, then the
 * two scores, a bar coloured by the improved score, and skill lists cut to a few entries
 * unless expanded. Scores arrive as whole percentages already rounded, together with whether
 * the improvement is positive.
 */
module ComparisonCard {
  import opened Wrappers
  import opened Text

  const MatchedLimit := 10
  const MissingLimit := 8
  const RowLimit := 5
  const ShowLess := "Show less"

  datatype SkillComparison = SkillComparison(skill: string, resumeMentions: int, jobMentions: int, status: string)

  datatype CardProps = CardProps(
    jobTitle: string, company: string, originalPct: int, newPct: int,
    improved: bool, improvementPct: int,
    matchedSkills: seq<string>, missingSkills: seq<string>, skillComparison: seq<SkillComparison>,
    isProcessing: bool, clickable: bool)

  datatype BarColor = Green | Yellow | Red

  /** The progress bar: green from 80 percent, yellow from 60, red below. */
  function Bar(newPct: int): (c: BarColor)
    ensures c == Green <==> newPct >= 80
    ensures c == Yellow <==> 60 <= newPct < 80
    ensures c == Red <==> newPct < 60
  {
    if newPct >= 80 then Green else if newPct >= 60 then Yellow else Red
  }

  /** The badge of a comparison row: "perfect" and "partial" get their colours, any other status red. */
  function StatusColor(status: string): (c: BarColor)
    ensures status == "perfect" ==> c == Green
    ensures status == "partial" ==> c == Yellow
    ensures status != "perfect" && status != "partial" ==> c == Red
  {
    if status == "perfect" then Green else if status == "partial" then Yellow else Red
  }

  /** A skill list as shown: its entries, and the toggle's label when the list is longer than the limit. */
  datatype SkillList = SkillList(shown: seq<string>, toggle: Option<string>)

  /**
   * All entries when expanded, the first `limit` otherwise; the toggle appears only for a list
   * longer than the limit and reads "Show less" when expanded, "+N more" when not.
   */
  function Window(skills: seq<string>, limit: nat, showAll: bool): (r: SkillList)
    ensures showAll ==> r.shown == skills
    ensures !showAll ==> r.shown == Take(skills, limit) && |r.shown| <= limit && r.shown <= skills
    ensures r.toggle.Some? <==> |skills| > limit
    ensures r.toggle.Some? && showAll ==> r.toggle.value == ShowLess
    ensures r.toggle.Some? && !showAll ==> r.toggle.value == "+" + NatToString(|skills| - limit) + " more"
  {
    SkillList(if showAll then skills else Take(skills, limit),
              if |skills| <= limit then None
              else if showAll then Some(ShowLess)
              else Some("+" + NatToString(Hidden(skills, limit)) + " more"))
  }

  /** What the card shows. */
  datatype CardView =
    | Spinner
    | Card(originalPct: int, newPct: int, improvementBadge: Option<int>, bar: BarColor,
           matched: SkillList, missing: Option<SkillList>, rows: seq<SkillComparison>, detailsButton: bool)

  /** The two "show all" switches of a card. */
  class Card {
    var showAllMatched: bool
    var showAllMissing: bool

    constructor ()
      ensures !showAllMatched && !showAllMissing
    {
      showAllMatched := false;
      showAllMissing := false;
    }

    method ToggleMatched()
      modifies this
      ensures showAllMatched == !old(showAllMatched) && showAllMissing == old(showAllMissing)
    {
      showAllMatched := !showAllMatched;
    }

    method ToggleMissing()
      modifies this
      ensures showAllMissing == !old(showAllMissing) && showAllMatched == old(showAllMatched)
    {
      showAllMissing := !showAllMissing;
    }

    /**
     * The card for `props`: only the spinner while processing; otherwise the scores, the
     * improvement badge only for a positive improvement, the matched skills, the missing skills
     * only when there are some, the first five comparison rows, and the details button only with
     * a click handler.
     */
    function View(props: CardProps): (v: CardView)
      reads this
      ensures props.isProcessing <==> v.Spinner?
      ensures v.Card? ==> (v.improvementBadge.Some? <==> props.improved)
      ensures v.Card? ==> v.bar == Bar(props.newPct)
      ensures v.Card? ==> v.matched == Window(props.matchedSkills, MatchedLimit, showAllMatched)
      ensures v.Card? ==> (v.missing.Some? <==> props.missingSkills != [])
      ensures v.Card? && v.missing.Some? ==> v.missing.value == Window(props.missingSkills, MissingLimit, showAllMissing)
      ensures v.Card? ==> v.rows <= props.skillComparison
      ensures v.Card? ==> |v.rows| == if |props.skillComparison| < RowLimit then |props.skillComparison| else RowLimit
      ensures v.Card? ==> (v.detailsButton <==> props.clickable)
    {
      if props.isProcessing then Spinner
      else
        Card(props.originalPct, props.newPct,
             if props.improved then Some(props.improvementPct) else None,
             Bar(props.newPct),
             Window(props.matchedSkills, MatchedLimit, showAllMatched),
             if props.missingSkills != [] then Some(Window(props.missingSkills, MissingLimit, showAllMissing)) else None,
             Take(props.skillComparison, RowLimit),
             props.clickable)
    }
  }

  /** Expanded or not, the list shown is a prefix of the full list, and the whole list when it fits. */
  lemma WindowPrefix(skills: seq<string>, limit: nat, showAll: bool)
    ensures Window(skills, limit, showAll).shown <= skills
    ensures |skills| <= limit ==> Window(skills, limit, showAll).shown == skills
  {
  }
}
