/**
 * The learning-schedule page: the icon of each activity type, the colour of each priority,
 * the hours of a period, which period cards start open, and the singular/plural labels.
 * Activity types and priorities arrive as the strings of the schema's enumerations.
 */
module ScheduleDisplay {
  import opened Wrappers
  import opened Text
  import opened ScheduleSchema

  datatype Icon = GraduationCap | BookOpen | Code | FileText | Award | Wrench

  /** `getActivityIcon`: one icon per activity type, and the book for any other string. */
  function ActivityIcon(activityType: string): (r: Icon)
    ensures ParseActivityType(activityType).None? ==> r == BookOpen
    ensures r == BookOpen <==> ParseActivityType(activityType).None? || ParseActivityType(activityType) == Some(Tutorial)
  {
    match activityType
    case "Course" => GraduationCap
    case "Tutorial" => BookOpen
    case "Practice Project" => Code
    case "Reading" => FileText
    case "Certification" => Award
    case "Hands-on Practice" => Wrench
    case _ => BookOpen
  }

  /** Apart from tutorials sharing the default book, different activity types get different icons. */
  lemma IconsDistinguishTypes(a: ActivityType, b: ActivityType)
    requires a != b && a != Tutorial && b != Tutorial
    ensures ActivityIcon(ActivityTypeValue(a)) != ActivityIcon(ActivityTypeValue(b))
  {
  }

  const HighColor := "bg-red-500/20 text-red-400 border-red-500/30"
  const MediumColor := "bg-yellow-500/20 text-yellow-400 border-yellow-500/30"
  const LowColor := "bg-blue-500/20 text-blue-400 border-blue-500/30"
  const OtherColor := "bg-gray-500/20 text-gray-400 border-gray-500/30"

  /** `getPriorityColor`: red, yellow and blue for the three priorities, gray for anything else. */
  function PriorityColor(priority: string): (r: string)
    ensures ParsePriority(priority) == Some(High) ==> r == HighColor
    ensures ParsePriority(priority) == Some(Medium) ==> r == MediumColor
    ensures ParsePriority(priority) == Some(Low) ==> r == LowColor
    ensures ParsePriority(priority).None? ==> r == OtherColor
  {
    match priority
    case "High" => HighColor
    case "Medium" => MediumColor
    case "Low" => LowColor
    case _ => OtherColor
  }

  /** The hours of a period: the activities' estimates added up from the left, starting at 0. */
  function TotalHours(activities: seq<ActivityModel>): int {
    if activities == [] then 0
    else TotalHours(activities[..|activities| - 1]) + activities[|activities| - 1].estimatedHours
  }

  /** Each activity of a valid period takes at least an hour, so the total is at least the number of activities. */
  lemma {:induction false} TotalHoursAtLeastCount(activities: seq<ActivityModel>)
    requires forall i | 0 <= i < |activities| :: ValidActivity(activities[i])
    ensures TotalHours(activities) >= |activities|
  {
    if activities != [] {
      var init := activities[..|activities| - 1];
      assert forall i | 0 <= i < |init| :: init[i] == activities[i];
      TotalHoursAtLeastCount(init);
    }
  }

  /** Adding an activity to a period adds its estimate to the total. */
  lemma {:induction false} TotalHoursAppend(a: seq<ActivityModel>, b: seq<ActivityModel>)
    ensures TotalHours(a + b) == TotalHours(a) + TotalHours(b)
    decreases |b|
  {
    if b == [] {
      assert a + b == a;
    } else {
      var bInit := b[..|b| - 1];
      assert (a + b)[..|a + b| - 1] == a + bInit;
      TotalHoursAppend(a, bInit);
    }
  }

  /** The summary on a period card's header. */
  function PeriodSummary(period: SchedulePeriodModel): string {
    NatToString(|period.activities|) + " activities • " + IntToString(TotalHours(period.activities)) + "h total"
  }

  /** `s` after a count exactly when the count exceeds one. */
  function Plural(count: int): (r: string)
    ensures r == "s" <==> count > 1
    ensures r == "" <==> count <= 1
  {
    if count > 1 then "s" else ""
  }

  /** The resource toggle of an activity card: hidden without resources, otherwise "Show N Resource(s)" or "Hide Resources". */
  function ResourceToggle(resourceCount: nat, expanded: bool): (r: Option<string>)
    ensures r.None? <==> resourceCount == 0
    ensures resourceCount > 0 && expanded ==> r == Some("Hide Resources")
    ensures resourceCount == 1 && !expanded ==> r == Some("Show 1 Resource")
    ensures resourceCount > 1 && !expanded ==> r == Some("Show " + NatToString(resourceCount) + " Resources")
  {
    if resourceCount == 0 then None
    else if expanded then Some("Hide Resources")
    else
      var n := NatToString(resourceCount);
      assert resourceCount == 1 ==> n == "1";
      assert "Show " + "1" + " Resource" + "" == "Show 1 Resource";
      assert "Show " + n + " Resource" + "s" == "Show " + n + " Resources";
      assert "Show " + n + " Resource" + "" == "Show " + n + " Resource";
      Some("Show " + n + " Resource" + Plural(resourceCount))
  }

  /** A certification's duration, "month" or "months". */
  function DurationLabel(months: int): (r: string)
    ensures months > 1 ==> r == "Est. " + IntToString(months) + " months"
    ensures months <= 1 ==> r == "Est. " + IntToString(months) + " month"
  {
    var n := IntToString(months);
    assert "Est. " + n + " month" + "s" == "Est. " + n + " months";
    assert "Est. " + n + " month" + "" == "Est. " + n + " month";
    "Est. " + n + " month" + Plural(months)
  }

  /** A period card: open at first only for the first period; its header toggles it. */
  class PeriodCard {
    const index: nat
    var expanded: bool

    constructor (index: nat)
      ensures this.index == index && expanded == (index == 0)
    {
      this.index := index;
      expanded := index == 0;
    }

    method Toggle()
      modifies this
      ensures expanded == !old(expanded)
    {
      expanded := !expanded;
    }
  }

  /** An activity card: its resource list starts closed and the toggle opens and closes it. */
  class ActivityCard {
    const activity: ActivityModel
    var expanded: bool

    constructor (activity: ActivityModel)
      ensures this.activity == activity && !expanded
    {
      this.activity := activity;
      expanded := false;
    }

    /** The toggle exists only when the activity has resources. */
    method Toggle()
      requires |activity.resources| > 0
      modifies this
      ensures expanded == !old(expanded)
    {
      expanded := !expanded;
    }

    /** The resources listed under the card: all of them when open, none when closed. */
    function ListedResources(): (r: seq<ResourceModel>)
      reads this
      ensures expanded ==> r == activity.resources
      ensures !expanded ==> r == []
    {
      if expanded then activity.resources else []
    }
  }
}
