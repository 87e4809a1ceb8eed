/**
 * The learning-schedule schema: the enumerations and nested records a generated schedule
 * must fit, how a decoded JSON document is validated against them, and the request body
 * of the schedule endpoint.
 */
module ScheduleSchema {
  import opened Wrappers
  import opened JsonData

  // ----- enumerations -----

  datatype ScheduleType = Weekly | Monthly

  function ScheduleTypeValue(t: ScheduleType): string {
    match t
    case Weekly => "weekly"
    case Monthly => "monthly"
  }

  function ParseScheduleType(s: string): (r: Option<ScheduleType>)
    ensures r.Some? ==> ScheduleTypeValue(r.value) == s
  {
    if s == "weekly" then Some(Weekly) else if s == "monthly" then Some(Monthly) else None
  }

  datatype ActivityType = Course | Tutorial | PracticeProject | Reading | Certification | HandsOnPractice

  function ActivityTypeValue(t: ActivityType): string {
    match t
    case Course => "Course"
    case Tutorial => "Tutorial"
    case PracticeProject => "Practice Project"
    case Reading => "Reading"
    case Certification => "Certification"
    case HandsOnPractice => "Hands-on Practice"
  }

  function ParseActivityType(s: string): (r: Option<ActivityType>)
    ensures r.Some? ==> ActivityTypeValue(r.value) == s
  {
    if s == "Course" then Some(Course)
    else if s == "Tutorial" then Some(Tutorial)
    else if s == "Practice Project" then Some(PracticeProject)
    else if s == "Reading" then Some(Reading)
    else if s == "Certification" then Some(Certification)
    else if s == "Hands-on Practice" then Some(HandsOnPractice)
    else None
  }

  datatype Priority = High | Medium | Low

  function PriorityValue(p: Priority): string {
    match p
    case High => "High"
    case Medium => "Medium"
    case Low => "Low"
  }

  function ParsePriority(s: string): (r: Option<Priority>)
    ensures r.Some? ==> PriorityValue(r.value) == s
  {
    if s == "High" then Some(High) else if s == "Medium" then Some(Medium) else if s == "Low" then Some(Low) else None
  }

  datatype ResourceType = Platform | Documentation | Book | Video | Article

  function ResourceTypeValue(t: ResourceType): string {
    match t
    case Platform => "Platform"
    case Documentation => "Documentation"
    case Book => "Book"
    case Video => "Video"
    case Article => "Article"
  }

  function ParseResourceType(s: string): (r: Option<ResourceType>)
    ensures r.Some? ==> ResourceTypeValue(r.value) == s
  {
    if s == "Platform" then Some(Platform)
    else if s == "Documentation" then Some(Documentation)
    else if s == "Book" then Some(Book)
    else if s == "Video" then Some(Video)
    else if s == "Article" then Some(Article)
    else None
  }

  datatype Complexity = Beginner | Intermediate | Advanced

  function ComplexityValue(c: Complexity): string {
    match c
    case Beginner => "Beginner"
    case Intermediate => "Intermediate"
    case Advanced => "Advanced"
  }

  function ParseComplexity(s: string): (r: Option<Complexity>)
    ensures r.Some? ==> ComplexityValue(r.value) == s
  {
    if s == "Beginner" then Some(Beginner) else if s == "Intermediate" then Some(Intermediate)
    else if s == "Advanced" then Some(Advanced) else None
  }

  /** Every member of every enumeration is recognised by its value, and no two members share one. */
  lemma EnumValuesRoundTrip(a: ScheduleType, b: ActivityType, c: Priority, d: ResourceType, e: Complexity)
    ensures ParseScheduleType(ScheduleTypeValue(a)) == Some(a)
    ensures ParseActivityType(ActivityTypeValue(b)) == Some(b)
    ensures ParsePriority(PriorityValue(c)) == Some(c)
    ensures ParseResourceType(ResourceTypeValue(d)) == Some(d)
    ensures ParseComplexity(ComplexityValue(e)) == Some(e)
  {
  }

  // ----- records -----

  datatype ResourceModel = ResourceModel(name: string, rtype: ResourceType, url: Option<string>)

  datatype ActivityModel = ActivityModel(
    activityType: ActivityType, title: string, description: string,
    resources: seq<ResourceModel>, estimatedHours: int, priority: Priority)

  datatype SchedulePeriodModel = SchedulePeriodModel(
    period: string, focus: string, learningGoals: seq<string>,
    activities: seq<ActivityModel>, milestones: seq<string>)

  datatype OverviewModel = OverviewModel(skillsToLearn: seq<string>, skillsToImprove: seq<string>, estimatedTimePerWeek: string)

  datatype CertificationModel = CertificationModel(name: string, provider: string, relevance: string, estimatedTimeMonths: int)

  datatype ProjectRecommendationModel = ProjectRecommendationModel(
    title: string, description: string, skillsApplied: seq<string>, complexity: Complexity)

  datatype RecommendationsModel = RecommendationsModel(
    certifications: seq<CertificationModel>, projects: seq<ProjectRecommendationModel>, networking: seq<string>)

  datatype ProgressTrackingModel = ProgressTrackingModel(weeklyCheckpoints: seq<string>, successMetrics: seq<string>)

  datatype LearningScheduleModel = LearningScheduleModel(
    scheduleType: ScheduleType, totalDurationWeeks: int, overview: OverviewModel,
    schedule: seq<SchedulePeriodModel>, recommendations: RecommendationsModel,
    progressTracking: ProgressTrackingModel)

  /** The `ge=1` constraints of the schema, at every level. */
  predicate ValidActivity(a: ActivityModel) {
    a.estimatedHours >= 1
  }

  predicate ValidPeriod(p: SchedulePeriodModel) {
    forall i | 0 <= i < |p.activities| :: ValidActivity(p.activities[i])
  }

  predicate ValidSchedule(m: LearningScheduleModel) {
    m.totalDurationWeeks >= 1
    && (forall i | 0 <= i < |m.schedule| :: ValidPeriod(m.schedule[i]))
    && (forall i | 0 <= i < |m.recommendations.certifications| :: m.recommendations.certifications[i].estimatedTimeMonths >= 1)
  }

  // ----- validation of decoded JSON -----

  /** Each element validated in turn; the first failure is reported. */
  function ParseList<T>(items: seq<Json>, parse: Json -> Result<T, string>): (r: Result<seq<T>, string>)
    ensures r.Success? <==> forall i | 0 <= i < |items| :: parse(items[i]).Success?
    ensures r.Success? ==> |r.value| == |items| && forall i | 0 <= i < |items| :: parse(items[i]) == Success(r.value[i])
  {
    if items == [] then Success([])
    else
      match parse(items[0])
      case Failure(e) => Failure(e)
      case Success(x) =>
        var rest := ParseList(items[1..], parse);
        assert forall i | 1 <= i < |items| :: items[i] == items[1..][i - 1];
        match rest
        case Failure(e) => Failure(e)
        case Success(xs) => Success([x] + xs)
  }

  function AsString(j: Json): (r: Result<string, string>)
    ensures r.Success? <==> j.JStr?
  {
    if j.JStr? then Success(j.s) else Failure("Input should be a valid string")
  }

  /** A required field: missing is an error. */
  function Required(f: map<string, Json>, key: string): (r: Result<Json, string>)
    ensures r.Success? <==> key in f
  {
    if key in f then Success(f[key]) else Failure(key + ": Field required")
  }

  /** A required integer field, read in lax mode, with the `ge` bound `min`. */
  function RequiredInt(f: map<string, Json>, key: string, min: int): (r: Result<int, string>)
    ensures r.Success? <==> key in f && LaxInt(f[key]).Some? && LaxInt(f[key]).value >= min
    ensures r.Success? ==> LaxInt(f[key]) == Some(r.value)
  {
    if key in f && LaxInt(f[key]).Some? && LaxInt(f[key]).value >= min then Success(LaxInt(f[key]).value)
    else Failure(key + ": Input should be a valid integer greater than or equal to " + (if min == 1 then "1" else "the bound"))
  }

  /** A list field defaulting to the empty list when absent. */
  function ListField<T>(f: map<string, Json>, key: string, parse: Json -> Result<T, string>): (r: Result<seq<T>, string>)
    ensures key !in f ==> r == Success([])
    ensures key in f && r.Success? ==> f[key].JArr? && ParseList(f[key].items, parse) == r
  {
    if key !in f then Success([])
    else if f[key].JArr? then ParseList(f[key].items, parse)
    else Failure(key + ": Input should be a valid list")
  }

  function ParseStr(j: Json): Result<string, string> {
    AsString(j)
  }

  function ParseResource(j: Json): (r: Result<ResourceModel, string>) {
    if !j.JObj? then Failure("Input should be a valid dictionary")
    else
      var f := j.fields;
      match (StringField(f, "name"), StringField(f, "type"))
      case (Success(name), Success(t)) =>
        match ParseResourceType(t) {
          case None => Failure("type: Input should be a valid enumeration member")
          case Some(rt) =>
            if "url" !in f || f["url"] == JNull then Success(ResourceModel(name, rt, None))
            else if f["url"].JStr? then Success(ResourceModel(name, rt, Some(f["url"].s)))
            else Failure("url: Input should be a valid string")
        }
      case (Failure(e), _) => Failure(e)
      case (_, Failure(e)) => Failure(e)
  }

  function ParseActivity(j: Json): (r: Result<ActivityModel, string>)
    ensures r.Success? ==> ValidActivity(r.value)
  {
    if !j.JObj? then Failure("Input should be a valid dictionary")
    else
      var f := j.fields;
      match (StringField(f, "activityType"), StringField(f, "title"), StringField(f, "description"),
             ListField(f, "resources", ParseResource), RequiredInt(f, "estimatedHours", 1), StringField(f, "priority"))
      case (Success(at), Success(title), Success(desc), Success(res), Success(hours), Success(pr)) =>
        match (ParseActivityType(at), ParsePriority(pr)) {
          case (Some(t), Some(p)) => Success(ActivityModel(t, title, desc, res, hours, p))
          case _ => Failure("Input should be a valid enumeration member")
        }
      case _ => Failure("activity: invalid")
  }

  function ParsePeriod(j: Json): (r: Result<SchedulePeriodModel, string>)
    ensures r.Success? ==> ValidPeriod(r.value)
  {
    if !j.JObj? then Failure("Input should be a valid dictionary")
    else
      var f := j.fields;
      match (StringField(f, "period"), StringField(f, "focus"), ListField(f, "learningGoals", ParseStr),
             ListField(f, "activities", ParseActivity), ListField(f, "milestones", ParseStr))
      case (Success(period), Success(focus), Success(goals), Success(acts), Success(ms)) =>
        assert forall i | 0 <= i < |acts| :: ParseActivity(f["activities"].items[i]) == Success(acts[i]);
        Success(SchedulePeriodModel(period, focus, goals, acts, ms))
      case _ => Failure("schedule: invalid period")
  }

  function ParseOverview(j: Json): Result<OverviewModel, string> {
    if !j.JObj? then Failure("overview: Input should be a valid dictionary")
    else
      var f := j.fields;
      match (ListField(f, "skillsToLearn", ParseStr), ListField(f, "skillsToImprove", ParseStr), StringField(f, "estimatedTimePerWeek"))
      case (Success(learn), Success(improve), Success(t)) => Success(OverviewModel(learn, improve, t))
      case _ => Failure("overview: invalid")
  }

  function ParseCertification(j: Json): (r: Result<CertificationModel, string>)
    ensures r.Success? ==> r.value.estimatedTimeMonths >= 1
  {
    if !j.JObj? then Failure("Input should be a valid dictionary")
    else
      var f := j.fields;
      match (StringField(f, "name"), StringField(f, "provider"), StringField(f, "relevance"), RequiredInt(f, "estimatedTimeMonths", 1))
      case (Success(n), Success(p), Success(rel), Success(m)) => Success(CertificationModel(n, p, rel, m))
      case _ => Failure("certifications: invalid")
  }

  function ParseProject(j: Json): Result<ProjectRecommendationModel, string> {
    if !j.JObj? then Failure("Input should be a valid dictionary")
    else
      var f := j.fields;
      match (StringField(f, "title"), StringField(f, "description"), ListField(f, "skillsApplied", ParseStr), StringField(f, "complexity"))
      case (Success(t), Success(d), Success(skills), Success(c)) =>
        match ParseComplexity(c) {
          case Some(cx) => Success(ProjectRecommendationModel(t, d, skills, cx))
          case None => Failure("complexity: Input should be a valid enumeration member")
        }
      case _ => Failure("projects: invalid")
  }

  function ParseRecommendations(j: Json): (r: Result<RecommendationsModel, string>)
    ensures r.Success? ==> forall i | 0 <= i < |r.value.certifications| :: r.value.certifications[i].estimatedTimeMonths >= 1
  {
    if !j.JObj? then Failure("recommendations: Input should be a valid dictionary")
    else
      var f := j.fields;
      match (ListField(f, "certifications", ParseCertification), ListField(f, "projects", ParseProject), ListField(f, "networking", ParseStr))
      case (Success(cs), Success(ps), Success(ns)) =>
        assert forall i | 0 <= i < |cs| :: ParseCertification(f["certifications"].items[i]) == Success(cs[i]);
        Success(RecommendationsModel(cs, ps, ns))
      case _ => Failure("recommendations: invalid")
  }

  function ParseProgressTracking(j: Json): Result<ProgressTrackingModel, string> {
    if !j.JObj? then Failure("progressTracking: Input should be a valid dictionary")
    else
      var f := j.fields;
      match (ListField(f, "weeklyCheckpoints", ParseStr), ListField(f, "successMetrics", ParseStr))
      case (Success(w), Success(s)) => Success(ProgressTrackingModel(w, s))
      case _ => Failure("progressTracking: invalid")
  }

  /** `LearningScheduleModel.model_validate`: a schedule satisfying every constraint, or the reason it does not. */
  function ParseSchedule(j: Json): (r: Result<LearningScheduleModel, string>)
    ensures r.Success? ==> ValidSchedule(r.value)
  {
    if !j.JObj? then Failure("Input should be a valid dictionary")
    else
      var f := j.fields;
      var st := StringField(f, "scheduleType");
      var weeks := RequiredInt(f, "totalDurationWeeks", 1);
      var periods := ListField(f, "schedule", ParsePeriod);
      if st.Failure? then Failure(st.error)
      else if ParseScheduleType(st.value).None? then Failure("scheduleType: Input should be 'weekly' or 'monthly'")
      else if weeks.Failure? then Failure(weeks.error)
      else if "overview" !in f then Failure("overview: Field required")
      else if ParseOverview(f["overview"]).Failure? then Failure(ParseOverview(f["overview"]).error)
      else if periods.Failure? then Failure(periods.error)
      else if "recommendations" !in f then Failure("recommendations: Field required")
      else if ParseRecommendations(f["recommendations"]).Failure? then Failure(ParseRecommendations(f["recommendations"]).error)
      else if "progressTracking" !in f then Failure("progressTracking: Field required")
      else if ParseProgressTracking(f["progressTracking"]).Failure? then Failure(ParseProgressTracking(f["progressTracking"]).error)
      else
        assert forall i | 0 <= i < |periods.value| :: ParsePeriod(f["schedule"].items[i]) == Success(periods.value[i]);
        Success(LearningScheduleModel(ParseScheduleType(st.value).value, weeks.value, ParseOverview(f["overview"]).value,
                                      periods.value, ParseRecommendations(f["recommendations"]).value,
                                      ParseProgressTracking(f["progressTracking"]).value))
  }

  // ----- serialisation (`model_dump(mode="json")`) -----

  function Strs(xs: seq<string>): Json {
    JArr(seq(|xs|, i requires 0 <= i < |xs| => JStr(xs[i])))
  }

  function ResourceToJson(r: ResourceModel): Json {
    JObj(map["name" := JStr(r.name), "type" := JStr(ResourceTypeValue(r.rtype)),
             "url" := if r.url.Some? then JStr(r.url.value) else JNull])
  }

  function ActivityToJson(a: ActivityModel): Json {
    JObj(map["activityType" := JStr(ActivityTypeValue(a.activityType)), "title" := JStr(a.title),
             "description" := JStr(a.description),
             "resources" := JArr(seq(|a.resources|, i requires 0 <= i < |a.resources| => ResourceToJson(a.resources[i]))),
             "estimatedHours" := JNum(a.estimatedHours), "priority" := JStr(PriorityValue(a.priority))])
  }

  function PeriodToJson(p: SchedulePeriodModel): Json {
    JObj(map["period" := JStr(p.period), "focus" := JStr(p.focus), "learningGoals" := Strs(p.learningGoals),
             "activities" := JArr(seq(|p.activities|, i requires 0 <= i < |p.activities| => ActivityToJson(p.activities[i]))),
             "milestones" := Strs(p.milestones)])
  }

  function OverviewToJson(o: OverviewModel): Json {
    JObj(map["skillsToLearn" := Strs(o.skillsToLearn), "skillsToImprove" := Strs(o.skillsToImprove),
             "estimatedTimePerWeek" := JStr(o.estimatedTimePerWeek)])
  }

  function CertificationToJson(c: CertificationModel): Json {
    JObj(map["name" := JStr(c.name), "provider" := JStr(c.provider), "relevance" := JStr(c.relevance),
             "estimatedTimeMonths" := JNum(c.estimatedTimeMonths)])
  }

  function ProjectToJson(p: ProjectRecommendationModel): Json {
    JObj(map["title" := JStr(p.title), "description" := JStr(p.description), "skillsApplied" := Strs(p.skillsApplied),
             "complexity" := JStr(ComplexityValue(p.complexity))])
  }

  function RecommendationsToJson(r: RecommendationsModel): Json {
    JObj(map["certifications" := JArr(seq(|r.certifications|, i requires 0 <= i < |r.certifications| => CertificationToJson(r.certifications[i]))),
             "projects" := JArr(seq(|r.projects|, i requires 0 <= i < |r.projects| => ProjectToJson(r.projects[i]))),
             "networking" := Strs(r.networking)])
  }

  function ProgressTrackingToJson(p: ProgressTrackingModel): Json {
    JObj(map["weeklyCheckpoints" := Strs(p.weeklyCheckpoints), "successMetrics" := Strs(p.successMetrics)])
  }

  function PeriodsToJson(ps: seq<SchedulePeriodModel>): (r: seq<Json>)
    ensures |r| == |ps|
  {
    seq(|ps|, i requires 0 <= i < |ps| => PeriodToJson(ps[i]))
  }

  function ScheduleToJson(m: LearningScheduleModel): Json {
    JObj(map["scheduleType" := JStr(ScheduleTypeValue(m.scheduleType)), "totalDurationWeeks" := JNum(m.totalDurationWeeks),
             "overview" := OverviewToJson(m.overview),
             "schedule" := JArr(PeriodsToJson(m.schedule)),
             "recommendations" := RecommendationsToJson(m.recommendations),
             "progressTracking" := ProgressTrackingToJson(m.progressTracking)])
  }

  // ----- round trips -----

  lemma {:induction false} ParseListOf<T>(xs: seq<T>, items: seq<Json>, parse: Json -> Result<T, string>)
    requires |items| == |xs|
    requires forall i | 0 <= i < |xs| :: parse(items[i]) == Success(xs[i])
    ensures ParseList(items, parse) == Success(xs)
  {
    if xs != [] {
      assert forall i | 1 <= i < |xs| :: items[i] == items[1..][i - 1] && xs[i] == xs[1..][i - 1];
      ParseListOf(xs[1..], items[1..], parse);
      assert [xs[0]] + xs[1..] == xs;
    }
  }

  lemma StrsRoundTrip(xs: seq<string>)
    ensures ParseList(Strs(xs).items, ParseStr) == Success(xs)
  {
    ParseListOf(xs, Strs(xs).items, ParseStr);
  }

  lemma ResourceRoundTrip(r: ResourceModel)
    ensures ParseResource(ResourceToJson(r)) == Success(r)
  {
    EnumValuesRoundTrip(Weekly, Course, High, r.rtype, Beginner);
  }

  /** A number at least the bound is read as itself. */
  lemma NumberRead(f: map<string, Json>, key: string, min: int)
    requires key in f && f[key].JNum? && f[key].n >= min
    ensures RequiredInt(f, key, min) == Success(f[key].n)
  {
  }

  /** Each field of an activity's document reads back as the activity's own value. */
  lemma ActivityFieldsRead(a: ActivityModel)
    ensures var f := ActivityToJson(a).fields;
      StringField(f, "activityType") == Success(ActivityTypeValue(a.activityType))
      && StringField(f, "title") == Success(a.title)
      && StringField(f, "description") == Success(a.description)
      && ListField(f, "resources", ParseResource) == Success(a.resources)
      && StringField(f, "priority") == Success(PriorityValue(a.priority))
  {
    var items := ActivityToJson(a).fields["resources"].items;
    forall i | 0 <= i < |a.resources| ensures ParseResource(items[i]) == Success(a.resources[i]) {
      ResourceRoundTrip(a.resources[i]);
    }
    ParseListOf(a.resources, items, ParseResource);
  }

  lemma ActivityRoundTrip(a: ActivityModel)
    requires ValidActivity(a)
    ensures ParseActivity(ActivityToJson(a)) == Success(a)
  {
    EnumValuesRoundTrip(Weekly, a.activityType, a.priority, Platform, Beginner);
    ActivityFieldsRead(a);
    var f := ActivityToJson(a).fields;
    NumberRead(f, "estimatedHours", 1);
  }

  lemma PeriodRoundTrip(p: SchedulePeriodModel)
    requires ValidPeriod(p)
    ensures ParsePeriod(PeriodToJson(p)) == Success(p)
  {
    var f := PeriodToJson(p).fields;
    PeriodDumpFields(p);
    StrsField(f, "learningGoals", p.learningGoals);
    StrsField(f, "milestones", p.milestones);
    ActivitiesRead(p);
    var read := (StringField(f, "period"), StringField(f, "focus"), ListField(f, "learningGoals", ParseStr),
                 ListField(f, "activities", ParseActivity), ListField(f, "milestones", ParseStr));
    assert read == (Success(p.period), Success(p.focus), Success(p.learningGoals), Success(p.activities), Success(p.milestones));
  }

  /** The entries of a period's dump. */
  lemma PeriodDumpFields(p: SchedulePeriodModel)
    ensures var f := PeriodToJson(p).fields;
      f["period"] == JStr(p.period) && f["focus"] == JStr(p.focus) && f["learningGoals"] == Strs(p.learningGoals)
      && f["milestones"] == Strs(p.milestones)
  {
  }

  /** A list of strings dumped under `key` is read back by its list field. */
  lemma StrsField(f: map<string, Json>, key: string, xs: seq<string>)
    requires key in f && f[key] == Strs(xs)
    ensures ListField(f, key, ParseStr) == Success(xs)
  {
    StrsRoundTrip(xs);
  }

  lemma ActivitiesRead(p: SchedulePeriodModel)
    requires ValidPeriod(p)
    ensures ListField(PeriodToJson(p).fields, "activities", ParseActivity) == Success(p.activities)
  {
    var items := PeriodToJson(p).fields["activities"].items;
    forall i | 0 <= i < |p.activities| ensures ParseActivity(items[i]) == Success(p.activities[i]) {
      ActivityRoundTrip(p.activities[i]);
    }
    ParseListOf(p.activities, items, ParseActivity);
  }

  lemma CertificationRoundTrip(c: CertificationModel)
    requires c.estimatedTimeMonths >= 1
    ensures ParseCertification(CertificationToJson(c)) == Success(c)
  {
    NumberRead(CertificationToJson(c).fields, "estimatedTimeMonths", 1);
  }

  lemma ProjectRoundTrip(p: ProjectRecommendationModel)
    ensures ParseProject(ProjectToJson(p)) == Success(p)
  {
    EnumValuesRoundTrip(Weekly, Course, High, Platform, p.complexity);
    StrsRoundTrip(p.skillsApplied);
  }

  lemma RecommendationsRoundTrip(r: RecommendationsModel)
    requires forall i | 0 <= i < |r.certifications| :: r.certifications[i].estimatedTimeMonths >= 1
    ensures ParseRecommendations(RecommendationsToJson(r)) == Success(r)
  {
    var f := RecommendationsToJson(r).fields;
    StrsRoundTrip(r.networking);
    forall i | 0 <= i < |r.certifications| ensures ParseCertification(f["certifications"].items[i]) == Success(r.certifications[i]) {
      CertificationRoundTrip(r.certifications[i]);
    }
    ParseListOf(r.certifications, f["certifications"].items, ParseCertification);
    forall i | 0 <= i < |r.projects| ensures ParseProject(f["projects"].items[i]) == Success(r.projects[i]) {
      ProjectRoundTrip(r.projects[i]);
    }
    ParseListOf(r.projects, f["projects"].items, ParseProject);
  }

  lemma OverviewRoundTrip(o: OverviewModel)
    ensures ParseOverview(OverviewToJson(o)) == Success(o)
  {
    StrsRoundTrip(o.skillsToLearn);
    StrsRoundTrip(o.skillsToImprove);
  }

  lemma ProgressTrackingRoundTrip(p: ProgressTrackingModel)
    ensures ParseProgressTracking(ProgressTrackingToJson(p)) == Success(p)
  {
    StrsRoundTrip(p.weeklyCheckpoints);
    StrsRoundTrip(p.successMetrics);
  }

  lemma PeriodsRoundTrip(ps: seq<SchedulePeriodModel>)
    requires forall i | 0 <= i < |ps| :: ValidPeriod(ps[i])
    ensures ParseList(PeriodsToJson(ps), ParsePeriod) == Success(ps)
  {
    var items := PeriodsToJson(ps);
    forall i | 0 <= i < |ps| ensures ParsePeriod(items[i]) == Success(ps[i]) {
      PeriodRoundTrip(ps[i]);
    }
    ParseListOf(ps, items, ParsePeriod);
  }

  /** Where each part of a schedule sits in its dump. */
  lemma ScheduleFields(m: LearningScheduleModel)
    ensures var f := ScheduleToJson(m).fields;
      && "scheduleType" in f && f["scheduleType"] == JStr(ScheduleTypeValue(m.scheduleType))
      && "totalDurationWeeks" in f && f["totalDurationWeeks"] == JNum(m.totalDurationWeeks)
      && "overview" in f && f["overview"] == OverviewToJson(m.overview)
      && "schedule" in f && f["schedule"] == JArr(PeriodsToJson(m.schedule))
      && "recommendations" in f && f["recommendations"] == RecommendationsToJson(m.recommendations)
      && "progressTracking" in f && f["progressTracking"] == ProgressTrackingToJson(m.progressTracking)
  {
  }

  lemma ScheduleHeadFields(m: LearningScheduleModel)
    requires ValidSchedule(m)
    ensures StringField(ScheduleToJson(m).fields, "scheduleType") == Success(ScheduleTypeValue(m.scheduleType))
    ensures ParseScheduleType(ScheduleTypeValue(m.scheduleType)) == Some(m.scheduleType)
    ensures RequiredInt(ScheduleToJson(m).fields, "totalDurationWeeks", 1) == Success(m.totalDurationWeeks)
  {
    ScheduleFields(m);
    EnumValuesRoundTrip(m.scheduleType, Course, High, Platform, Beginner);
  }

  lemma ScheduleNestedFields(m: LearningScheduleModel)
    requires ValidSchedule(m)
    ensures "overview" in ScheduleToJson(m).fields
    ensures ParseOverview(ScheduleToJson(m).fields["overview"]) == Success(m.overview)
    ensures "recommendations" in ScheduleToJson(m).fields
    ensures ParseRecommendations(ScheduleToJson(m).fields["recommendations"]) == Success(m.recommendations)
    ensures "progressTracking" in ScheduleToJson(m).fields
    ensures ParseProgressTracking(ScheduleToJson(m).fields["progressTracking"]) == Success(m.progressTracking)
  {
    ScheduleFields(m);
    OverviewRoundTrip(m.overview);
    RecommendationsRoundTrip(m.recommendations);
    ProgressTrackingRoundTrip(m.progressTracking);
  }

  lemma SchedulePeriodsField(m: LearningScheduleModel)
    requires ValidSchedule(m)
    ensures ListField(ScheduleToJson(m).fields, "schedule", ParsePeriod) == Success(m.schedule)
  {
    ScheduleFields(m);
    PeriodsRoundTrip(m.schedule);
  }

  /** A document whose every field reads back as the schedule's own value validates to that schedule. */
  lemma ParseScheduleOf(j: Json, m: LearningScheduleModel)
    requires j.JObj?
    requires StringField(j.fields, "scheduleType") == Success(ScheduleTypeValue(m.scheduleType))
    requires ParseScheduleType(ScheduleTypeValue(m.scheduleType)) == Some(m.scheduleType)
    requires RequiredInt(j.fields, "totalDurationWeeks", 1) == Success(m.totalDurationWeeks)
    requires "overview" in j.fields && ParseOverview(j.fields["overview"]) == Success(m.overview)
    requires ListField(j.fields, "schedule", ParsePeriod) == Success(m.schedule)
    requires "recommendations" in j.fields && ParseRecommendations(j.fields["recommendations"]) == Success(m.recommendations)
    requires "progressTracking" in j.fields && ParseProgressTracking(j.fields["progressTracking"]) == Success(m.progressTracking)
    ensures ParseSchedule(j) == Success(m)
  {
  }

  /** Validating the dump of a schedule that satisfies the constraints gives the schedule back. */
  lemma ScheduleRoundTrip(m: LearningScheduleModel)
    requires ValidSchedule(m)
    ensures ParseSchedule(ScheduleToJson(m)) == Success(m)
  {
    ScheduleHeadFields(m);
    ScheduleNestedFields(m);
    SchedulePeriodsField(m);
    ParseScheduleOf(ScheduleToJson(m), m);
  }

  /**
   * The schedule a document validates to satisfies every constraint, and dumping and validating
   * it again gives the same schedule.
   */
  lemma ValidatedIsValid(j: Json)
    requires ParseSchedule(j).Success?
    ensures ValidSchedule(ParseSchedule(j).value)
    ensures ParseSchedule(ScheduleToJson(ParseSchedule(j).value)) == ParseSchedule(j)
  {
    ScheduleRoundTrip(ParseSchedule(j).value);
  }

  // ----- the documented example -----

  const Example := LearningScheduleModel(
    Weekly, 8,
    OverviewModel(["React", "TypeScript", "REST APIs"], ["Python", "SQL"], "10-15 hours"),
    [SchedulePeriodModel(
      "Week 1", "React Fundamentals", ["Understand React basics", "Build first component"],
      [ActivityModel(Course, "React Basics Course", "Complete React fundamentals",
                     [ResourceModel("React Documentation", Documentation, Some("https://react.dev"))], 10, High)],
      ["Complete first React app"])],
    RecommendationsModel([], [], ["Join React developer communities"]),
    ProgressTrackingModel(["Review completed activities"], ["Projects completed", "Skills mastered"]))

  /** The example schedule of the schema satisfies it and survives a dump and validation. */
  lemma ExampleIsValid()
    ensures ValidSchedule(Example)
    ensures ParseSchedule(ScheduleToJson(Example)) == Success(Example)
  {
    ScheduleRoundTrip(Example);
  }

  // ----- the request body -----

  /** The body of POST /learning-schedule/generate. */
  datatype LearningScheduleRequest = LearningScheduleRequest(
    resumeId: string, jobId: string, scheduleType: ScheduleType, durationWeeks: Option<int>)

  /** Validation of the request body: the schedule type defaults to weekly, the duration to 8 weeks, and an explicit null is kept. */
  function ParseRequest(j: Json): (r: Result<LearningScheduleRequest, string>)
    ensures r.Success? ==> r.value.durationWeeks.Some? ==> 1 <= r.value.durationWeeks.value <= 52
    ensures r.Success? ==> j.JObj? && ("durationWeeks" !in j.fields ==> r.value.durationWeeks == Some(8))
    ensures r.Success? ==> j.JObj? && ("scheduleType" !in j.fields ==> r.value.scheduleType == Weekly)
  {
    if !j.JObj? then Failure("Input should be a valid dictionary")
    else
      var f := j.fields;
      match (StringField(f, "resumeId"), StringField(f, "jobId"))
      case (Success(resumeId), Success(jobId)) =>
        var st := if "scheduleType" !in f then Some(Weekly)
                  else if f["scheduleType"].JStr? then ParseScheduleType(f["scheduleType"].s) else None;
        var weeks: Result<Option<int>, string> :=
          if "durationWeeks" !in f then Success(Some(8))
          else if f["durationWeeks"] == JNull then Success(None)
          else if LaxInt(f["durationWeeks"]).Some? && 1 <= LaxInt(f["durationWeeks"]).value <= 52 then
            Success(Some(LaxInt(f["durationWeeks"]).value))
          else Failure("durationWeeks: Input should be between 1 and 52");
        if st.None? then Failure("scheduleType: Input should be 'weekly' or 'monthly'")
        else if weeks.Failure? then Failure(weeks.error)
        else Success(LearningScheduleRequest(resumeId, jobId, st.value, weeks.value))
      case (Failure(e), _) => Failure(e)
      case (_, Failure(e)) => Failure(e)
  }

  /**
   * The request validates exactly when both ids are strings, the type is known and the duration
   * is null or an integer (in lax mode) within 1..52, which is then the one kept.
   */
  lemma RequestAccepted(j: Json)
    requires j.JObj?
    ensures ParseRequest(j).Success? <==>
      ("resumeId" in j.fields && j.fields["resumeId"].JStr?)
      && ("jobId" in j.fields && j.fields["jobId"].JStr?)
      && ("scheduleType" in j.fields ==>
            (j.fields["scheduleType"] == JStr("weekly") || j.fields["scheduleType"] == JStr("monthly")))
      && ("durationWeeks" in j.fields ==>
            (j.fields["durationWeeks"] == JNull
             || (LaxInt(j.fields["durationWeeks"]).Some? && 1 <= LaxInt(j.fields["durationWeeks"]).value <= 52)))
    ensures ParseRequest(j).Success? && "durationWeeks" in j.fields && j.fields["durationWeeks"] != JNull ==>
      ParseRequest(j).value.durationWeeks == LaxInt(j.fields["durationWeeks"])
  {
  }
}
