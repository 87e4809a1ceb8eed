/**
 * The resume preview on the dashboard: which blocks show for a processed resume, the date
 * ranges, the cut-down experience descriptions, the joined name and location, and the skills
 * grouped by category.
 */
module ResumePreview {
  import opened Wrappers
  import JsonData
  import opened Text

  datatype Location = Location(city: Option<string>, country: Option<string>)

  datatype PersonalData = PersonalData(firstName: Option<string>, lastName: Option<string>, title: Option<string>,
                                       email: Option<string>, phone: Option<string>, location: Option<Location>)

  datatype Experience = Experience(jobTitle: Option<string>, company: Option<string>, location: Option<string>,
                                   startDate: Option<string>, endDate: Option<string>,
                                   description: Option<seq<string>>, technologiesUsed: Option<seq<string>>)

  datatype Skill = Skill(category: Option<string>, skillName: Option<string>)

  /** The resume document; the blocks the model does not inspect keep their raw items. */
  datatype ResumeData = ResumeData(personal: Option<PersonalData>, experiences: Option<seq<Experience>>,
                                   education: Option<seq<JsonData.Json>>, projects: Option<seq<JsonData.Json>>,
                                   skills: Option<seq<Skill>>, research: Option<seq<JsonData.Json>>,
                                   achievements: Option<seq<string>>)

  datatype Block = Placeholder | Personal | Experiences | Education | Projects | Skills | Research | Achievements | Processed

  /** A list block shows when its list is present and non-empty. */
  predicate Listed<T>(items: Option<seq<T>>) {
    items.Some? && |items.value| > 0
  }

  /** The order of the blocks on the page, between the placeholder and the closing message. */
  const PageOrder := [Personal, Experiences, Education, Projects, Skills, Research, Achievements]

  /** Whether a block of the page order shows for the resume data. */
  predicate Shows(d: ResumeData, b: Block) {
    match b
    case Personal => d.personal.Some?
    case Experiences => Listed(d.experiences)
    case Education => Listed(d.education)
    case Projects => Listed(d.projects)
    case Skills => Listed(d.skills)
    case Research => Listed(d.research)
    case Achievements => Listed(d.achievements)
    case _ => false
  }

  /** The blocks of `order` that show, in order. */
  function Showing(d: ResumeData, order: seq<Block>): (r: seq<Block>)
    ensures forall b :: b in r <==> b in order && Shows(d, b)
  {
    if order == [] then []
    else (if Shows(d, order[0]) then [order[0]] else []) + Showing(d, order[1..])
  }

  /** The blocks the preview shows, top to bottom. */
  function Blocks(resume: Option<ResumeData>): (r: seq<Block>)
    ensures resume.None? ==> r == [Placeholder]
    ensures resume.Some? ==> Processed in r && Placeholder !in r
    ensures resume.Some? ==> (Experiences in r <==> Listed(resume.value.experiences))
    ensures resume.Some? ==> (Skills in r <==> Listed(resume.value.skills))
    ensures resume.Some? ==> (Personal in r <==> resume.value.personal.Some?)
  {
    match resume
    case None => [Placeholder]
    case Some(d) =>
      var shown := Showing(d, PageOrder);
      assert Experiences in PageOrder && Skills in PageOrder && Personal in PageOrder;
      shown + [Processed]
  }

  /**
   * `formatDateRange`: nothing without a start; otherwise the year and month of the start, a
   * dash, and the year and month of the end, or "Present" for a missing or empty end.
   */
  function FormatDateRange(startDate: Option<string>, endDate: Option<string>): (r: string)
    ensures !Given(startDate) ==> r == ""
    ensures Given(startDate) && Given(endDate) ==> r == Take(startDate.value, 7) + " - " + Take(endDate.value, 7)
    ensures Given(startDate) && !Given(endDate) ==> r == Take(startDate.value, 7) + " - Present"
  {
    if !Given(startDate) then ""
    else
      var start := Take(startDate.value, 7);
      var end: Option<string> := if endDate == Some("Present") then Some("Present")
                                 else if endDate.Some? then Some(Take(endDate.value, 7)) else None;
      start + " - " + (if Given(end) then end.value else "Present")
  }

  /** The end-date special case for "Present" changes nothing: cutting "Present" to 7 characters keeps it whole. */
  lemma PresentCaseRedundant(startDate: string)
    requires startDate != ""
    ensures FormatDateRange(Some(startDate), Some("Present")) == FormatDateRange(Some(startDate), Some(Take("Present", 7)))
    ensures FormatDateRange(Some(startDate), Some("Present")) == FormatDateRange(Some(startDate), None)
  {
  }

  /** `exp.description || []`. */
  function Descriptions(exp: Experience): seq<string> {
    if exp.description.Some? then exp.description.value else []
  }

  function Technologies(exp: Experience): seq<string> {
    if exp.technologiesUsed.Some? then exp.technologiesUsed.value else []
  }

  /** An experience renders unless it has no title, company, dates, descriptions or technologies. */
  predicate ExperienceShown(exp: Experience) {
    Given(exp.jobTitle) || Given(exp.company) || Given(exp.startDate) || Given(exp.endDate)
    || |Descriptions(exp)| > 0 || |Technologies(exp)| > 0
  }

  /** The experiences the block renders, in order: every one with something to show, and no other. */
  function ShownExperiences(exps: seq<Experience>): (r: seq<Experience>)
    ensures |r| <= |exps|
  {
    if exps == [] then []
    else (if ExperienceShown(exps[0]) then [exps[0]] else []) + ShownExperiences(exps[1..])
  }

  /** An experience is rendered exactly when it is in the list and has something to show. */
  lemma {:induction false} ShownExperiencesMembers(exps: seq<Experience>)
    ensures forall e :: e in ShownExperiences(exps) <==> e in exps && ExperienceShown(e)
  {
    if exps != [] {
      ShownExperiencesMembers(exps[1..]);
      assert forall e :: e in exps <==> e == exps[0] || e in exps[1..];
    }
  }

  /**
   * The block keeps the order of the list and each entry's multiplicity: appending an
   * experience appends it to what is shown exactly when it has something to show.
   */
  lemma {:induction false} ShownExperiencesSnoc(exps: seq<Experience>, e: Experience)
    ensures ShownExperiences(exps + [e]) == ShownExperiences(exps) + (if ExperienceShown(e) then [e] else [])
  {
    var tail := if ExperienceShown(e) then [e] else [];
    if exps == [] {
      assert exps + [e] == [e];
      assert ShownExperiences([e]) == tail + ShownExperiences([]);
    } else {
      var head := if ExperienceShown(exps[0]) then [exps[0]] else [];
      var longer := exps + [e];
      assert longer[0] == exps[0] && longer[1..] == exps[1..] + [e];
      assert ShownExperiences(longer) == head + ShownExperiences(exps[1..] + [e]);
      ShownExperiencesSnoc(exps[1..], e);
      assert ShownExperiences(exps) == head + ShownExperiences(exps[1..]);
      assert head + (ShownExperiences(exps[1..]) + tail) == (head + ShownExperiences(exps[1..])) + tail;
    }
  }

  /** The description lines of an experience: the first two, then "+N more" for the rest. */
  function DescriptionLines(descriptions: seq<string>): (r: seq<string>)
    ensures |descriptions| <= 2 ==> r == descriptions
    ensures |descriptions| > 2 ==> r == descriptions[..2] + ["+" + NatToString(|descriptions| - 2) + " more"]
    ensures |r| == if |descriptions| > 2 then 3 else |descriptions|
  {
    var hidden := Hidden(descriptions, 2);
    Take(descriptions, 2) + (if hidden > 0 then ["+" + NatToString(hidden) + " more"] else [])
  }

  /** `[a, b].filter(Boolean).join(sep)`. */
  function JoinGiven(a: Option<string>, b: Option<string>, sep: string): (r: string)
    ensures Given(a) && Given(b) ==> r == a.value + sep + b.value
    ensures Given(a) && !Given(b) ==> r == a.value
    ensures !Given(a) && Given(b) ==> r == b.value
    ensures !Given(a) && !Given(b) ==> r == ""
  {
    var parts := (if Given(a) then [a.value] else []) + (if Given(b) then [b.value] else []);
    assert Given(a) && Given(b) ==> parts[1..] == [b.value] && Join(parts[1..], sep) == b.value;
    Join(parts, sep)
  }

  /** The name line: shown when either name is given, first and last joined by a space. */
  function FullName(p: PersonalData): (r: Option<string>)
    ensures r.Some? <==> Given(p.firstName) || Given(p.lastName)
    ensures r.Some? ==> r.value == JoinGiven(p.firstName, p.lastName, " ") && r.value != ""
  {
    if Given(p.firstName) || Given(p.lastName) then Some(JoinGiven(p.firstName, p.lastName, " ")) else None
  }

  /** The location line: shown whenever a location object exists, even one with neither part. */
  function LocationLine(p: PersonalData): (r: Option<string>)
    ensures r.Some? <==> p.location.Some?
    ensures r.Some? ==> r.value == JoinGiven(p.location.value.city, p.location.value.country, ", ")
  {
    if p.location.Some? then Some(JoinGiven(p.location.value.city, p.location.value.country, ", ")) else None
  }

  // ----- skills grouped by category -----

  /** The group a skill goes to: its category, or "Other" when it has none. */
  function CategoryOf(s: Skill): string {
    if Given(s.category) then s.category.value else "Other"
  }

  /**
   * The names a plain object `{}` already answers through `Object.prototype`. Looking one of
   * them up in the accumulator finds the inherited function (for `__proto__`, the prototype
   * itself), which is truthy, so no array is ever created under it and `Object.entries`, which
   * lists own properties only, never shows it.
   */
  const Inherited: set<string> := {"constructor", "toString", "toLocaleString", "valueOf", "hasOwnProperty",
                                   "isPrototypeOf", "propertyIsEnumerable", "__proto__", "__defineGetter__",
                                   "__defineSetter__", "__lookupGetter__", "__lookupSetter__"}

  /** What the browser raises when a named skill is pushed onto an inherited member. */
  const PushNotAFunction := "acc[category].push is not a function"

  /** The categories that get a group, in order of first appearance: those of the skills, less the inherited names. */
  function Categories(skills: seq<Skill>, inherited: set<string>): (r: seq<string>)
    ensures forall i, j | 0 <= i < j < |r| :: r[i] != r[j]
    ensures forall c :: c in r <==> c !in inherited && exists k | 0 <= k < |skills| :: CategoryOf(skills[k]) == c
  {
    if skills == [] then []
    else
      var init := skills[..|skills| - 1];
      var c := CategoryOf(skills[|skills| - 1]);
      var r := Categories(init, inherited);
      assert forall k | 0 <= k < |init| :: init[k] == skills[k];
      if c in r || c in inherited then r else r + [c]
  }

  /** The names of the skills in category `c` that have a name, in order. */
  function NamesIn(skills: seq<Skill>, c: string): (r: seq<string>)
    ensures |r| <= |skills|
  {
    if skills == [] then []
    else
      var last := skills[|skills| - 1];
      NamesIn(skills[..|skills| - 1], c) + (if CategoryOf(last) == c && Given(last.skillName) then [last.skillName.value] else [])
  }

  /** Whether the skill at `k` has a name and an inherited category, so that pushing its name throws. */
  predicate PushFails(skills: seq<Skill>, k: int, inherited: set<string>)
    requires 0 <= k < |skills|
  {
    CategoryOf(skills[k]) in inherited && Given(skills[k].skillName)
  }

  /** The own keys of the accumulator in the order they were created, and the array under each. */
  type Accumulator = (seq<string>, map<string, seq<string>>)

  /** One call of the reducer; `None` once a push has thrown. */
  function Push(acc: Option<Accumulator>, skill: Skill, inherited: set<string>): (r: Option<Accumulator>)
    ensures r.None? <==> acc.None? || (CategoryOf(skill) in inherited && Given(skill.skillName))
  {
    match acc
    case None => None
    case Some((order, groups)) =>
      var category := CategoryOf(skill);
      if category in inherited then
        if Given(skill.skillName) then None else acc
      else
        var created := if category in groups then groups else groups[category := []];
        var order' := if category in groups then order else order + [category];
        Some((order', if Given(skill.skillName) then created[category := created[category] + [skill.skillName.value]] else created))
  }

  /** The accumulator of the `reduce` after `skills`, starting from `{}`. */
  function Reduced(skills: seq<Skill>, inherited: set<string>): Option<Accumulator> {
    if skills == [] then Some(([], map[])) else Push(Reduced(skills[..|skills| - 1], inherited), skills[|skills| - 1], inherited)
  }

  /** The reduction throws exactly when some named skill has an inherited category. */
  lemma {:induction false} ReducedFails(skills: seq<Skill>, inherited: set<string>)
    ensures Reduced(skills, inherited).None? <==> exists k | 0 <= k < |skills| :: PushFails(skills, k, inherited)
  {
    if skills != [] {
      var n := |skills| - 1;
      var init := skills[..n];
      ReducedFails(init, inherited);
      if Reduced(init, inherited).None? {
        var k :| 0 <= k < |init| && PushFails(init, k, inherited);
        assert init[k] == skills[k];
        assert PushFails(skills, k, inherited);
      } else {
        forall k | 0 <= k < n
          ensures !PushFails(skills, k, inherited)
        {
          assert init[k] == skills[k];
          assert !PushFails(init, k, inherited);
        }
        assert Reduced(skills, inherited).None? <==> PushFails(skills, n, inherited);
      }
    }
  }

  /** Without a throw, the keys are the categories in order and each array holds its category's names. */
  lemma {:induction false} ReducedGroups(skills: seq<Skill>, inherited: set<string>)
    requires Reduced(skills, inherited).Some?
    ensures Reduced(skills, inherited).value.0 == Categories(skills, inherited)
    ensures Reduced(skills, inherited).value.1.Keys == set c | c in Categories(skills, inherited)
    ensures forall c | c in Reduced(skills, inherited).value.1 :: Reduced(skills, inherited).value.1[c] == NamesIn(skills, c)
  {
    if skills != [] {
      var i := |skills| - 1;
      var init := skills[..i];
      assert skills[..i + 1] == skills;
      ReducedGroups(init, inherited);
      GroupStep(skills, i, inherited);
      var category := CategoryOf(skills[i]);
      if category !in inherited && category !in Categories(init, inherited) {
        assert forall k | 0 <= k < |init| :: CategoryOf(init[k]) != category;
        NamesOutside(init, category);
      }
    }
  }

  /**
   * The skills block: one group per category in order of first appearance, each listing the
   * names of its skills in order; a skill without a name still opens its group. A named skill
   * whose category is an inherited name makes the reduction throw; a nameless one is dropped.
   */
  method GroupSkills(skills: seq<Skill>) returns (r: Result<seq<(string, seq<string>)>, string>)
    ensures r.Failure? <==> exists k | 0 <= k < |skills| :: PushFails(skills, k, Inherited)
    ensures r.Failure? ==> r.error == PushNotAFunction
    ensures r.Success? ==> |r.value| == |Categories(skills, Inherited)|
    ensures r.Success? ==> forall i | 0 <= i < |r.value| ::
      r.value[i] == (Categories(skills, Inherited)[i], NamesIn(skills, Categories(skills, Inherited)[i]))
  {
    var order: seq<string> := [];
    var acc: map<string, seq<string>> := map[];
    var i := 0;
    while i < |skills|
      invariant 0 <= i <= |skills|
      invariant Reduced(skills[..i], Inherited) == Some((order, acc))
    {
      var skill := skills[i];
      var category := CategoryOf(skill);
      assert skills[..i + 1][..i] == skills[..i];
      if category in Inherited {
        if Given(skill.skillName) {
          ReducedFails(skills, Inherited);
          assert PushFails(skills, i, Inherited);
          return Failure(PushNotAFunction);
        }
      } else {
        if category !in acc {
          acc := acc[category := []];
          order := order + [category];
        }
        if Given(skill.skillName) {
          acc := acc[category := acc[category] + [skill.skillName.value]];
        }
      }
      i := i + 1;
    }
    assert skills[..i] == skills;
    ReducedFails(skills, Inherited);
    ReducedGroups(skills, Inherited);
    r := Success(seq(|order|, k requires 0 <= k < |order| => (order[k], acc[order[k]])));
  }

  /** One more skill: how the categories and the names of every category grow. */
  lemma GroupStep(skills: seq<Skill>, i: nat, inherited: set<string>)
    requires i < |skills|
    ensures var c := CategoryOf(skills[i]);
      Categories(skills[..i + 1], inherited) ==
        if c in Categories(skills[..i], inherited) || c in inherited then Categories(skills[..i], inherited)
        else Categories(skills[..i], inherited) + [c]
    ensures forall c :: (NamesIn(skills[..i + 1], c) ==
      NamesIn(skills[..i], c) + (if CategoryOf(skills[i]) == c && Given(skills[i].skillName) then [skills[i].skillName.value] else []))
  {
    assert skills[..i + 1][..i] == skills[..i];
  }

  /** A category no skill belongs to has no names. */
  lemma {:induction false} NamesOutside(skills: seq<Skill>, c: string)
    requires forall k | 0 <= k < |skills| :: CategoryOf(skills[k]) != c
    ensures NamesIn(skills, c) == []
  {
    if skills != [] {
      var init := skills[..|skills| - 1];
      assert forall k | 0 <= k < |init| :: init[k] == skills[k];
      NamesOutside(init, c);
    }
  }

  /** Every named skill appears under its own category. */
  lemma {:induction false} NamedSkillListed(skills: seq<Skill>, k: nat)
    requires k < |skills| && Given(skills[k].skillName)
    ensures skills[k].skillName.value in NamesIn(skills, CategoryOf(skills[k]))
  {
    var init := skills[..|skills| - 1];
    if k < |skills| - 1 {
      assert init[k] == skills[k];
      NamedSkillListed(init, k);
    }
  }
}
