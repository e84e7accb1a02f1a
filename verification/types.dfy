/** The records of types.ts and the JSON document each one becomes once it
    is stored in a project (JSON drops the optional fields that are absent). */
module Types {
  import opened Base
  import opened Document

  datatype Faq = Faq(question: string, answer: string)

  datatype Person = Person(
    name: string,
    linkedin: string,
    title: Option<string>,
    location: Option<string>,
    relevancyScore: int,
    expertiseSummary: string)

  datatype Company = Company(
    name: string,
    linkedin: string,
    reason: Option<string>,
    location: Option<string>,
    relevancyScore: Option<int>,
    relevancyReason: Option<string>)

  /** `Person | Company`: the list of leads mixes both. */
  datatype Lead = PersonLead(person: Person) | CompanyLead(company: Company)

  datatype Lesson = Lesson(
    title: string,
    description: string,
    lectureNotes: Option<string>,
    keyTalkingPoints: Option<string>,
    quizQuestions: Option<string>)

  datatype CourseModule = CourseModule(title: string, lessons: seq<Lesson>)

  datatype CurriculumDay = CurriculumDay(day: int, title: string, modules: seq<CourseModule>)

  datatype Competitor = Competitor(name: string, provider: string, url: string)

  datatype MarketAnalysis = MarketAnalysis(suggestedPricing: string, competitorCourses: seq<Competitor>)

  datatype Course = Course(
    title: string,
    description: string,
    learningOutcomes: seq<string>,
    keyAssignment: string,
    curriculum: seq<CurriculumDay>,
    marketAnalysis: MarketAnalysis,
    potentialInstructors: seq<Person>,
    potentialLeads: seq<Lead>,
    faq: seq<Faq>)

  /** A saved project. The course is kept as the JSON object it is at run
      time (the fields of `CourseFields(c)` for the generated course `c`),
      because every later edit goes through the untyped path mutator. */
  datatype Project = Project(id: string, topic: string, course: map<string, Json>, createdAt: string)

  // ---- JSON encoding (what JSON.stringify keeps) ----

  function WithOpt(m: map<string, Json>, key: string, o: Option<string>): map<string, Json> {
    if o.Some? then m[key := Str(o.value)] else m
  }

  function StrArr(s: seq<string>): (r: Json)
    ensures r.Arr? && |r.items| == |s|
    ensures forall i :: 0 <= i < |s| ==> r.items[i] == Str(s[i])
  {
    Arr(seq(|s|, i requires 0 <= i < |s| => Str(s[i])))
  }

  function FaqToJson(f: Faq): Json {
    Obj(map["question" := Str(f.question), "answer" := Str(f.answer)])
  }

  function PersonToJson(p: Person): Json {
    var base := map["name" := Str(p.name), "linkedin" := Str(p.linkedin),
                    "relevancyScore" := Num(p.relevancyScore),
                    "expertiseSummary" := Str(p.expertiseSummary)];
    Obj(WithOpt(WithOpt(base, "title", p.title), "location", p.location))
  }

  function CompanyToJson(c: Company): Json {
    var base := map["name" := Str(c.name), "linkedin" := Str(c.linkedin)];
    var withScore := if c.relevancyScore.Some? then base["relevancyScore" := Num(c.relevancyScore.value)] else base;
    Obj(WithOpt(WithOpt(WithOpt(withScore, "reason", c.reason), "location", c.location),
                "relevancyReason", c.relevancyReason))
  }

  function LeadToJson(l: Lead): Json {
    match l
    case PersonLead(p) => PersonToJson(p)
    case CompanyLead(c) => CompanyToJson(c)
  }

  function LessonToJson(l: Lesson): Json {
    var base := map["title" := Str(l.title), "description" := Str(l.description)];
    Obj(WithOpt(WithOpt(WithOpt(base, "lectureNotes", l.lectureNotes),
                        "keyTalkingPoints", l.keyTalkingPoints),
                "quizQuestions", l.quizQuestions))
  }

  function ModuleToJson(m: CourseModule): Json {
    Obj(map["title" := Str(m.title),
            "lessons" := Arr(seq(|m.lessons|, i requires 0 <= i < |m.lessons| => LessonToJson(m.lessons[i])))])
  }

  function DayToJson(d: CurriculumDay): Json {
    Obj(map["day" := Num(d.day), "title" := Str(d.title),
            "modules" := Arr(seq(|d.modules|, i requires 0 <= i < |d.modules| => ModuleToJson(d.modules[i])))])
  }

  function CompetitorToJson(c: Competitor): Json {
    Obj(map["name" := Str(c.name), "provider" := Str(c.provider), "url" := Str(c.url)])
  }

  function MarketToJson(m: MarketAnalysis): Json {
    Obj(map["suggestedPricing" := Str(m.suggestedPricing),
            "competitorCourses" := Arr(seq(|m.competitorCourses|,
               i requires 0 <= i < |m.competitorCourses| => CompetitorToJson(m.competitorCourses[i])))])
  }

  function CurriculumToJson(days: seq<CurriculumDay>): (r: Json)
    ensures r.Arr? && |r.items| == |days|
    ensures forall i :: 0 <= i < |days| ==> r.items[i] == DayToJson(days[i])
  {
    Arr(seq(|days|, i requires 0 <= i < |days| => DayToJson(days[i])))
  }

  /** The nine properties of a course object (types.ts:53-63). */
  const CourseKeys: set<string> :=
    {"title", "description", "learningOutcomes", "keyAssignment", "curriculum",
     "marketAnalysis", "potentialInstructors", "potentialLeads", "faq"}

  function CourseFields(c: Course): (m: map<string, Json>)
    ensures m.Keys == CourseKeys
    ensures m["learningOutcomes"] == StrArr(c.learningOutcomes)
    ensures m["curriculum"] == CurriculumToJson(c.curriculum)
  {
    map["title" := Str(c.title),
        "description" := Str(c.description),
        "learningOutcomes" := StrArr(c.learningOutcomes),
        "keyAssignment" := Str(c.keyAssignment),
        "curriculum" := CurriculumToJson(c.curriculum),
        "marketAnalysis" := MarketToJson(c.marketAnalysis),
        "potentialInstructors" := Arr(seq(|c.potentialInstructors|,
           i requires 0 <= i < |c.potentialInstructors| => PersonToJson(c.potentialInstructors[i]))),
        "potentialLeads" := Arr(seq(|c.potentialLeads|,
           i requires 0 <= i < |c.potentialLeads| => LeadToJson(c.potentialLeads[i]))),
        "faq" := Arr(seq(|c.faq|, i requires 0 <= i < |c.faq| => FaqToJson(c.faq[i])))]
  }

  /** A lead is told apart by the presence of `expertiseSummary`
      (types.ts:13, 16-23): every person has one, no company does. */
  lemma LeadDiscriminator(l: Lead)
    ensures LeadToJson(l).Obj?
    ensures "expertiseSummary" in LeadToJson(l).fields <==> l.PersonLead?
  {
  }

  /** A lesson object always holds its title and description and otherwise
      at most the three generated fields, each exactly when it is present
      (types.ts:25-31). */
  lemma LessonShape(l: Lesson)
    ensures LessonToJson(l).Obj?
    ensures {"title", "description"} <= LessonToJson(l).fields.Keys
    ensures LessonToJson(l).fields.Keys <=
            {"title", "description", "lectureNotes", "keyTalkingPoints", "quizQuestions"}
    ensures ("lectureNotes" in LessonToJson(l).fields) == l.lectureNotes.Some?
    ensures ("keyTalkingPoints" in LessonToJson(l).fields) == l.keyTalkingPoints.Some?
    ensures ("quizQuestions" in LessonToJson(l).fields) == l.quizQuestions.Some?
  {
  }
}
