/** The helpers of components/CourseOutline.tsx: the plain-text renderings
    that the copy buttons put on the clipboard, the list-item editor and the
    relevancy-score colour. */
module CourseOutline {
  import opened Base
  import opened Document
  import opened Types
  import Store

  // ---- List-item edit ----

  /** handleUpdateStringList (CourseOutline.tsx:68-72) without its callback:
      a copy of the list with one entry replaced. */
  method UpdateStringList(list: seq<string>, index: int, value: string) returns (newList: seq<string>)
    requires 0 <= index < |list|
    ensures |newList| == |list|
    ensures newList[index] == value
    ensures forall j :: 0 <= j < |list| && j != index ==> newList[j] == list[j]
  {
    var copy := new string[|list|](j requires 0 <= j < |list| => list[j]);
    copy[index] := value;
    newList := copy[..];
  }

  /** A learning outcome is saved through the list (CourseOutline.tsx:130)
      and refined through its path `['learningOutcomes', index]`
      (CourseOutline.tsx:131): both commit the same project. */
  lemma OutcomeEditsAgree(p: Project, list: seq<string>, index: int, value: string)
    requires "learningOutcomes" in p.course && p.course["learningOutcomes"] == StrArr(list)
    requires 0 <= index < |list|
    ensures Store.FieldEdit(Some(p), "learningOutcomes", StrArr(list[index := value]))
         == Store.NestedEdit(Some(p), [Field("learningOutcomes"), Index(index)], Str(value))
  {
    var path := [Field("learningOutcomes"), Index(index)];
    var arr := StrArr(list);
    assert path[1..] == [Index(index)];
    assert SetPath(arr, [Index(index)], Str(value)) == Some(Arr(arr.items[index := Str(value)]));
    assert StrArr(list[index := value]) == Arr(arr.items[index := Str(value)]);
  }

  // ---- Plain-text renderings ----

  /** `x || 'N/A'` for an optional text: absent and empty both show `N/A`. */
  function OrNA(o: Option<string>): string {
    if o.Some? && o.value != "" then o.value else "N/A"
  }

  function Bullet(item: string): string {
    "- " + item
  }

  /** formatList (CourseOutline.tsx:231) */
  function FormatList(items: seq<string>): string {
    Join(seq(|items|, i requires 0 <= i < |items| => Bullet(items[i])), "\n")
  }

  /** The copied list splits back, line by line, into one `- ` bullet per
      item in order, as long as no item holds a line break. */
  lemma FormatListLines(items: seq<string>)
    requires |items| >= 1
    requires forall i :: 0 <= i < |items| ==> '\n' !in items[i]
    ensures Split(FormatList(items), '\n') == seq(|items|, i requires 0 <= i < |items| => Bullet(items[i]))
  {
    var bullets := seq(|items|, i requires 0 <= i < |items| => Bullet(items[i]));
    forall i | 0 <= i < |bullets|
      ensures '\n' !in bullets[i]
    {
      assert bullets[i] == "- " + items[i];
    }
    SplitJoin(bullets, '\n');
  }

  /** `Q: ${question}\nA: ${answer}` */
  function FaqBlock(f: Faq): string {
    ("Q: " + f.question) + "\n" + ("A: " + f.answer)
  }

  function FaqLines(f: Faq): seq<string> {
    ["Q: " + f.question, "A: " + f.answer]
  }

  /** formatFaq (CourseOutline.tsx:240) */
  function FormatFaq(faqs: seq<Faq>): string {
    Join(seq(|faqs|, i requires 0 <= i < |faqs| => FaqBlock(faqs[i])), "\n\n")
  }

  /** One person of formatPeople, line by line. */
  function PersonBlock(p: Person): string {
    (p.name + " (" + OrNA(p.title) + ")") + "\n"
    + ("Location: " + OrNA(p.location)) + "\n"
    + ("Relevancy: " + IntToString(p.relevancyScore) + "/100") + "\n"
    + ("Summary: " + p.expertiseSummary) + "\n"
    + ("LinkedIn: " + p.linkedin)
  }

  function PersonLines(p: Person): seq<string> {
    [p.name + " (" + OrNA(p.title) + ")", "Location: " + OrNA(p.location),
     "Relevancy: " + IntToString(p.relevancyScore) + "/100", "Summary: " + p.expertiseSummary,
     "LinkedIn: " + p.linkedin]
  }

  /** formatPeople (CourseOutline.tsx:232) */
  function FormatPeople(people: seq<Person>): string {
    Join(seq(|people|, i requires 0 <= i < |people| => PersonBlock(people[i])), "\n\n")
  }

  /** A company's score, `relevancyScore ?? 'N/A'`. */
  function ScoreText(score: Option<int>): string {
    if score.Some? then IntToString(score.value) else "N/A"
  }

  /** A company's reason, `relevancyReason || reason || 'N/A'`. */
  function CompanyReason(c: Company): string {
    if c.relevancyReason.Some? && c.relevancyReason.value != "" then c.relevancyReason.value
    else OrNA(c.reason)
  }

  /** One lead of formatCompanies (CourseOutline.tsx:233-239): a person
      (told apart by `expertiseSummary`) shows its summary as the reason. */
  function LeadBlock(l: Lead): string {
    match l
    case PersonLead(p) =>
      (p.name + " (" + OrNA(p.title) + ")") + "\n"
      + ("Location: " + OrNA(p.location)) + "\n"
      + ("Relevancy: " + IntToString(p.relevancyScore) + "/100") + "\n"
      + ("Reason: " + p.expertiseSummary) + "\n"
      + ("LinkedIn: " + p.linkedin)
    case CompanyLead(c) =>
      c.name + "\n"
      + ("Location: " + OrNA(c.location)) + "\n"
      + ("Relevancy: " + ScoreText(c.relevancyScore) + "/100") + "\n"
      + ("Reason: " + CompanyReason(c)) + "\n"
      + ("LinkedIn: " + c.linkedin)
  }

  function LeadLines(l: Lead): seq<string> {
    match l
    case PersonLead(p) =>
      [p.name + " (" + OrNA(p.title) + ")", "Location: " + OrNA(p.location),
       "Relevancy: " + IntToString(p.relevancyScore) + "/100", "Reason: " + p.expertiseSummary,
       "LinkedIn: " + p.linkedin]
    case CompanyLead(c) =>
      [c.name, "Location: " + OrNA(c.location),
       "Relevancy: " + ScoreText(c.relevancyScore) + "/100", "Reason: " + CompanyReason(c),
       "LinkedIn: " + c.linkedin]
  }

  /** formatCompanies (CourseOutline.tsx:233-239) */
  function FormatCompanies(leads: seq<Lead>): string {
    Join(seq(|leads|, i requires 0 <= i < |leads| => LeadBlock(leads[i])), "\n\n")
  }

  lemma JoinTwo(a: string, b: string)
    ensures Join([a, b], "\n") == a + "\n" + b
  {
    assert [a, b][..1] == [a];
  }

  lemma JoinFive(a: string, b: string, c: string, d: string, e: string)
    ensures Join([a, b, c, d, e], "\n") == a + "\n" + b + "\n" + c + "\n" + d + "\n" + e
  {
    assert [a, b, c, d, e][..4] == [a, b, c, d];
    assert [a, b, c, d][..3] == [a, b, c];
    assert [a, b, c][..2] == [a, b];
    JoinTwo(a, b);
    assert Join([a, b, c], "\n") == a + "\n" + b + "\n" + c;
    assert Join([a, b, c, d], "\n") == a + "\n" + b + "\n" + c + "\n" + d;
  }

  /** Blocks joined with a blank line are the blocks' lines with an empty line
      between consecutive blocks. */
  lemma BlockLayout(texts: seq<string>, blocks: seq<seq<string>>)
    requires |texts| == |blocks|
    requires forall i :: 0 <= i < |blocks| ==> |blocks[i]| >= 1 && texts[i] == Join(blocks[i], "\n")
    ensures Join(texts, "\n\n") == Join(BlankSeparated(blocks), "\n")
  {
    assert texts == JoinEach(blocks);
    JoinBlocks(blocks);
  }

  /** The copied FAQ is a `Q:` line and an `A:` line per entry, in order,
      with a blank line between entries. */
  lemma FormatFaqLayout(faqs: seq<Faq>)
    ensures FormatFaq(faqs) ==
      Join(BlankSeparated(seq(|faqs|, i requires 0 <= i < |faqs| => FaqLines(faqs[i]))), "\n")
  {
    var blocks := seq(|faqs|, i requires 0 <= i < |faqs| => FaqLines(faqs[i]));
    forall i | 0 <= i < |faqs|
      ensures FaqBlock(faqs[i]) == Join(blocks[i], "\n")
    {
      JoinTwo("Q: " + faqs[i].question, "A: " + faqs[i].answer);
    }
    BlockLayout(seq(|faqs|, i requires 0 <= i < |faqs| => FaqBlock(faqs[i])), blocks);
  }

  /** The copied people are five lines per person, in order, with a blank
      line between people. */
  lemma FormatPeopleLayout(people: seq<Person>)
    ensures FormatPeople(people) ==
      Join(BlankSeparated(seq(|people|, i requires 0 <= i < |people| => PersonLines(people[i]))), "\n")
  {
    var blocks := seq(|people|, i requires 0 <= i < |people| => PersonLines(people[i]));
    forall i | 0 <= i < |people|
      ensures PersonBlock(people[i]) == Join(blocks[i], "\n")
    {
      var p := people[i];
      assert blocks[i] == PersonLines(p);
      JoinFive(p.name + " (" + OrNA(p.title) + ")", "Location: " + OrNA(p.location),
               "Relevancy: " + IntToString(p.relevancyScore) + "/100", "Summary: " + p.expertiseSummary,
               "LinkedIn: " + p.linkedin);
    }
    BlockLayout(seq(|people|, i requires 0 <= i < |people| => PersonBlock(people[i])), blocks);
  }

  /** The copied leads are five lines per lead, in order, with a blank line
      between leads. */
  lemma FormatCompaniesLayout(leads: seq<Lead>)
    ensures FormatCompanies(leads) ==
      Join(BlankSeparated(seq(|leads|, i requires 0 <= i < |leads| => LeadLines(leads[i]))), "\n")
  {
    var blocks := seq(|leads|, i requires 0 <= i < |leads| => LeadLines(leads[i]));
    forall i | 0 <= i < |leads|
      ensures LeadBlock(leads[i]) == Join(blocks[i], "\n")
    {
      assert blocks[i] == LeadLines(leads[i]);
      match leads[i]
      case PersonLead(p) =>
        JoinFive(p.name + " (" + OrNA(p.title) + ")", "Location: " + OrNA(p.location),
                 "Relevancy: " + IntToString(p.relevancyScore) + "/100", "Reason: " + p.expertiseSummary,
                 "LinkedIn: " + p.linkedin);
      case CompanyLead(c) =>
        JoinFive(c.name, "Location: " + OrNA(c.location),
                 "Relevancy: " + ScoreText(c.relevancyScore) + "/100", "Reason: " + CompanyReason(c),
                 "LinkedIn: " + c.linkedin);
    }
    BlockLayout(seq(|leads|, i requires 0 <= i < |leads| => LeadBlock(leads[i])), blocks);
  }

  /** The fallbacks of the people and lead renderings: an absent or empty
      title or location shows `N/A`, and a company's reason falls back from
      `relevancyReason` to `reason` to `N/A`. */
  lemma FallbackFacts(c: Company)
    ensures OrNA(None) == "N/A" && OrNA(Some("")) == "N/A"
    ensures forall s :: s != "" ==> OrNA(Some(s)) == s
    ensures c.relevancyReason.Some? && c.relevancyReason.value != "" ==> CompanyReason(c) == c.relevancyReason.value
    ensures (c.relevancyReason.None? || c.relevancyReason.value == "") ==> CompanyReason(c) == OrNA(c.reason)
  {
  }

  // ---- Accumulated renderings ----

  function CompetitorLine(c: Competitor): string {
    "- " + c.name + " by " + c.provider + " (" + c.url + ")"
  }

  function CompetitorLines(courses: seq<Competitor>): (r: seq<string>)
    ensures |r| == |courses|
    ensures forall i :: 0 <= i < |courses| ==> r[i] == CompetitorLine(courses[i])
  {
    seq(|courses|, i requires 0 <= i < |courses| => CompetitorLine(courses[i]))
  }

  /** The lines of the market-analysis text, each followed by a newline. */
  function MarketLines(analysis: MarketAnalysis): seq<string> {
    ["Suggested Pricing: " + analysis.suggestedPricing, "", "Competitor Courses:"]
    + CompetitorLines(analysis.competitorCourses)
  }

  /** formatMarketAnalysis (CourseOutline.tsx:241-248): the pricing line, a
      blank line, the heading and one line per competitor, in order, each
      ended by a newline. */
  method FormatMarketAnalysis(analysis: MarketAnalysis) returns (text: string)
    ensures text == Terminated(MarketLines(analysis))
  {
    var pricing := "Suggested Pricing: " + analysis.suggestedPricing;
    var heading := "Competitor Courses:";
    text := pricing + "\n\n";
    text := text + heading + "\n";
    MarketHeader(pricing, heading);
    var header := [pricing, "", heading];
    var courses := analysis.competitorCourses;
    var lines := CompetitorLines(courses);
    var top := text;
    for i := 0 to |courses|
      invariant text == top + Terminated(lines[..i])
    {
      var line := CompetitorLine(courses[i]);
      TerminatedStep(lines, i, line);
      assert text + line + "\n" == top + (Terminated(lines[..i]) + line + "\n");
      text := text + line + "\n";
    }
    assert lines[..|courses|] == lines;
    TerminatedAppend(header, lines);
  }

  lemma MarketHeader(pricing: string, heading: string)
    ensures Terminated([pricing, "", heading]) == pricing + "\n\n" + heading + "\n"
  {
    assert [pricing, "", heading] == [pricing, ""] + [heading];
    assert [pricing, ""] == [pricing] + [""];
    TerminatedSnoc([], pricing);
    assert [] + [pricing] == [pricing];
    TerminatedSnoc([pricing], "");
    TerminatedSnoc([pricing, ""], heading);
  }

  function DayLine(day: CurriculumDay): string {
    "Day " + IntToString(day.day) + ": " + day.title
  }

  function ModuleLine(m: CourseModule): string {
    "  Module: " + m.title
  }

  function LessonLine(l: Lesson): string {
    "    - " + l.title + ": " + l.description
  }

  function LessonLines(lessons: seq<Lesson>): seq<string>
    decreases |lessons|
  {
    if lessons == [] then []
    else LessonLines(lessons[..|lessons| - 1]) + [LessonLine(lessons[|lessons| - 1])]
  }

  function ModulesLines(modules: seq<CourseModule>): seq<string>
    decreases |modules|
  {
    if modules == [] then []
    else
      var m := modules[|modules| - 1];
      ModulesLines(modules[..|modules| - 1]) + [ModuleLine(m)] + LessonLines(m.lessons)
  }

  /** A day's block: its heading, its modules with their lessons, and a
      blank line. */
  function DayLines(day: CurriculumDay): seq<string> {
    [DayLine(day)] + ModulesLines(day.modules) + [""]
  }

  function CurriculumLines(days: seq<CurriculumDay>): seq<string>
    decreases |days|
  {
    if days == [] then [] else CurriculumLines(days[..|days| - 1]) + DayLines(days[|days| - 1])
  }

  /** formatCurriculum (CourseOutline.tsx:249-262) */
  method FormatCurriculum(curriculum: seq<CurriculumDay>) returns (result: string)
    ensures result == Trim(Terminated(CurriculumLines(curriculum)))
  {
    var text := "";
    for d := 0 to |curriculum|
      invariant text == Terminated(CurriculumLines(curriculum[..d]))
    {
      assert curriculum[..d + 1][..d] == curriculum[..d];
      TerminatedAppend(CurriculumLines(curriculum[..d]), DayLines(curriculum[d]));
      text := AppendDay(text, curriculum[d]);
    }
    assert curriculum[..|curriculum|] == curriculum;
    result := Trim(text);
  }

  /** The body of the outer `forEach` (CourseOutline.tsx:252-259). */
  method AppendDay(text: string, day: CurriculumDay) returns (r: string)
    ensures r == text + Terminated(DayLines(day))
  {
    r := text + DayLine(day) + "\n";
    ghost var top := [DayLine(day)];
    HeadingLine(text, DayLine(day));
    var modules := day.modules;
    assert top + ModulesLines(modules[..0]) == top;
    for m := 0 to |modules|
      invariant r == text + Terminated(top + ModulesLines(modules[..m]))
    {
      ModulesLinesStep(text, top, modules, m);
      r := AppendModule(r, modules[m]);
    }
    assert modules[..|modules|] == modules;
    BlankLineEnd(text, top + ModulesLines(modules));
    r := r + "\n";
  }

  /** The body of the module `forEach` (CourseOutline.tsx:254-257). */
  method AppendModule(text: string, mdl: CourseModule) returns (r: string)
    ensures r == text + Terminated([ModuleLine(mdl)] + LessonLines(mdl.lessons))
  {
    r := text + ModuleLine(mdl) + "\n";
    ghost var top := [ModuleLine(mdl)];
    HeadingLine(text, ModuleLine(mdl));
    var lessons := mdl.lessons;
    assert top + LessonLines(lessons[..0]) == top;
    for l := 0 to |lessons|
      invariant r == text + Terminated(top + LessonLines(lessons[..l]))
    {
      LessonLinesStep(text, top, lessons, l);
      r := r + LessonLine(lessons[l]) + "\n";
    }
    assert lessons[..|lessons|] == lessons;
  }

  /** A heading written on its own line. */
  lemma HeadingLine(text: string, line: string)
    ensures text + line + "\n" == text + Terminated([line])
  {
    TerminatedSnoc([], line);
    assert [] + [line] == [line];
  }

  /** The blank line that closes a day. */
  lemma BlankLineEnd(text: string, lines: seq<string>)
    ensures text + Terminated(lines) + "\n" == text + Terminated(lines + [""])
  {
    TerminatedSnoc(lines, "");
    assert Terminated(lines) + "" + "\n" == Terminated(lines) + "\n";
  }

  lemma LessonLinesStep(text: string, top: seq<string>, lessons: seq<Lesson>, l: nat)
    requires l < |lessons|
    ensures text + Terminated(top + LessonLines(lessons[..l])) + LessonLine(lessons[l]) + "\n"
         == text + Terminated(top + LessonLines(lessons[..l + 1]))
  {
    var before, line := top + LessonLines(lessons[..l]), LessonLine(lessons[l]);
    assert lessons[..l + 1][..l] == lessons[..l];
    assert top + LessonLines(lessons[..l + 1]) == before + [line];
    TerminatedSnoc(before, line);
    var t := Terminated(before);
    assert text + t + line + "\n" == text + (t + line + "\n");
  }

  lemma ModulesLinesStep(text: string, top: seq<string>, modules: seq<CourseModule>, m: nat)
    requires m < |modules|
    ensures text + Terminated(top + ModulesLines(modules[..m]))
              + Terminated([ModuleLine(modules[m])] + LessonLines(modules[m].lessons))
         == text + Terminated(top + ModulesLines(modules[..m + 1]))
  {
    var mdl := modules[m];
    var before, block := top + ModulesLines(modules[..m]), [ModuleLine(mdl)] + LessonLines(mdl.lessons);
    assert modules[..m + 1][..m] == modules[..m];
    assert top + ModulesLines(modules[..m + 1]) == before + block;
    TerminatedAppend(before, block);
    assert text + Terminated(before) + Terminated(block) == text + (Terminated(before) + Terminated(block));
  }

  /** A non-empty curriculum's lines start with the first day's heading and
      end with the blank line after the last day. */
  lemma {:induction false} CurriculumLinesEnds(days: seq<CurriculumDay>)
    requires |days| >= 1
    ensures |CurriculumLines(days)| >= 2
    ensures CurriculumLines(days)[0] == DayLine(days[0])
    ensures CurriculumLines(days)[|CurriculumLines(days)| - 1] == ""
    decreases |days|
  {
    if |days| > 1 {
      CurriculumLinesEnds(days[..|days| - 1]);
      assert days[..|days| - 1][0] == days[0];
    } else {
      assert days[..0] == [];
    }
  }

  /** The first part of a join is a prefix of it. */
  lemma {:induction false} JoinStartsWithFirst(parts: seq<string>, sep: string)
    requires |parts| >= 1
    ensures StartsWith(Join(parts, sep), parts[0])
    decreases |parts|
  {
    if |parts| > 1 {
      JoinStartsWithFirst(parts[..|parts| - 1], sep);
      var j := Join(parts[..|parts| - 1], sep);
      assert (j + sep + parts[|parts| - 1])[..|parts[0]|] == j[..|parts[0]|];
    }
  }

  /** The copied curriculum is its lines, one per day, module and lesson in
      order with a blank line between days, joined by newlines; only the
      blank line after the last day and trailing whitespace are dropped. */
  lemma FormatCurriculumShape(days: seq<CurriculumDay>)
    requires |days| >= 1
    ensures var lines := CurriculumLines(days);
      Trim(Terminated(lines)) == TrimEnd(Join(lines[..|lines| - 1], "\n"))
  {
    var lines := CurriculumLines(days);
    CurriculumLinesEnds(days);
    var body := lines[..|lines| - 1];
    assert lines == body + [""];
    var text := Join(body, "\n") + "\n\n";
    TerminatedBlankEnd(body);
    assert Terminated(lines) == text;
    CurriculumTextStart(days, body);
    assert TrimStart(text) == text;
    assert AllSpace("\n\n");
    TrimEndSkipsSpace(Join(body, "\n"), "\n\n");
  }

  /** A text whose last line is blank ends in two newlines. */
  lemma TerminatedBlankEnd(body: seq<string>)
    requires |body| >= 1
    ensures Terminated(body + [""]) == Join(body, "\n") + "\n\n"
  {
    var lines := body + [""];
    TerminatedIsJoin(lines);
    assert lines[..|lines| - 1] == body;
    assert Join(lines, "\n") == Join(body, "\n") + "\n" + "";
  }

  /** The copied curriculum starts with the `D` of its first day line. */
  lemma CurriculumTextStart(days: seq<CurriculumDay>, body: seq<string>)
    requires |days| >= 1 && |CurriculumLines(days)| >= 2
    requires body == CurriculumLines(days)[..|CurriculumLines(days)| - 1]
    ensures |Join(body, "\n")| >= 1 && Join(body, "\n")[0] == 'D'
  {
    CurriculumLinesEnds(days);
    JoinStartsWithFirst(body, "\n");
    assert body[0] == DayLine(days[0]);
    assert DayLine(days[0])[0] == 'D';
    assert Join(body, "\n")[..|body[0]|] == body[0];
  }

  // ---- Relevancy score colour ----

  datatype ScoreColor = Green | Yellow | Red {
    /** Higher is better. */
    function Rank(): nat {
      match this
      case Red => 0
      case Yellow => 1
      case Green => 2
    }
  }

  /** The colour rule of PersonCard and CompanyCard (CourseOutline.tsx:569,
      615). */
  function ColorOf(score: int): ScoreColor {
    if score > 75 then Green else if score > 50 then Yellow else Red
  }

  /** A higher score never gets a worse colour; 76 and 51 are the lowest
      green and yellow scores. */
  lemma ColorMonotone(s1: int, s2: int)
    ensures s1 <= s2 ==> ColorOf(s1).Rank() <= ColorOf(s2).Rank()
    ensures ColorOf(76) == Green && ColorOf(75) == Yellow && ColorOf(51) == Yellow && ColorOf(50) == Red
  {
  }

  /** A company's colour (CourseOutline.tsx:614-615): a missing score counts
      as 0. */
  function CompanyColor(c: Company): ScoreColor {
    ColorOf(c.relevancyScore.GetOr(0))
  }

  /** A company without a score is red; one with a score is coloured like a
      person with that score. */
  lemma CompanyColorFacts(c: Company)
    ensures c.relevancyScore.None? ==> CompanyColor(c) == Red
    ensures c.relevancyScore.Some? ==> CompanyColor(c) == ColorOf(c.relevancyScore.value)
  {
  }
}
