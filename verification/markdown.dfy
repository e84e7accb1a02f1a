/** The Markdown export of utils/export.ts:21-64 (`generateMarkdown`): the
    course as headed sections, with one `* ` bullet per learning outcome,
    lesson, instructor and lead. The text is modelled as the list of its
    lines, each followed by a newline (`Terminated`). */
module Markdown {
  import opened Base
  import opened Types
  import opened Scorm

  // ---- The lines ----

  /** `${x}` of an optional text: JavaScript writes an absent field as
      `undefined`. */
  function Shown(o: Option<string>): string {
    if o.Some? then o.value else "undefined"
  }

  /** A line Markdown renders as a list item. */
  predicate IsBullet(line: string) {
    StartsWith(line, "* ")
  }

  /** `* ${o}` (utils/export.ts:26) */
  function Bullet(text: string): string {
    "* " + text
  }

  /** `* **${lesson.title}**: ${lesson.description}` (utils/export.ts:37) */
  function LessonLine(l: Lesson): string {
    "* **" + l.title + "**: " + l.description
  }

  /** `* [${name}](${linkedin}) - ${detail}` */
  function LinkLine(name: string, url: string, detail: string): string {
    "* [" + name + "](" + url + ") - " + detail
  }

  /** An instructor (utils/export.ts:44): the person's title. */
  function InstructorLine(p: Person): string {
    LinkLine(p.name, p.linkedin, Shown(p.title))
  }

  /** A lead (utils/export.ts:48-54): a person, recognised by its
      `expertiseSummary`, shows its title and a company its `reason`. */
  function LeadLine(l: Lead): string {
    match l
    case PersonLead(p) => LinkLine(p.name, p.linkedin, Shown(p.title))
    case CompanyLead(c) => LinkLine(c.name, c.linkedin, Shown(c.reason))
  }

  /** One line per element, in order: a `forEach` writing `line(x)` each
      time. */
  function MapLines<T>(xs: seq<T>, line: T -> string): (r: seq<string>)
    ensures |r| == |xs|
    ensures forall i :: 0 <= i < |xs| ==> r[i] == line(xs[i])
  {
    seq(|xs|, i requires 0 <= i < |xs| => line(xs[i]))
  }

  /** `### Day ${day.day}: ${day.title}` (utils/export.ts:33) */
  function DayHeading(d: CurriculumDay): string {
    "### Day " + IntToString(d.day) + ": " + d.title
  }

  /** A module: its heading and a bullet per lesson (utils/export.ts:34-39). */
  function ModuleLines(m: CourseModule): seq<string> {
    ["#### " + m.title] + MapLines(m.lessons, LessonLine)
  }

  function ModulesLines(modules: seq<CourseModule>): seq<string>
    decreases |modules|
  {
    if modules == [] then []
    else ModulesLines(modules[..|modules| - 1]) + ModuleLines(modules[|modules| - 1])
  }

  /** A day: its heading, its modules and a blank line (utils/export.ts:32-41). */
  function DayLines(d: CurriculumDay): seq<string> {
    [DayHeading(d)] + ModulesLines(d.modules) + [""]
  }

  function CurriculumLines(days: seq<CurriculumDay>): seq<string>
    decreases |days|
  {
    if days == [] then []
    else CurriculumLines(days[..|days| - 1]) + DayLines(days[|days| - 1])
  }

  /** A question as a heading, then its answer and a blank line
      (utils/export.ts:58-61). */
  function FaqLines(faqs: seq<Faq>): seq<string>
    decreases |faqs|
  {
    if faqs == [] then []
    else
      var f := faqs[|faqs| - 1];
      FaqLines(faqs[..|faqs| - 1]) + ["### " + f.question, f.answer, ""]
  }

  // ---- The sections, in the order they are written ----

  function IntroLines(c: Course): seq<string> {
    ["# " + c.title, "", "## Description", c.description, ""]
  }

  function OutcomeSection(c: Course): seq<string> {
    ["## Learning Outcomes"] + MapLines(c.learningOutcomes, Bullet) + [""]
  }

  function AssignmentSection(c: Course): seq<string> {
    ["## Key Assignment", c.keyAssignment, ""]
  }

  function CurriculumSection(c: Course): seq<string> {
    ["## Curriculum"] + CurriculumLines(c.curriculum)
  }

  function InstructorSection(c: Course): seq<string> {
    ["## Potential Instructors"] + MapLines(c.potentialInstructors, InstructorLine) + [""]
  }

  function LeadSection(c: Course): seq<string> {
    ["## Potential Client Leads"] + MapLines(c.potentialLeads, LeadLine) + [""]
  }

  function FaqSection(c: Course): seq<string> {
    ["## FAQ"] + FaqLines(c.faq)
  }

  /** The lines of `generateMarkdown(course)`. */
  function MarkdownLines(c: Course): seq<string> {
    IntroLines(c) + OutcomeSection(c) + AssignmentSection(c) + CurriculumSection(c)
    + InstructorSection(c) + LeadSection(c) + FaqSection(c)
  }

  // ---- generateMarkdown ----

  /** `generateMarkdown(course)` (utils/export.ts:21-64): the text grows by
      `+=`, section by section and, inside the sections, element by
      element. */
  method GenerateMarkdown(course: Course) returns (md: string)
    ensures md == Terminated(MarkdownLines(course))
  {
    md := "# " + course.title + "\n\n";
    md := md + "## Description\n" + course.description + "\n\n";
    IntroText(course.title, course.description, md);
    ghost var done := IntroLines(course);

    md := md + "## Learning Outcomes\n";
    md := AddEach(md, course.learningOutcomes, Bullet);
    md := md + "\n";
    OutcomeText(done, course, md);
    done := done + OutcomeSection(course);

    md := md + "## Key Assignment\n" + course.keyAssignment + "\n\n";
    BlockText(done, "## Key Assignment", "## Key Assignment\n", course.keyAssignment);
    done := done + AssignmentSection(course);

    md := md + "## Curriculum\n";
    md := AddCurriculum(md, course.curriculum);
    SectionText(done, "## Curriculum", "## Curriculum\n", CurriculumLines(course.curriculum), md);
    done := done + CurriculumSection(course);

    md := md + "## Potential Instructors\n";
    md := AddEach(md, course.potentialInstructors, InstructorLine);
    md := md + "\n";
    ListText(done, "## Potential Instructors", "## Potential Instructors\n",
             MapLines(course.potentialInstructors, InstructorLine), md);
    done := done + InstructorSection(course);

    md := md + "## Potential Client Leads\n";
    md := AddEach(md, course.potentialLeads, LeadLine);
    md := md + "\n";
    ListText(done, "## Potential Client Leads", "## Potential Client Leads\n",
             MapLines(course.potentialLeads, LeadLine), md);
    done := done + LeadSection(course);

    md := md + "## FAQ\n";
    md := AddFaqs(md, course.faq);
    SectionText(done, "## FAQ", "## FAQ\n", FaqLines(course.faq), md);
    done := done + FaqSection(course);
  }

  /** A `forEach` over `xs` appending `line(x)` and a newline. */
  method AddEach<T>(md: string, xs: seq<T>, line: T -> string) returns (r: string)
    ensures r == md + Terminated(MapLines(xs, line))
  {
    var lines := MapLines(xs, line);
    r := md;
    for i := 0 to |xs|
      invariant r == md + Terminated(lines[..i])
    {
      var next := line(xs[i]);
      TerminatedStep(lines, i, next);
      assert r + next + "\n" == md + (Terminated(lines[..i]) + next + "\n");
      r := r + next + "\n";
    }
    assert lines[..|xs|] == lines;
  }

  /** The curriculum `forEach` (utils/export.ts:32-42). */
  method AddCurriculum(md: string, days: seq<CurriculumDay>) returns (r: string)
    ensures r == md + Terminated(CurriculumLines(days))
  {
    r := md;
    for d := 0 to |days|
      invariant r == md + Terminated(CurriculumLines(days[..d]))
    {
      CurriculumStep(md, days, d);
      r := AddDay(r, days[d]);
    }
    assert days[..|days|] == days;
  }

  /** One day: its heading, its modules, then `md += '\n'`. */
  method AddDay(md: string, day: CurriculumDay) returns (r: string)
    ensures r == md + Terminated(DayLines(day))
  {
    r := md + DayHeading(day) + "\n";
    HeadingText(md, DayHeading(day), DayHeading(day) + "\n");
    ghost var top := [DayHeading(day)];
    var modules := day.modules;
    assert top + ModulesLines(modules[..0]) == top;
    for m := 0 to |modules|
      invariant r == md + Terminated(top + ModulesLines(modules[..m]))
    {
      ModulesStep(md, top, modules, m);
      r := AddModule(r, modules[m]);
    }
    assert modules[..|modules|] == modules;
    r := r + "\n";
    TerminatedSnoc(top + ModulesLines(modules), "");
  }

  /** One module: its heading and its lessons' bullets. */
  method AddModule(md: string, mod: CourseModule) returns (r: string)
    ensures r == md + Terminated(ModuleLines(mod))
  {
    r := md + "#### " + mod.title + "\n";
    HeadingText(md, "#### " + mod.title, "#### " + mod.title + "\n");
    r := AddEach(r, mod.lessons, LessonLine);
    TerminatedAppend(["#### " + mod.title], MapLines(mod.lessons, LessonLine));
  }

  /** The FAQ `forEach` (utils/export.ts:57-61). */
  method AddFaqs(md: string, faqs: seq<Faq>) returns (r: string)
    ensures r == md + Terminated(FaqLines(faqs))
  {
    r := md;
    for i := 0 to |faqs|
      invariant r == md + Terminated(FaqLines(faqs[..i]))
    {
      var f := faqs[i];
      FaqStep(md, faqs, i);
      r := r + "### " + f.question + "\n";
      r := r + f.answer + "\n\n";
    }
    assert faqs[..|faqs|] == faqs;
  }

  // ---- Steps of the proof that the text is the lines ----

  /** `md += `${heading}\n`` writes one line. */
  lemma HeadingText(md: string, heading: string, text: string)
    requires text == heading + "\n"
    ensures md + text == md + Terminated([heading])
  {
    TerminatedSnoc([], heading);
    assert [] + [heading] == [heading];
  }

  /** `md += `${heading}\n${body}\n\n`` writes three lines, the last blank. */
  lemma BlockText(done: seq<string>, heading: string, text: string, body: string)
    requires text == heading + "\n"
    ensures Terminated(done) + text + body + "\n\n" == Terminated(done + [heading, body, ""])
  {
    var withHeading := done + [heading];
    var withBody := withHeading + [body];
    TerminatedSnoc(done, heading);
    TerminatedSnoc(withHeading, body);
    TerminatedSnoc(withBody, "");
    assert withBody + [""] == done + [heading, body, ""];
    var t := Terminated(done);
    assert t + text + body + "\n\n" == t + heading + "\n" + body + "\n" + "" + "\n";
  }

  lemma IntroText(title: string, description: string, md: string)
    requires md == "# " + title + "\n\n" + "## Description\n" + description + "\n\n"
    ensures md == Terminated(["# " + title, "", "## Description", description, ""])
  {
    var head := "# " + title;
    var first := [head, ""];
    TerminatedSnoc([], head);
    assert [] + [head] == [head];
    TerminatedSnoc([head], "");
    assert [head] + [""] == first;
    assert Terminated(first) == head + "\n\n";
    BlockText(first, "## Description", "## Description\n", description);
    assert first + ["## Description", description, ""] == ["# " + title, "", "## Description", description, ""];
  }

  lemma OutcomeText(done: seq<string>, c: Course, md: string)
    requires md == Terminated(done) + "## Learning Outcomes\n" + Terminated(MapLines(c.learningOutcomes, Bullet)) + "\n"
    ensures md == Terminated(done + OutcomeSection(c))
  {
    ListText(done, "## Learning Outcomes", "## Learning Outcomes\n", MapLines(c.learningOutcomes, Bullet), md);
  }

  /** A heading, the bullets, then `md += '\n'`. */
  lemma ListText(done: seq<string>, heading: string, text: string, bullets: seq<string>, md: string)
    requires text == heading + "\n"
    requires md == Terminated(done) + text + Terminated(bullets) + "\n"
    ensures md == Terminated(done + ([heading] + bullets + [""]))
  {
    HeadingText(Terminated(done), heading, text);
    TerminatedAppend(done, [heading]);
    TerminatedAppend(done + [heading], bullets);
    TerminatedSnoc(done + [heading] + bullets, "");
    assert done + [heading] + bullets + [""] == done + ([heading] + bullets + [""]);
  }

  /** A heading followed by lines written by a loop. */
  lemma SectionText(done: seq<string>, heading: string, text: string, rest: seq<string>, md: string)
    requires text == heading + "\n"
    requires md == Terminated(done) + text + Terminated(rest)
    ensures md == Terminated(done + ([heading] + rest))
  {
    HeadingText(Terminated(done), heading, text);
    TerminatedAppend(done, [heading]);
    TerminatedAppend(done + [heading], rest);
    assert done + [heading] + rest == done + ([heading] + rest);
  }

  lemma CurriculumStep(md: string, days: seq<CurriculumDay>, d: nat)
    requires d < |days|
    ensures md + Terminated(CurriculumLines(days[..d])) + Terminated(DayLines(days[d]))
         == md + Terminated(CurriculumLines(days[..d + 1]))
  {
    var before, day := CurriculumLines(days[..d]), DayLines(days[d]);
    assert days[..d + 1][..d] == days[..d];
    assert CurriculumLines(days[..d + 1]) == before + day;
    TerminatedAppend(before, day);
    assert md + Terminated(before) + Terminated(day) == md + (Terminated(before) + Terminated(day));
  }

  lemma ModulesStep(md: string, top: seq<string>, modules: seq<CourseModule>, m: nat)
    requires m < |modules|
    ensures md + Terminated(top + ModulesLines(modules[..m])) + Terminated(ModuleLines(modules[m]))
         == md + Terminated(top + ModulesLines(modules[..m + 1]))
  {
    var before, one := top + ModulesLines(modules[..m]), ModuleLines(modules[m]);
    assert modules[..m + 1][..m] == modules[..m];
    assert top + ModulesLines(modules[..m + 1]) == before + one;
    TerminatedAppend(before, one);
    assert md + Terminated(before) + Terminated(one) == md + (Terminated(before) + Terminated(one));
  }

  lemma FaqStep(md: string, faqs: seq<Faq>, i: nat)
    requires i < |faqs|
    ensures md + Terminated(FaqLines(faqs[..i])) + "### " + faqs[i].question + "\n" + faqs[i].answer + "\n\n"
         == md + Terminated(FaqLines(faqs[..i + 1]))
  {
    var f := faqs[i];
    var before := FaqLines(faqs[..i]);
    assert faqs[..i + 1][..i] == faqs[..i];
    BlockText(before, "### " + f.question, "### " + f.question + "\n", f.answer);
    var t := Terminated(before);
    assert md + t + "### " + f.question + "\n" + f.answer + "\n\n"
        == md + (t + ("### " + f.question + "\n") + f.answer + "\n\n");
  }

  // ---- The bullets ----

  /** The list items of a text, in order. */
  function Bullets(lines: seq<string>): seq<string>
    decreases |lines|
  {
    if lines == [] then []
    else
      var n := |lines| - 1;
      Bullets(lines[..n]) + (if IsBullet(lines[n]) then [lines[n]] else [])
  }

  lemma {:induction false} BulletsAppend(a: seq<string>, b: seq<string>)
    ensures Bullets(a + b) == Bullets(a) + Bullets(b)
    decreases |b|
  {
    if b == [] {
      assert a + b == a;
    } else {
      var n := |b| - 1;
      assert (a + b)[..|a| + n] == a + b[..n];
      BulletsAppend(a, b[..n]);
    }
  }

  /** Lines that are all list items are their own bullets. */
  lemma {:induction false} AllBullets(lines: seq<string>)
    requires forall i :: 0 <= i < |lines| ==> IsBullet(lines[i])
    ensures Bullets(lines) == lines
    decreases |lines|
  {
    if lines != [] {
      var n := |lines| - 1;
      var init := lines[..n];
      assert forall i :: 0 <= i < n ==> init[i] == lines[i];
      AllBullets(init);
      assert init + [lines[n]] == lines;
    }
  }

  /** Lines none of which is a list item have no bullets. */
  lemma {:induction false} NoBullets(lines: seq<string>)
    requires forall i :: 0 <= i < |lines| ==> !IsBullet(lines[i])
    ensures Bullets(lines) == []
    decreases |lines|
  {
    if lines != [] {
      var n := |lines| - 1;
      var init := lines[..n];
      assert forall i :: 0 <= i < n ==> init[i] == lines[i];
      NoBullets(init);
    }
  }

  lemma BulletsOne(line: string)
    ensures Bullets([line]) == if IsBullet(line) then [line] else []
  {
    assert [line][..0] == [];
  }

  /** A heading is never a list item. */
  lemma HeadingNotBullet(line: string)
    requires |line| >= 1 && line[0] == '#'
    ensures !IsBullet(line)
  {
    if |line| >= 2 {
      assert line[..2][0] == '#';
    }
  }

  lemma LinesAreBullets<T>(xs: seq<T>, line: T -> string)
    requires forall x :: IsBullet(line(x))
    ensures Bullets(MapLines(xs, line)) == MapLines(xs, line)
  {
    AllBullets(MapLines(xs, line));
  }

  lemma MapLinesAppend<T>(a: seq<T>, b: seq<T>, line: T -> string)
    ensures MapLines(a + b, line) == MapLines(a, line) + MapLines(b, line)
  {
    assert forall i :: |a| <= i < |a + b| ==> (a + b)[i] == b[i - |a|];
  }

  /** Every line the writer makes with a `* ` prefix is a list item. */
  lemma BulletLinesAreBullets()
    ensures forall t :: IsBullet(Bullet(t))
    ensures forall l :: IsBullet(LessonLine(l))
    ensures forall p :: IsBullet(InstructorLine(p))
    ensures forall l :: IsBullet(LeadLine(l))
  {
    forall name, url, detail ensures IsBullet(LinkLine(name, url, detail)) {
      assert LinkLine(name, url, detail)[..2] == "* ";
    }
    forall t ensures IsBullet(Bullet(t)) {
      assert Bullet(t)[..2] == "* ";
    }
    forall l ensures IsBullet(LessonLine(l)) {
      assert LessonLine(l)[..2] == "* ";
    }
  }

  /** A heading, its list items and a blank line. */
  lemma ListBullets(heading: string, items: seq<string>)
    requires |heading| >= 1 && heading[0] == '#'
    requires forall i :: 0 <= i < |items| ==> IsBullet(items[i])
    ensures Bullets([heading] + items + [""]) == items
  {
    HeadingNotBullet(heading);
    AllBullets(items);
    BulletsAppend([heading], items);
    BulletsAppend([heading] + items, [""]);
    BulletsOne(heading);
    BulletsOne("");
  }

  /** The lessons of a module's lines are its lessons' bullets. */
  lemma {:induction false} ModulesBullets(modules: seq<CourseModule>)
    ensures Bullets(ModulesLines(modules)) == MapLines(ModuleLessons(modules), LessonLine)
    decreases |modules|
  {
    if modules != [] {
      var n := |modules| - 1;
      var m := modules[n];
      ModulesBullets(modules[..n]);
      BulletsAppend(ModulesLines(modules[..n]), ModuleLines(m));
      HeadingNotBullet("#### " + m.title);
      BulletLinesAreBullets();
      LinesAreBullets(m.lessons, LessonLine);
      BulletsAppend(["#### " + m.title], MapLines(m.lessons, LessonLine));
      BulletsOne("#### " + m.title);
      MapLinesAppend(ModuleLessons(modules[..n]), m.lessons, LessonLine);
    }
  }

  /** The bullets of the curriculum are one per lesson, in the day, module,
      lesson order that also numbers the SCORM pages. */
  lemma {:induction false} CurriculumBullets(days: seq<CurriculumDay>)
    ensures Bullets(CurriculumLines(days)) == MapLines(AllLessons(days), LessonLine)
    decreases |days|
  {
    if days != [] {
      var n := |days| - 1;
      var d := days[n];
      CurriculumBullets(days[..n]);
      BulletsAppend(CurriculumLines(days[..n]), DayLines(d));
      DayBullets(d);
      MapLinesAppend(AllLessons(days[..n]), ModuleLessons(d.modules), LessonLine);
    }
  }

  lemma DayBullets(d: CurriculumDay)
    ensures Bullets(DayLines(d)) == MapLines(ModuleLessons(d.modules), LessonLine)
  {
    var body := ModulesLines(d.modules);
    assert DayHeading(d)[0] == '#';
    HeadingNotBullet(DayHeading(d));
    ModulesBullets(d.modules);
    BulletsAppend([DayHeading(d)], body);
    BulletsAppend([DayHeading(d)] + body, [""]);
    BulletsOne(DayHeading(d));
    BulletsOne("");
  }

  /** Answers that are not list items leave the FAQ without bullets. */
  lemma {:induction false} FaqBullets(faqs: seq<Faq>)
    requires forall i :: 0 <= i < |faqs| ==> !IsBullet(faqs[i].answer)
    ensures Bullets(FaqLines(faqs)) == []
    decreases |faqs|
  {
    if faqs != [] {
      var n := |faqs| - 1;
      var f := faqs[n];
      FaqBullets(faqs[..n]);
      HeadingNotBullet("### " + f.question);
      BulletsAppend(FaqLines(faqs[..n]), ["### " + f.question, f.answer, ""]);
      assert !IsBullet("");
      NoBullets(["### " + f.question, f.answer, ""]);
    }
  }

  /** Provided the free texts written on lines of their own (description,
      key assignment, answers) do not themselves begin with `* `, the list
      items of the Markdown are exactly one per learning outcome, then one
      per lesson in day, module, lesson order, one per instructor and one
      per lead, each in the order of the course. */
  lemma MarkdownBullets(c: Course)
    requires !IsBullet(c.description) && !IsBullet(c.keyAssignment)
    requires forall i :: 0 <= i < |c.faq| ==> !IsBullet(c.faq[i].answer)
    ensures Bullets(MarkdownLines(c))
         == MapLines(c.learningOutcomes, Bullet) + MapLines(AllLessons(c.curriculum), LessonLine)
            + MapLines(c.potentialInstructors, InstructorLine) + MapLines(c.potentialLeads, LeadLine)
  {
    var outcomes := MapLines(c.learningOutcomes, Bullet);
    var lessons := MapLines(AllLessons(c.curriculum), LessonLine);
    var instructors := MapLines(c.potentialInstructors, InstructorLine);
    var leads := MapLines(c.potentialLeads, LeadLine);
    BulletLinesAreBullets();
    IntroBullets(c);
    ListBullets("## Learning Outcomes", outcomes);
    HeadingNotBullet("## Key Assignment");
    assert !IsBullet("");
    NoBullets(AssignmentSection(c));
    SectionBullets("## Curriculum", CurriculumLines(c.curriculum));
    CurriculumBullets(c.curriculum);
    ListBullets("## Potential Instructors", instructors);
    ListBullets("## Potential Client Leads", leads);
    SectionBullets("## FAQ", FaqLines(c.faq));
    FaqBullets(c.faq);
    var s1 := IntroLines(c) + OutcomeSection(c);
    var s2 := s1 + AssignmentSection(c);
    var s3 := s2 + CurriculumSection(c);
    var s4 := s3 + InstructorSection(c);
    var s5 := s4 + LeadSection(c);
    BulletsAppend(IntroLines(c), OutcomeSection(c));
    BulletsAppend(s1, AssignmentSection(c));
    BulletsAppend(s2, CurriculumSection(c));
    BulletsAppend(s3, InstructorSection(c));
    BulletsAppend(s4, LeadSection(c));
    BulletsAppend(s5, FaqSection(c));
    assert [] + outcomes + [] == outcomes;
    assert outcomes + lessons + instructors + leads + [] == outcomes + lessons + instructors + leads;
  }

  lemma IntroBullets(c: Course)
    requires !IsBullet(c.description)
    ensures Bullets(IntroLines(c)) == []
  {
    HeadingNotBullet("# " + c.title);
    HeadingNotBullet("## Description");
    assert !IsBullet("");
    NoBullets(IntroLines(c));
  }

  /** A heading followed by lines: the heading adds no bullet. */
  lemma SectionBullets(heading: string, rest: seq<string>)
    requires |heading| >= 1 && heading[0] == '#'
    ensures Bullets([heading] + rest) == Bullets(rest)
  {
    HeadingNotBullet(heading);
    BulletsAppend([heading], rest);
    BulletsOne(heading);
  }

  /** A lead's line ends with what the lead shows: a person's title, which
      is the line the same person has as an instructor, or a company's
      `reason`; an absent one shows as `undefined`. */
  lemma LeadLineShows(l: Lead)
    ensures var detail := if l.PersonLead? then Shown(l.person.title) else Shown(l.company.reason);
      |detail| <= |LeadLine(l)| && LeadLine(l)[|LeadLine(l)| - |detail|..] == detail
    ensures l.PersonLead? ==> LeadLine(l) == InstructorLine(l.person)
    ensures l.PersonLead? && l.person.title.None? ==> Shown(l.person.title) == "undefined"
    ensures l.CompanyLead? && l.company.reason.None? ==> Shown(l.company.reason) == "undefined"
  {
    var detail := if l.PersonLead? then Shown(l.person.title) else Shown(l.company.reason);
    var name := if l.PersonLead? then l.person.name else l.company.name;
    var url := if l.PersonLead? then l.person.linkedin else l.company.linkedin;
    var front := "* [" + name + "](" + url + ") - ";
    assert LeadLine(l) == front + detail;
    assert (front + detail)[|front|..] == detail;
  }
}
