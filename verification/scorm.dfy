/** The SCORM 1.2 package of utils/export.ts:144-257: one HTML page per
    lesson, an `imsmanifest.xml` whose organisation nests days, modules and
    lessons, and a resource per lesson pointing at the lesson's page. */
module Scorm {
  import opened Base
  import opened Types
  import opened XmlEscape

  // ---- The lesson page (utils/export.ts:144-177) ----

  /** JavaScript truthiness of an optional text field: present and
      non-empty. */
  predicate Present(field: Option<string>) {
    field.Some? && field.value != ""
  }

  const SectionOpen: string := "\n    <h2>"
  const SectionMiddle: string := "</h2>\n    <pre>"
  const SectionClose: string := "</pre>\n    "

  /** One of the three optional sections (utils/export.ts:163-174): a
      heading and the escaped text, or nothing. */
  function Section(heading: string, field: Option<string>): string {
    if Present(field) then SectionOpen + heading + SectionMiddle + EscapeXml(field.value) + SectionClose
    else ""
  }

  const PageHead: string :=
    "\n<!DOCTYPE html>\n<html lang=\"en\">\n<head>\n    <meta charset=\"UTF-8\">\n"
    + "    <meta name=\"viewport\" content=\"width=device-width, initial-scale=1.0\">\n    <title>"
  const PageStyle: string :=
    "</title>\n    <style>\n"
    + "        body { font-family: sans-serif; line-height: 1.6; padding: 2em; }\n"
    + "        h1 { color: #333; }\n"
    + "        h2 { color: #555; border-bottom: 1px solid #ccc; padding-bottom: 5px; }\n"
    + "        pre { background-color: #f4f4f4; padding: 1em; border-radius: 5px; white-space: pre-wrap; word-wrap: break-word; }\n"
    + "    </style>\n</head>\n<body>\n    <h1>"
  const AfterCourseTitle: string := "</h1>\n    <h2>"
  const AfterLessonTitle: string := "</h2>\n    <p>"
  const AfterDescription: string := "</p>\n    "
  const Gap: string := "\n    "
  const PageEnd: string := "\n</body>\n</html>"

  /** Everything up to the optional sections. */
  function PageTop(lesson: Lesson, courseTitle: string): string {
    PageHead + EscapeXml(lesson.title) + PageStyle + EscapeXml(courseTitle)
    + AfterCourseTitle + EscapeXml(lesson.title) + AfterLessonTitle
    + EscapeXml(lesson.description) + AfterDescription
  }

  function PageSections(lesson: Lesson): string {
    Section("Lecture Notes", lesson.lectureNotes) + Gap
    + Section("Key Talking Points", lesson.keyTalkingPoints) + Gap
    + Section("Quiz Questions", lesson.quizQuestions)
  }

  /** `generateLessonHtml(lesson, courseTitle)` */
  function LessonHtml(lesson: Lesson, courseTitle: string): string {
    PageTop(lesson, courseTitle) + PageSections(lesson) + PageEnd
  }

  /** A section is shown exactly when its field is non-empty, and the text
      between its `<pre>` and `</pre>` holds no `<` and reads back as the
      field's text. */
  lemma SectionGating(heading: string, field: Option<string>)
    ensures Section(heading, field) == "" <==> !Present(field)
    ensures Present(field) ==>
      var s := Section(heading, field);
      var from := |SectionOpen + heading + SectionMiddle|;
      && from <= |s| - |SectionClose|
      && var body := s[from..|s| - |SectionClose|];
      && (forall i :: 0 <= i < |body| ==> body[i] != '<')
      && Unescape(body) == field.value
  {
    if Present(field) {
      var open := SectionOpen + heading + SectionMiddle;
      var e := EscapeXml(field.value);
      var s := Section(heading, field);
      assert s == open + e + SectionClose;
      assert s[|open|..|s| - |SectionClose|] == e;
      UnescapeEscape(field.value);
      EscapeXmlHasNoMarkup(field.value);
    }
  }

  /** A field that is present but empty renders as if it were absent. */
  function Normalized(lesson: Lesson): Lesson {
    lesson.(lectureNotes := if Present(lesson.lectureNotes) then lesson.lectureNotes else None,
            keyTalkingPoints := if Present(lesson.keyTalkingPoints) then lesson.keyTalkingPoints else None,
            quizQuestions := if Present(lesson.quizQuestions) then lesson.quizQuestions else None)
  }

  lemma EmptyFieldRendersAsAbsent(lesson: Lesson, courseTitle: string)
    ensures LessonHtml(lesson, courseTitle) == LessonHtml(Normalized(lesson), courseTitle)
  {
    var n := Normalized(lesson);
    assert PageTop(n, courseTitle) == PageTop(lesson, courseTitle);
    assert Section("Lecture Notes", n.lectureNotes) == Section("Lecture Notes", lesson.lectureNotes);
    assert Section("Key Talking Points", n.keyTalkingPoints) == Section("Key Talking Points", lesson.keyTalkingPoints);
    assert Section("Quiz Questions", n.quizQuestions) == Section("Quiz Questions", lesson.quizQuestions);
    assert PageSections(n) == PageSections(lesson);
  }

  /** The number of optional sections a lesson's page shows. */
  function PresentCount(lesson: Lesson): nat {
    (if Present(lesson.lectureNotes) then 1 else 0)
    + (if Present(lesson.keyTalkingPoints) then 1 else 0)
    + (if Present(lesson.quizQuestions) then 1 else 0)
  }

  /** The tags of the fixed parts of every lesson page. */
  const FrameTags: nat :=
    Tags(PageHead) + Tags(PageStyle) + Tags(AfterCourseTitle) + Tags(AfterLessonTitle)
    + Tags(AfterDescription) + Tags(PageEnd)

  lemma Tags3(a: string, b: string, c: string)
    ensures Tags(a + b + c) == Tags(a) + Tags(b) + Tags(c)
  {
    TagsAppend(a, b);
    TagsAppend(a + b, c);
  }

  lemma OneTag(before: string, after: string)
    requires forall i :: 0 <= i < |before| ==> before[i] != '<'
    requires forall i :: 0 <= i < |after| ==> after[i] != '<'
    ensures Tags(before + "<" + after) == 1
  {
    Tags3(before, "<", after);
    NoLessThanNoTags(before);
    NoLessThanNoTags(after);
    assert "<"[..0] == [];
  }

  lemma SectionLiteralTags()
    ensures Tags(SectionOpen) == 1 && Tags(SectionMiddle) == 2 && Tags(SectionClose) == 1
  {
    assert SectionOpen == "\n    " + "<" + "h2>";
    OneTag("\n    ", "h2>");
    assert SectionMiddle == "" + "<" + "/h2>\n    " + ("" + "<" + "pre>");
    OneTag("", "/h2>\n    ");
    OneTag("", "pre>");
    TagsAppend("" + "<" + "/h2>\n    ", "" + "<" + "pre>");
    assert SectionClose == "" + "<" + "/pre>\n    ";
    OneTag("", "/pre>\n    ");
  }

  lemma SectionTags(heading: string, field: Option<string>)
    requires forall i :: 0 <= i < |heading| ==> heading[i] != '<'
    ensures Tags(Section(heading, field)) == if Present(field) then 4 else 0
  {
    if Present(field) {
      var e := EscapeXml(field.value);
      Tags3(SectionOpen, heading, SectionMiddle);
      Tags3(SectionOpen + heading + SectionMiddle, e, SectionClose);
      NoLessThanNoTags(heading);
      EscapedHasNoTags(field.value);
      SectionLiteralTags();
    }
  }

  lemma PageTopTags(lesson: Lesson, courseTitle: string)
    ensures Tags(PageTop(lesson, courseTitle))
         == Tags(PageHead) + Tags(PageStyle) + Tags(AfterCourseTitle) + Tags(AfterLessonTitle) + Tags(AfterDescription)
  {
    var t, c, d := EscapeXml(lesson.title), EscapeXml(courseTitle), EscapeXml(lesson.description);
    EscapedHasNoTags(lesson.title);
    EscapedHasNoTags(courseTitle);
    EscapedHasNoTags(lesson.description);
    var x1 := PageHead + t + PageStyle;
    Tags3(PageHead, t, PageStyle);
    var x2 := x1 + c + AfterCourseTitle;
    Tags3(x1, c, AfterCourseTitle);
    var x3 := x2 + t + AfterLessonTitle;
    Tags3(x2, t, AfterLessonTitle);
    Tags3(x3, d, AfterDescription);
  }

  lemma PageSectionsTags(lesson: Lesson)
    ensures Tags(PageSections(lesson)) == 4 * PresentCount(lesson)
  {
    var s1 := Section("Lecture Notes", lesson.lectureNotes);
    var s2 := Section("Key Talking Points", lesson.keyTalkingPoints);
    var s3 := Section("Quiz Questions", lesson.quizQuestions);
    SectionTags("Lecture Notes", lesson.lectureNotes);
    SectionTags("Key Talking Points", lesson.keyTalkingPoints);
    SectionTags("Quiz Questions", lesson.quizQuestions);
    NoLessThanNoTags(Gap);
    Tags3(s1, Gap, s2);
    Tags3(s1 + Gap + s2, Gap, s3);
  }

  /** No text of the lesson or the course can add markup to the page: the
      page's tags are those of the fixed frame plus four (`<h2>`, `</h2>`,
      `<pre>`, `</pre>`) for each section shown. */
  lemma LessonHtmlTags(lesson: Lesson, courseTitle: string)
    ensures Tags(LessonHtml(lesson, courseTitle)) == FrameTags + 4 * PresentCount(lesson)
  {
    PageTopTags(lesson, courseTitle);
    PageSectionsTags(lesson);
    Tags3(PageTop(lesson, courseTitle), PageSections(lesson), PageEnd);
  }

  // ---- Lesson numbering (utils/export.ts:183-195, 241-250) ----

  /** The lessons of a list of modules, module by module. */
  function ModuleLessons(modules: seq<CourseModule>): seq<Lesson>
    decreases |modules|
  {
    if modules == [] then []
    else ModuleLessons(modules[..|modules| - 1]) + modules[|modules| - 1].lessons
  }

  /** Every lesson of the curriculum in day, module, lesson order: lesson
      `k` of the package is `AllLessons(days)[k - 1]`. */
  function AllLessons(days: seq<CurriculumDay>): seq<Lesson>
    decreases |days|
  {
    if days == [] then []
    else AllLessons(days[..|days| - 1]) + ModuleLessons(days[|days| - 1].modules)
  }

  /** The entries of the organisation tree: an opening day or module
      `<item>`, a lesson `<item>` (opened and closed on one line), or the
      `</item>` that closes a day or module. */
  datatype Item =
    | DayItem(day: int, title: string)
    | ModuleItem(day: int, index: nat, title: string)
    | LessonItem(number: nat, title: string)
    | EndItem

  /** Lessons numbered on from `start`. */
  function Numbered(lessons: seq<Lesson>, start: nat): (r: seq<Item>)
    ensures |r| == |lessons|
    decreases |lessons|
  {
    if lessons == [] then []
    else
      var n := |lessons| - 1;
      Numbered(lessons[..n], start) + [LessonItem(start + n + 1, lessons[n].title)]
  }

  /** The `i`-th numbered lesson carries number `start + i + 1` and the
      title of the `i`-th lesson. */
  lemma {:induction false} NumberedAt(lessons: seq<Lesson>, start: nat, i: nat)
    requires i < |lessons|
    ensures Numbered(lessons, start)[i] == LessonItem(start + i + 1, lessons[i].title)
    decreases |lessons|
  {
    var n := |lessons| - 1;
    if i < n {
      NumberedAt(lessons[..n], start, i);
    }
  }

  /** One module: its opening item, its lessons numbered on from `start`,
      and the closing `</item>`. */
  function ModuleBlock(day: int, index: nat, m: CourseModule, start: nat): seq<Item> {
    [ModuleItem(day, index, m.title)] + Numbered(m.lessons, start) + [EndItem]
  }

  function ModuleItems(day: int, modules: seq<CourseModule>, start: nat): seq<Item>
    decreases |modules|
  {
    if modules == [] then []
    else
      var n := |modules| - 1;
      ModuleItems(day, modules[..n], start)
      + ModuleBlock(day, n, modules[n], start + |ModuleLessons(modules[..n])|)
  }

  function DayItems(d: CurriculumDay, start: nat): seq<Item> {
    [DayItem(d.day, d.title)] + ModuleItems(d.day, d.modules, start) + [EndItem]
  }

  /** The organisation of the manifest, in the order it is written. */
  function Items(days: seq<CurriculumDay>): seq<Item>
    decreases |days|
  {
    if days == [] then []
    else
      var n := |days| - 1;
      Items(days[..n]) + DayItems(days[n], |AllLessons(days[..n])|)
  }

  /** The lesson entries of an item list, in order. */
  function LessonItemsOf(items: seq<Item>): seq<Item>
    decreases |items|
  {
    if items == [] then []
    else
      var last := items[|items| - 1];
      LessonItemsOf(items[..|items| - 1]) + (if last.LessonItem? then [last] else [])
  }

  lemma {:induction false} LessonItemsOfAppend(a: seq<Item>, b: seq<Item>)
    ensures LessonItemsOf(a + b) == LessonItemsOf(a) + LessonItemsOf(b)
    decreases |b|
  {
    if b == [] {
      assert a + b == a;
    } else {
      assert (a + b)[..|a + b| - 1] == a + b[..|b| - 1];
      LessonItemsOfAppend(a, b[..|b| - 1]);
    }
  }

  lemma {:induction false} LessonItemsOfNumbered(lessons: seq<Lesson>, start: nat)
    ensures LessonItemsOf(Numbered(lessons, start)) == Numbered(lessons, start)
    decreases |lessons|
  {
    if lessons != [] {
      var n := |lessons| - 1;
      assert Numbered(lessons, start) == Numbered(lessons[..n], start) + [LessonItem(start + n + 1, lessons[n].title)];
      assert Numbered(lessons, start)[..n] == Numbered(lessons[..n], start);
      LessonItemsOfNumbered(lessons[..n], start);
    }
  }

  lemma NumberedSnoc(lessons: seq<Lesson>, l: Lesson, start: nat)
    ensures Numbered(lessons + [l], start) == Numbered(lessons, start) + [LessonItem(start + |lessons| + 1, l.title)]
  {
    assert (lessons + [l])[..|lessons|] == lessons;
  }

  /** Numbering a concatenation numbers the second part on from where the
      first part stops. */
  lemma {:induction false} NumberedAppend(a: seq<Lesson>, b: seq<Lesson>, start: nat)
    ensures Numbered(a + b, start) == Numbered(a, start) + Numbered(b, start + |a|)
    decreases |b|
  {
    if b == [] {
      assert a + b == a;
    } else {
      var n := |b| - 1;
      assert a + b == (a + b[..n]) + [b[n]];
      NumberedSnoc(a + b[..n], b[n], start);
      NumberedAppend(a, b[..n], start);
      assert b == b[..n] + [b[n]];
      NumberedSnoc(b[..n], b[n], start + |a|);
    }
  }

  lemma LessonItemsOfSingle(item: Item)
    ensures LessonItemsOf([item]) == if item.LessonItem? then [item] else []
  {
    assert [item][..0] == [];
  }

  lemma LessonItemsOf3(a: seq<Item>, b: seq<Item>, c: seq<Item>)
    ensures LessonItemsOf(a + b + c) == LessonItemsOf(a) + LessonItemsOf(b) + LessonItemsOf(c)
  {
    LessonItemsOfAppend(a + b, c);
    LessonItemsOfAppend(a, b);
  }

  lemma ModuleBlockNumbered(day: int, index: nat, m: CourseModule, start: nat)
    ensures LessonItemsOf(ModuleBlock(day, index, m, start)) == Numbered(m.lessons, start)
  {
    LessonItemsOf3([ModuleItem(day, index, m.title)], Numbered(m.lessons, start), [EndItem]);
    LessonItemsOfSingle(ModuleItem(day, index, m.title));
    LessonItemsOfSingle(EndItem);
    LessonItemsOfNumbered(m.lessons, start);
  }

  lemma {:induction false} ModuleItemsNumbered(day: int, modules: seq<CourseModule>, start: nat)
    ensures LessonItemsOf(ModuleItems(day, modules, start)) == Numbered(ModuleLessons(modules), start)
    decreases |modules|
  {
    if modules != [] {
      var n := |modules| - 1;
      var before := ModuleLessons(modules[..n]);
      ModuleItemsNumbered(day, modules[..n], start);
      LessonItemsOfAppend(ModuleItems(day, modules[..n], start), ModuleBlock(day, n, modules[n], start + |before|));
      ModuleBlockNumbered(day, n, modules[n], start + |before|);
      NumberedAppend(before, modules[n].lessons, start);
    }
  }

  lemma DayItemsNumbered(d: CurriculumDay, start: nat)
    ensures LessonItemsOf(DayItems(d, start)) == Numbered(ModuleLessons(d.modules), start)
  {
    LessonItemsOf3([DayItem(d.day, d.title)], ModuleItems(d.day, d.modules, start), [EndItem]);
    LessonItemsOfSingle(DayItem(d.day, d.title));
    LessonItemsOfSingle(EndItem);
    ModuleItemsNumbered(d.day, d.modules, start);
  }

  /** The manifest numbers the lessons 1, 2, ..., n in day, module, lesson
      order, with one lesson `<item>` per lesson carrying that lesson's
      title. */
  lemma {:induction false} ItemsNumberLessons(days: seq<CurriculumDay>)
    ensures LessonItemsOf(Items(days)) == Numbered(AllLessons(days), 0)
    decreases |days|
  {
    if days != [] {
      var n := |days| - 1;
      var before, lessons := AllLessons(days[..n]), ModuleLessons(days[n].modules);
      var head, block := Items(days[..n]), DayItems(days[n], |before|);
      assert Items(days) == head + block;
      assert AllLessons(days) == before + lessons;
      ItemsNumberLessons(days[..n]);
      LessonItemsOfAppend(head, block);
      DayItemsNumbered(days[n], |before|);
      NumberedAppend(before, lessons, 0);
    }
  }

  // ---- Nesting of the organisation ----

  /** Open day and module items minus the closing `</item>`s. */
  function Depth(items: seq<Item>): int
    decreases |items|
  {
    if items == [] then 0
    else
      var last := items[|items| - 1];
      Depth(items[..|items| - 1])
      + (if last.DayItem? || last.ModuleItem? then 1 else if last.EndItem? then -1 else 0)
  }

  /** Where an entry may stand: days at the top, modules inside a day,
      lessons inside a module. */
  predicate AtLevel(item: Item, level: int) {
    match item
    case DayItem(_, _) => level == 0
    case ModuleItem(_, _, _) => level == 1
    case LessonItem(_, _) => level == 2
    case EndItem => true
  }

  /** `items`, placed at nesting level `base`, closes every item it opens,
      never closes one it did not open, and puts each entry at its level. */
  predicate NestedAt(items: seq<Item>, base: int) {
    && Depth(items) == 0
    && (forall k :: 0 <= k <= |items| ==> Depth(items[..k]) >= 0)
    && (forall k :: 0 <= k < |items| ==> AtLevel(items[k], base + Depth(items[..k])))
  }

  lemma {:induction false} DepthAppend(a: seq<Item>, b: seq<Item>)
    ensures Depth(a + b) == Depth(a) + Depth(b)
    decreases |b|
  {
    if b == [] {
      assert a + b == a;
    } else {
      assert (a + b)[..|a + b| - 1] == a + b[..|b| - 1];
      DepthAppend(a, b[..|b| - 1]);
    }
  }

  lemma PrefixDepth(a: seq<Item>, b: seq<Item>, k: nat)
    requires k <= |a| + |b|
    ensures Depth((a + b)[..k]) == if k <= |a| then Depth(a[..k]) else Depth(a) + Depth(b[..k - |a|])
  {
    if k <= |a| {
      assert (a + b)[..k] == a[..k];
    } else {
      assert (a + b)[..k] == a + b[..k - |a|];
      DepthAppend(a, b[..k - |a|]);
    }
  }

  lemma NestedAppend(a: seq<Item>, b: seq<Item>, base: int)
    requires NestedAt(a, base) && NestedAt(b, base)
    ensures NestedAt(a + b, base)
  {
    DepthAppend(a, b);
    forall k | 0 <= k <= |a + b|
      ensures Depth((a + b)[..k]) >= 0
    {
      PrefixDepth(a, b, k);
    }
    forall k | 0 <= k < |a + b|
      ensures AtLevel((a + b)[k], base + Depth((a + b)[..k]))
    {
      PrefixDepth(a, b, k);
      if k >= |a| {
        assert (a + b)[k] == b[k - |a|];
      }
    }
  }

  lemma NestedWrap(open: Item, inner: seq<Item>, base: int)
    requires open.DayItem? || open.ModuleItem?
    requires AtLevel(open, base) && NestedAt(inner, base + 1)
    ensures NestedAt([open] + inner + [EndItem], base)
  {
    var w := [open] + inner + [EndItem];
    var head := [open] + inner;
    assert Depth([open]) == 1 by { assert [open][..0] == []; }
    assert Depth([EndItem]) == -1 by { assert [EndItem][..0] == []; }
    DepthAppend([open], inner);
    DepthAppend(head, [EndItem]);
    forall k | 0 <= k <= |w|
      ensures Depth(w[..k]) >= 0
      ensures k < |w| ==> AtLevel(w[k], base + Depth(w[..k]))
    {
      if k == 0 {
        assert w[..0] == [];
      } else if k <= |head| {
        assert w[..k] == [open] + inner[..k - 1];
        DepthAppend([open], inner[..k - 1]);
        if k < |head| {
          assert w[k] == inner[k - 1];
        }
      } else {
        assert w[..k] == w;
      }
    }
  }

  lemma NumberedNested(lessons: seq<Lesson>, start: nat)
    ensures NestedAt(Numbered(lessons, start), 2)
  {
    var items := Numbered(lessons, start);
    forall i | 0 <= i < |items|
      ensures items[i].LessonItem?
    {
      NumberedAt(lessons, start, i);
    }
    FlatNested(items);
  }

  /** Lesson items alone sit at the lesson level and open nothing. */
  lemma FlatNested(items: seq<Item>)
    requires forall i :: 0 <= i < |items| ==> items[i].LessonItem?
    ensures NestedAt(items, 2)
  {
    forall k | 0 <= k <= |items|
      ensures Depth(items[..k]) == 0
    {
      assert forall i :: 0 <= i < k ==> items[..k][i] == items[i];
      FlatDepth(items[..k]);
    }
    assert items[..|items|] == items;
  }

  lemma {:induction false} FlatDepth(items: seq<Item>)
    requires forall i :: 0 <= i < |items| ==> items[i].LessonItem?
    ensures Depth(items) == 0
    decreases |items|
  {
    if items != [] {
      FlatDepth(items[..|items| - 1]);
    }
  }

  lemma ModuleBlockNested(day: int, index: nat, m: CourseModule, start: nat)
    ensures NestedAt(ModuleBlock(day, index, m, start), 1)
  {
    NumberedNested(m.lessons, start);
    NestedWrap(ModuleItem(day, index, m.title), Numbered(m.lessons, start), 1);
  }

  lemma {:induction false} ModuleItemsNested(day: int, modules: seq<CourseModule>, start: nat)
    ensures NestedAt(ModuleItems(day, modules, start), 1)
    decreases |modules|
  {
    if modules == [] {
      assert ModuleItems(day, modules, start)[..0] == [];
    } else {
      var n := |modules| - 1;
      var at := start + |ModuleLessons(modules[..n])|;
      ModuleItemsStep([], day, modules, n, start, at);
      assert modules[..n + 1] == modules;
      ModuleItemsNested(day, modules[..n], start);
      ModuleBlockNested(day, n, modules[n], at);
      NestedAppend(ModuleItems(day, modules[..n], start), ModuleBlock(day, n, modules[n], at), 1);
    }
  }

  lemma DayItemsNested(d: CurriculumDay, start: nat)
    ensures NestedAt(DayItems(d, start), 0)
  {
    ModuleItemsNested(d.day, d.modules, start);
    NestedWrap(DayItem(d.day, d.title), ModuleItems(d.day, d.modules, start), 0);
  }

  /** Day and module items are opened and closed in balanced nesting, with
      every module inside a day and every lesson inside a module. */
  lemma {:induction false} ItemsNested(days: seq<CurriculumDay>)
    ensures NestedAt(Items(days), 0)
    decreases |days|
  {
    if days == [] {
      assert Items(days)[..0] == [];
    } else {
      var n := |days| - 1;
      var start := |AllLessons(days[..n])|;
      assert Items(days) == Items(days[..n]) + DayItems(days[n], start);
      ItemsNested(days[..n]);
      DayItemsNested(days[n], start);
      NestedAppend(Items(days[..n]), DayItems(days[n], start), 0);
    }
  }

  // ---- The manifest text (utils/export.ts:179-231) ----

  function LessonId(k: nat): string {
    Concat(["LESSON_", NatToString(k)])
  }

  /** The page written for lesson `k` (utils/export.ts:192, 247). */
  function LessonHref(k: nat): string {
    Concat(["lessons/lesson_", NatToString(k), ".html"])
  }

  /** The line written for one entry (utils/export.ts:186, 188, 193, 196,
      198); each template literal is the concatenation of its parts. */
  function ItemLine(item: Item): string {
    match item
    case DayItem(day, title) =>
      Concat(["<item identifier=\"DAY_", IntToString(day), "\" identifierref=\"\" isvisible=\"true\"><title>", EscapeXml(title), "</title>"])
    case ModuleItem(day, index, title) =>
      Concat(["<item identifier=\"MOD_", IntToString(day), "_", NatToString(index), "\" identifierref=\"\" isvisible=\"true\"><title>", EscapeXml(title), "</title>"])
    case LessonItem(k, title) =>
      Concat(["<item identifier=\"", LessonId(k), "\" identifierref=\"RES_", LessonId(k), "\" isvisible=\"true\"><title>", EscapeXml(title), "</title></item>"])
    case EndItem => "</item>"
  }

  /** Each entry's line followed by a newline, for any way of writing a
      line. */
  function RenderWith<T>(xs: seq<T>, line: T -> string): string
    decreases |xs|
  {
    if xs == [] then "" else RenderWith(xs[..|xs| - 1], line) + line(xs[|xs| - 1]) + "\n"
  }

  lemma RenderSnoc<T>(xs: seq<T>, x: T, line: T -> string)
    ensures RenderWith(xs + [x], line) == RenderWith(xs, line) + line(x) + "\n"
  {
    assert (xs + [x])[..|xs|] == xs;
  }

  lemma {:induction false} RenderAppend<T>(a: seq<T>, b: seq<T>, line: T -> string)
    ensures RenderWith(a + b, line) == RenderWith(a, line) + RenderWith(b, line)
    decreases |b|
  {
    if b == [] {
      assert a + b == a;
    } else {
      assert (a + b)[..|a + b| - 1] == a + b[..|b| - 1];
      RenderAppend(a, b[..|b| - 1], line);
    }
  }

  /** `itemsXml` for a list of entries: one line each. */
  function RenderItems(items: seq<Item>): string {
    RenderWith(items, ItemLine)
  }

  /** The resource of lesson `k` (utils/export.ts:194). */
  function ResourceXml(k: nat): string {
    Concat(["<resource identifier=\"RES_", LessonId(k), "\" type=\"webcontent\" adlcp:scormtype=\"sco\" href=\"", LessonHref(k), "\">\n<file href=\"", LessonHref(k), "\"/>\n</resource>\n"])
  }

  /** `resourcesXml` once `n` lessons are numbered: resources 1 to n. */
  function Resources(n: nat): string {
    if n == 0 then "" else Resources(n - 1) + ResourceXml(n)
  }

  /** The document around the two lists (utils/export.ts:201-230). */
  function ManifestXml(identifier: string, title: string, description: string,
                       itemsXml: string, resourcesXml: string): string {
    Concat([
      "<?xml version=\"1.0\" standalone=\"no\" ?>\n<manifest identifier=\"", identifier, "\" version=\"1.1\"\n"
      + "    xmlns=\"http://www.imsproject.org/xsd/imscp_rootv1p1p2\"\n"
      + "    xmlns:adlcp=\"http://www.adlnet.org/xsd/adlcp_rootv1p2\"\n"
      + "    xmlns:xsi=\"http://www.w3.org/2001/XMLSchema-instance\"\n"
      + "    xsi:schemaLocation=\"http://www.imsproject.org/xsd/imscp_rootv1p1p2 imscp_rootv1p1p2.xsd "
      + "http://www.imsglobal.org/xsd/imsmd_rootv1p2p1 imsmd_rootv1p2p1.xsd "
      + "http://www.adlnet.org/xsd/adlcp_rootv1p2 adlcp_rootv1p2.xsd\">\n"
      + "    <metadata>\n        <schema>ADL SCORM</schema>\n        <schemaversion>1.2</schemaversion>\n"
      + "        <lom xmlns=\"http://www.imsglobal.org/xsd/imsmd_rootv1p2p1\">\n            <general>\n"
      + "                <title>\n                    <langstring xml:lang=\"en-US\">", EscapeXml(title),
      "</langstring>\n                </title>\n"
      + "                <description>\n                    <langstring xml:lang=\"en-US\">", EscapeXml(description),
      "</langstring>\n                </description>\n"
      + "            </general>\n        </lom>\n    </metadata>\n"
      + "    <organizations default=\"ORG-1\">\n        <organization identifier=\"ORG-1\">\n"
      + "            <title>", EscapeXml(title), "</title>\n            ", itemsXml,
      "\n        </organization>\n    </organizations>\n    <resources>\n        ", resourcesXml,
      "\n    </resources>\n</manifest>"])
  }

  /** The manifest of a course, `now` standing for `Date.now()`. */
  function Manifest(course: Course, now: int): string {
    ManifestXml("com.ai.course." + IntToString(now), course.title, course.description,
                RenderItems(Items(course.curriculum)), Resources(|AllLessons(course.curriculum)|))
  }

  lemma NumberedStep(open: seq<Item>, lessons: seq<Lesson>, j: nat, start: nat, item: Item)
    requires j < |lessons| && item == LessonItem(start + j + 1, lessons[j].title)
    ensures open + Numbered(lessons[..j], start) + [item] == open + Numbered(lessons[..j + 1], start)
  {
    assert lessons[..j + 1] == lessons[..j] + [lessons[j]];
    NumberedSnoc(lessons[..j], lessons[j], start);
  }

  lemma ModuleItemsStep(open: seq<Item>, day: int, modules: seq<CourseModule>, m: nat, start: nat, at: nat)
    requires m < |modules| && at == start + |ModuleLessons(modules[..m])|
    ensures open + ModuleItems(day, modules[..m], start) + ModuleBlock(day, m, modules[m], at)
         == open + ModuleItems(day, modules[..m + 1], start)
    ensures at + |modules[m].lessons| == start + |ModuleLessons(modules[..m + 1])|
  {
    assert modules[..m + 1][..m] == modules[..m];
  }

  lemma DaysStep(days: seq<CurriculumDay>, d: nat, at: nat)
    requires d < |days| && at == |AllLessons(days[..d])|
    ensures Items(days[..d]) + DayItems(days[d], at) == Items(days[..d + 1])
    ensures at + |ModuleLessons(days[d].modules)| == |AllLessons(days[..d + 1])|
  {
    assert days[..d + 1][..d] == days[..d];
  }

  /** One more line written after `prefix`. */
  lemma LineStep<T>(prefix: string, xs: seq<T>, x: T, line: T -> string)
    ensures prefix + RenderWith(xs + [x], line) == prefix + RenderWith(xs, line) + line(x) + "\n"
  {
    RenderSnoc(xs, x, line);
  }

  lemma FirstLine<T>(prefix: string, x: T, line: T -> string)
    ensures prefix + line(x) + "\n" == prefix + RenderWith([x], line)
  {
    RenderSnoc([], x, line);
    assert [] + [x] == [x];
  }

  /** A block of lines written after `prefix`. */
  lemma BlockStep<T>(prefix: string, xs: seq<T>, block: seq<T>, line: T -> string)
    ensures prefix + RenderWith(xs + block, line) == prefix + RenderWith(xs, line) + RenderWith(block, line)
  {
    RenderAppend(xs, block, line);
  }

  /** generateImsManifest (utils/export.ts:179-231): one pass over days,
      modules and lessons that writes the organisation and the resources
      and counts lessons in `lessonCounter`. */
  method GenerateImsManifest(course: Course, now: int) returns (xml: string)
    ensures xml == Manifest(course, now)
  {
    var courseIdentifier := "com.ai.course." + IntToString(now);
    var itemsXml, resourcesXml, lessonCounter := "", "", 0;
    var days := course.curriculum;
    ghost var written: seq<Item> := [];
    for d := 0 to |days|
      invariant lessonCounter == |AllLessons(days[..d])|
      invariant resourcesXml == Resources(lessonCounter)
      invariant written == Items(days[..d])
      invariant itemsXml == RenderItems(written)
    {
      ghost var block := DayItems(days[d], lessonCounter);
      DaysStep(days, d, lessonCounter);
      assert itemsXml + RenderItems(block) == RenderItems(written + block) by {
        RenderAppend(written, block, ItemLine);
      }
      itemsXml, resourcesXml, lessonCounter := AddDayItems(itemsXml, resourcesXml, lessonCounter, days[d]);
      written := written + block;
    }
    assert days[..|days|] == days;
    xml := ManifestXml(courseIdentifier, course.title, course.description, itemsXml, resourcesXml);
  }

  /** The body of the day `forEach` (utils/export.ts:186-198). */
  method AddDayItems(itemsXml: string, resourcesXml: string, counter: nat, d: CurriculumDay)
    returns (items: string, resources: string, next: nat)
    requires resourcesXml == Resources(counter)
    ensures items == itemsXml + RenderItems(DayItems(d, counter))
    ensures next == counter + |ModuleLessons(d.modules)|
    ensures resources == Resources(next)
  {
    var open := DayItem(d.day, d.title);
    ghost var written: seq<Item> := [];
    items := WriteItem(itemsXml, itemsXml, written, open, [open]);
    written := [open];
    resources, next := resourcesXml, counter;
    var modules := d.modules;
    for m := 0 to |modules|
      invariant next == counter + |ModuleLessons(modules[..m])|
      invariant resources == Resources(next)
      invariant written == [open] + ModuleItems(d.day, modules[..m], counter)
      invariant items == itemsXml + RenderItems(written)
    {
      ghost var block := ModuleBlock(d.day, m, modules[m], next);
      ModuleItemsStep([open], d.day, modules, m, counter, next);
      assert items + RenderItems(block) == itemsXml + RenderItems(written + block) by {
        BlockStep(itemsXml, written, block, ItemLine);
      }
      items, resources, next := AddModuleItems(items, resources, next, d.day, m, modules[m]);
      written := written + block;
    }
    assert modules[..|modules|] == modules;
    assert written + [EndItem] == DayItems(d, counter);
    items := WriteItem(items, itemsXml, written, EndItem, DayItems(d, counter));
  }

  /** The body of the module `forEach` (utils/export.ts:188-196): each
      lesson takes the next number for both its item and its resource. */
  method AddModuleItems(itemsXml: string, resourcesXml: string, counter: nat, day: int, index: nat, m: CourseModule)
    returns (items: string, resources: string, next: nat)
    requires resourcesXml == Resources(counter)
    ensures items == itemsXml + RenderItems(ModuleBlock(day, index, m, counter))
    ensures next == counter + |m.lessons|
    ensures resources == Resources(next)
  {
    var open := ModuleItem(day, index, m.title);
    ghost var written: seq<Item> := [];
    items := WriteItem(itemsXml, itemsXml, written, open, [open]);
    written := [open];
    resources, next := resourcesXml, counter;
    var lessons := m.lessons;
    for j := 0 to |lessons|
      invariant next == counter + j
      invariant resources == Resources(next)
      invariant written == [open] + Numbered(lessons[..j], counter)
      invariant items == itemsXml + RenderItems(written)
    {
      var item := LessonItem(next + 1, lessons[j].title);
      NumberedStep([open], lessons, j, counter, item);
      items := WriteItem(items, itemsXml, written, item, written + [item]);
      resources, next := WriteResource(resources, next);
      written := written + [item];
    }
    assert lessons[..|lessons|] == lessons;
    assert written + [EndItem] == ModuleBlock(day, index, m, counter);
    items := WriteItem(items, itemsXml, written, EndItem, ModuleBlock(day, index, m, counter));
  }

  /** One line of the organisation: `items` already holds `written`, and
      afterwards holds `whole`. */
  method WriteItem(items: string, ghost itemsXml: string, ghost written: seq<Item>, item: Item, ghost whole: seq<Item>)
    returns (r: string)
    requires items == itemsXml + RenderItems(written) || (written == [] && items == itemsXml)
    requires whole == written + [item]
    ensures r == itemsXml + RenderItems(whole)
  {
    if written == [] {
      FirstLine(itemsXml, item, ItemLine);
    }
    LineStep(itemsXml, written, item, ItemLine);
    r := items + ItemLine(item) + "\n";
  }

  /** The resource of the next lesson (utils/export.ts:194). */
  method WriteResource(resources: string, counter: nat) returns (r: string, next: nat)
    requires resources == Resources(counter)
    ensures next == counter + 1 && r == Resources(next)
  {
    next := counter + 1;
    r := resources + ResourceXml(next);
  }

  // ---- The package (utils/export.ts:234-257) ----

  /** One file added to the archive: its path inside the archive and its
      text. */
  datatype ZipFile = ZipFile(name: string, content: string)

  const ManifestName: string := "imsmanifest.xml"

  /** The pages of `lessons`, numbered on from `start`, each rendered by
      `page`. */
  function LessonFiles(lessons: seq<Lesson>, start: nat, page: Lesson -> string): (r: seq<ZipFile>)
    ensures |r| == |lessons|
    decreases |lessons|
  {
    if lessons == [] then []
    else
      var n := |lessons| - 1;
      LessonFiles(lessons[..n], start, page) + [ZipFile(LessonHref(start + n + 1), page(lessons[n]))]
  }

  /** The page of a lesson of the course titled `courseTitle`. */
  function PageOf(courseTitle: string): Lesson -> string {
    lesson => LessonHtml(lesson, courseTitle)
  }

  /** The archive's files in the order they are added: `manifestXml` under
      `imsmanifest.xml`, then the page of each lesson rendered by `page`,
      numbered from 1. */
  function Archive(manifestXml: string, lessons: seq<Lesson>, page: Lesson -> string): seq<ZipFile> {
    [ZipFile(ManifestName, manifestXml)] + LessonFiles(lessons, 0, page)
  }

  /** The archive exportToScorm builds for `course` at time `now`. */
  function ScormPackage(course: Course, now: int): seq<ZipFile> {
    Archive(Manifest(course, now), AllLessons(course.curriculum), PageOf(course.title))
  }

  /** `title.replace(/ /g, '_')`: every space becomes an underscore. */
  function Underscored(title: string): string
    decreases |title|
  {
    if title == [] then []
    else Underscored(title[..|title| - 1]) + [if title[|title| - 1] == ' ' then '_' else title[|title| - 1]]
  }

  lemma {:induction false} UnderscoredAt(title: string)
    ensures |Underscored(title)| == |title|
    ensures forall i :: 0 <= i < |title| ==>
      Underscored(title)[i] == if title[i] == ' ' then '_' else title[i]
    decreases |title|
  {
    if title != [] {
      var n := |title| - 1;
      UnderscoredAt(title[..n]);
    }
  }

  /** The name the archive is offered under (utils/export.ts:253). */
  function ArchiveName(title: string): string {
    Underscored(title) + "_SCORM.zip"
  }

  /** The archive name holds no space, and differs from the title only
      where the title has a space. */
  lemma ArchiveNameFacts(title: string)
    ensures |ArchiveName(title)| == |title| + 10
    ensures forall i :: 0 <= i < |ArchiveName(title)| ==> ArchiveName(title)[i] != ' '
    ensures forall i :: 0 <= i < |title| && title[i] != ' ' ==> ArchiveName(title)[i] == title[i]
  {
    UnderscoredAt(title);
    var u := Underscored(title);
    assert forall i :: |u| <= i < |u| + 10 ==> ArchiveName(title)[i] == "_SCORM.zip"[i - |u|];
  }

  /** The `i`-th page is lesson `i` of the list under number `start + i + 1`. */
  lemma {:induction false} LessonFilesAt(lessons: seq<Lesson>, start: nat, page: Lesson -> string, i: nat)
    requires i < |lessons|
    ensures LessonFiles(lessons, start, page)[i]
         == ZipFile(LessonHref(start + i + 1), page(lessons[i]))
    decreases |lessons|
  {
    var n := |lessons| - 1;
    if i < n {
      LessonFilesAt(lessons[..n], start, page, i);
    }
  }

  lemma LessonFilesSnoc(lessons: seq<Lesson>, l: Lesson, start: nat, page: Lesson -> string)
    ensures LessonFiles(lessons + [l], start, page)
         == LessonFiles(lessons, start, page) + [ZipFile(LessonHref(start + |lessons| + 1), page(l))]
  {
    assert (lessons + [l])[..|lessons|] == lessons;
  }

  /** Pages of a concatenation: the second part is numbered on from where
      the first part stops. */
  lemma {:induction false} LessonFilesAppend(a: seq<Lesson>, b: seq<Lesson>, start: nat, page: Lesson -> string)
    ensures LessonFiles(a + b, start, page)
         == LessonFiles(a, start, page) + LessonFiles(b, start + |a|, page)
    decreases |b|
  {
    if b == [] {
      assert a + b == a;
    } else {
      var n := |b| - 1;
      assert a + b == (a + b[..n]) + [b[n]];
      LessonFilesSnoc(a + b[..n], b[n], start, page);
      LessonFilesAppend(a, b[..n], start, page);
      assert b == b[..n] + [b[n]];
      LessonFilesSnoc(b[..n], b[n], start + |a|, page);
    }
  }

  lemma Concat3(a: string, b: string, c: string)
    ensures Concat([a, b, c]) == a + b + c
  {
    assert [a, b, c][..2] == [a, b];
    assert [a, b][..1] == [a];
    assert [a][..0] == [];
    assert Concat([a]) == "" + a == a;
    assert Concat([a, b]) == a + b;
  }

  /** Different lesson numbers name different pages. */
  lemma LessonHrefInjective(a: nat, b: nat)
    ensures LessonHref(a) == LessonHref(b) <==> a == b
  {
    var p, q := "lessons/lesson_", ".html";
    var sa, sb := NatToString(a), NatToString(b);
    Concat3(p, sa, q);
    Concat3(p, sb, q);
    if LessonHref(a) == LessonHref(b) {
      var h := LessonHref(a);
      assert |sa| == |sb|;
      assert sa == h[|p|..|p| + |sa|];
      assert sb == h[|p|..|p| + |sb|];
    }
    NatToStringInjective(a, b);
  }

  /** No page is named like the manifest. */
  lemma LessonHrefNotManifest(k: nat)
    ensures LessonHref(k) != ManifestName
  {
    Concat3("lessons/lesson_", NatToString(k), ".html");
    assert LessonHref(k)[0] == 'l';
  }

  /** The archive holds the manifest first and then, for k = 1 to n, the
      page of the k-th lesson under `lessons/lesson_k.html`. */
  lemma ArchiveFiles(manifestXml: string, lessons: seq<Lesson>, page: Lesson -> string)
    ensures var files := Archive(manifestXml, lessons, page);
      && |files| == |lessons| + 1
      && files[0] == ZipFile(ManifestName, manifestXml)
      && forall k :: 1 <= k <= |lessons| ==> files[k] == ZipFile(LessonHref(k), page(lessons[k - 1]))
  {
    var files := Archive(manifestXml, lessons, page);
    forall k | 1 <= k <= |lessons|
      ensures files[k] == ZipFile(LessonHref(k), page(lessons[k - 1]))
    {
      assert files[k] == LessonFiles(lessons, 0, page)[k - 1];
      LessonFilesAt(lessons, 0, page, k - 1);
    }
  }

  /** Every file of the archive has its own name, so no `zip.file` call
      overwrites an earlier one. */
  lemma ArchiveNamesDistinct(manifestXml: string, lessons: seq<Lesson>, page: Lesson -> string)
    ensures var files := Archive(manifestXml, lessons, page);
      forall i, j :: 0 <= i < j < |files| ==> files[i].name != files[j].name
  {
    var files := Archive(manifestXml, lessons, page);
    ArchiveFiles(manifestXml, lessons, page);
    forall i, j | 0 <= i < j < |files|
      ensures files[i].name != files[j].name
    {
      LessonHrefNotManifest(j);
      if i > 0 {
        LessonHrefInjective(i, j);
      }
    }
  }

  /** The manifest's `i`-th lesson `<item>` carries number `i + 1` and the
      title of the `i`-th lesson in day, module, lesson order. */
  lemma ManifestLessonItems(days: seq<CurriculumDay>)
    ensures var lessons := AllLessons(days);
      && |LessonItemsOf(Items(days))| == |lessons|
      && forall i :: 0 <= i < |lessons| ==>
           LessonItemsOf(Items(days))[i] == LessonItem(i + 1, lessons[i].title)
  {
    var lessons := AllLessons(days);
    ItemsNumberLessons(days);
    forall i | 0 <= i < |lessons|
      ensures Numbered(lessons, 0)[i] == LessonItem(i + 1, lessons[i].title)
    {
      NumberedAt(lessons, 0, i);
    }
  }

  /** Resource k sits k-th in the resource list of n lessons. */
  lemma ResourcesAt(n: nat)
    ensures forall k :: 1 <= k <= n ==>
      && |Resources(k - 1)| <= |Resources(k)| <= |Resources(n)|
      && Resources(n)[|Resources(k - 1)|..|Resources(k)|] == ResourceXml(k)
  {
    forall k | 1 <= k <= n
      ensures |Resources(k - 1)| <= |Resources(k)| <= |Resources(n)|
      ensures Resources(n)[|Resources(k - 1)|..|Resources(k)|] == ResourceXml(k)
    {
      ResourcesPrefix(k, n);
    }
  }

  /** The manifest and the archive agree lesson by lesson: for each lesson number k,
      the manifest's k-th lesson `<item>` carries number k and the title of
      the k-th lesson in day, module, lesson order; resource k (whose
      `href` is `LessonHref(k)`) sits k-th in the resource list; and file k
      of the archive, after the manifest, has that very name and holds that
      lesson's page. So every `href` of the manifest names a file of the
      archive. */
  lemma ManifestAgreesWithArchive(days: seq<CurriculumDay>, manifestXml: string, page: Lesson -> string, k: nat)
    requires 1 <= k <= |AllLessons(days)|
    ensures var lessons := AllLessons(days);
      var files := Archive(manifestXml, lessons, page);
      && |files| == |lessons| + 1
      && |LessonItemsOf(Items(days))| == |lessons|
      && LessonItemsOf(Items(days))[k - 1] == LessonItem(k, lessons[k - 1].title)
      && |Resources(k - 1)| <= |Resources(k)| <= |Resources(|lessons|)|
      && Resources(|lessons|)[|Resources(k - 1)|..|Resources(k)|] == ResourceXml(k)
      && files[k] == ZipFile(LessonHref(k), page(lessons[k - 1]))
  {
    var lessons := AllLessons(days);
    ArchiveFiles(manifestXml, lessons, page);
    ManifestLessonItems(days);
    ResourcesPrefix(k, |lessons|);
  }

  /** The first k resources begin the resource list, the k-th last. */
  lemma {:induction false} ResourcesPrefix(k: nat, n: nat)
    requires 1 <= k <= n
    ensures |Resources(k - 1)| <= |Resources(k)| <= |Resources(n)|
    ensures Resources(n)[..|Resources(k)|] == Resources(k)
    ensures Resources(n)[|Resources(k - 1)|..|Resources(k)|] == ResourceXml(k)
    decreases n
  {
    if k < n {
      ResourcesPrefix(k, n - 1);
      var r := Resources(n - 1);
      assert Resources(n)[..|r|] == r;
      assert Resources(n)[..|Resources(k)|] == r[..|Resources(k)|];
    }
  }

  /** exportToScorm (utils/export.ts:234-257): the manifest, then a second
      pass over days, modules and lessons with its own `lessonCounter` that
      adds each lesson's page. The archive's files are returned; the name it
      is offered under is ArchiveName, and generating the blob and
      downloading it are not part of this model. */
  method ExportToScorm(course: Course, now: int) returns (files: seq<ZipFile>)
    ensures files == ScormPackage(course, now)
  {
    var manifestXml := GenerateImsManifest(course, now);
    files := BuildArchive(manifestXml, course.curriculum, PageOf(course.title));
  }

  /** The archive with the manifest text, then the three nested `forEach`es
      of exportToScorm (utils/export.ts:241-250), with `page` standing for
      `lesson => generateLessonHtml(lesson, course.title)`. */
  method BuildArchive(manifestXml: string, days: seq<CurriculumDay>, page: Lesson -> string)
    returns (files: seq<ZipFile>)
    ensures files == Archive(manifestXml, AllLessons(days), page)
  {
    var head := [ZipFile(ManifestName, manifestXml)];
    files := head;
    var lessonCounter := 0;
    for d := 0 to |days|
      invariant lessonCounter == |AllLessons(days[..d])|
      invariant files == head + LessonFiles(AllLessons(days[..d]), 0, page)
    {
      DayFilesStep(head, days, d, page, lessonCounter);
      files, lessonCounter := AddDayFiles(files, lessonCounter, days[d], page);
    }
    assert days[..|days|] == days;
  }

  lemma ModuleFilesStep(files: seq<ZipFile>, modules: seq<CourseModule>, m: nat, counter: nat,
                        page: Lesson -> string, at: nat)
    requires m < |modules| && at == counter + |ModuleLessons(modules[..m])|
    ensures files + LessonFiles(ModuleLessons(modules[..m]), counter, page) + LessonFiles(modules[m].lessons, at, page)
         == files + LessonFiles(ModuleLessons(modules[..m + 1]), counter, page)
    ensures at + |modules[m].lessons| == counter + |ModuleLessons(modules[..m + 1])|
  {
    var before, lessons := ModuleLessons(modules[..m]), modules[m].lessons;
    ModuleLessonsStep(modules, m);
    assert |before + lessons| == |before| + |lessons|;
    LessonFilesAppend(before, lessons, counter, page);
    var x, y := LessonFiles(before, counter, page), LessonFiles(lessons, at, page);
    assert LessonFiles(before + lessons, counter, page) == x + y;
    assert files + x + y == files + (x + y);
  }

  lemma DayFilesStep(files: seq<ZipFile>, days: seq<CurriculumDay>, d: nat, page: Lesson -> string, at: nat)
    requires d < |days| && at == |AllLessons(days[..d])|
    ensures files + LessonFiles(AllLessons(days[..d]), 0, page) + LessonFiles(ModuleLessons(days[d].modules), at, page)
         == files + LessonFiles(AllLessons(days[..d + 1]), 0, page)
    ensures at + |ModuleLessons(days[d].modules)| == |AllLessons(days[..d + 1])|
  {
    var before, lessons := AllLessons(days[..d]), ModuleLessons(days[d].modules);
    AllLessonsStep(days, d);
    assert |before + lessons| == |before| + |lessons|;
    LessonFilesAppend(before, lessons, 0, page);
    var x, y := LessonFiles(before, 0, page), LessonFiles(lessons, at, page);
    assert LessonFiles(before + lessons, 0, page) == x + y;
    assert files + x + y == files + (x + y);
  }

  lemma AllLessonsStep(days: seq<CurriculumDay>, d: nat)
    requires d < |days|
    ensures AllLessons(days[..d]) + ModuleLessons(days[d].modules) == AllLessons(days[..d + 1])
  {
    assert days[..d + 1][..d] == days[..d];
  }

  lemma ModuleLessonsStep(modules: seq<CourseModule>, m: nat)
    requires m < |modules|
    ensures ModuleLessons(modules[..m]) + modules[m].lessons == ModuleLessons(modules[..m + 1])
  {
    assert modules[..m + 1][..m] == modules[..m];
  }

  /** The module `forEach` of one day (utils/export.ts:243-249). */
  method AddDayFiles(files: seq<ZipFile>, counter: nat, d: CurriculumDay, page: Lesson -> string)
    returns (r: seq<ZipFile>, next: nat)
    ensures r == files + LessonFiles(ModuleLessons(d.modules), counter, page)
    ensures next == counter + |ModuleLessons(d.modules)|
  {
    r, next := files, counter;
    var modules := d.modules;
    for m := 0 to |modules|
      invariant next == counter + |ModuleLessons(modules[..m])|
      invariant r == files + LessonFiles(ModuleLessons(modules[..m]), counter, page)
    {
      ModuleFilesStep(files, modules, m, counter, page, next);
      r, next := AddModuleFiles(r, next, modules[m], page);
    }
    assert modules[..|modules|] == modules;
  }

  /** The lesson `forEach` of one module (utils/export.ts:244-248): each
      lesson takes the next number and its page is added under that
      number. */
  method AddModuleFiles(files: seq<ZipFile>, counter: nat, m: CourseModule, page: Lesson -> string)
    returns (r: seq<ZipFile>, next: nat)
    ensures r == files + LessonFiles(m.lessons, counter, page)
    ensures next == counter + |m.lessons|
  {
    r, next := files, counter;
    var lessons := m.lessons;
    for j := 0 to |lessons|
      invariant next == counter + j
      invariant r == files + LessonFiles(lessons[..j], counter, page)
    {
      next := next + 1;
      var lessonHtml := page(lessons[j]);
      assert lessons[..j + 1] == lessons[..j] + [lessons[j]];
      LessonFilesSnoc(lessons[..j], lessons[j], counter, page);
      r := r + [ZipFile(LessonHref(next), lessonHtml)];
    }
    assert lessons[..|lessons|] == lessons;
  }
}
