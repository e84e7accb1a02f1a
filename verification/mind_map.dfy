/** The mind-map view of components/MindMapView.tsx: the document path each
    node edits, and the drag-and-drop reordering of a module's lessons. */
module MindMap {
  import opened Base
  import opened Document
  import opened Types

  // ---- Node paths ----

  /** The course node (MindMapView.tsx:23). */
  function CourseTitlePath(): Path {
    [Field("title")]
  }

  /** The node of day `d` (MindMapView.tsx:34). */
  function DayTitlePath(d: int): Path {
    [Field("curriculum"), Index(d), Field("title")]
  }

  /** `modulePath` of module `m` of day `d` (MindMapView.tsx:50). */
  function ModulePath(d: int, m: int): Path {
    [Field("curriculum"), Index(d), Field("modules"), Index(m)]
  }

  /** The node of a module (MindMapView.tsx:44). */
  function ModuleTitlePath(d: int, m: int): Path {
    ModulePath(d, m) + [Field("title")]
  }

  /** The lesson list of a module: the drag payload's path (MindMapView.tsx:128). */
  function LessonListPath(modulePath: Path): Path {
    modulePath + [Field("lessons")]
  }

  /** Lesson `i` of a module. */
  function LessonPath(modulePath: Path, i: int): Path {
    LessonListPath(modulePath) + [Index(i)]
  }

  /** The `path` a lesson node is given (MindMapView.tsx:175). */
  function LessonNodePath(modulePath: Path, i: int): Path {
    LessonPath(modulePath, i) + [Field("title")]
  }

  /** The lesson of a typed course at day `d`, module `m`, position `i`. */
  function LessonOf(c: Course, d: nat, m: nat, i: nat): Lesson
    requires d < |c.curriculum| && m < |c.curriculum[d].modules| && i < |c.curriculum[d].modules[m].lessons|
  {
    c.curriculum[d].modules[m].lessons[i]
  }

  /** In a stored course, every node path leads to the text its node shows:
      the course, day and module nodes to their titles, a lesson node to its
      lesson's title, and `LessonPath` to the lesson itself. */
  lemma NodePathsAddressTitles(c: Course, d: nat, m: nat, i: nat)
    requires d < |c.curriculum| && m < |c.curriculum[d].modules| && i < |c.curriculum[d].modules[m].lessons|
    ensures Get(Obj(CourseFields(c)), CourseTitlePath()) == Some(Str(c.title))
    ensures Get(Obj(CourseFields(c)), DayTitlePath(d)) == Some(Str(c.curriculum[d].title))
    ensures Get(Obj(CourseFields(c)), ModuleTitlePath(d, m)) == Some(Str(c.curriculum[d].modules[m].title))
    ensures Get(Obj(CourseFields(c)), LessonPath(ModulePath(d, m), i)) == Some(LessonToJson(LessonOf(c, d, m, i)))
    ensures Get(Obj(CourseFields(c)), LessonNodePath(ModulePath(d, m), i)) == Some(Str(LessonOf(c, d, m, i).title))
  {
    assert Get(Obj(CourseFields(c)), [Field("title")]) == Some(Str(c.title));
    DayTitleAt(c, d);
    ModuleTitleAt(c, d, m);
    LessonAt(c, d, m, i);
  }

  lemma DayTitleAt(c: Course, d: nat)
    requires d < |c.curriculum|
    ensures Get(Obj(CourseFields(c)), DayTitlePath(d)) == Some(Str(c.curriculum[d].title))
  {
    var day := c.curriculum[d];
    DayNodeAt(c, d);
    assert Get(DayToJson(day), [Field("title")]) == Some(Str(day.title));
    GetAppend(Obj(CourseFields(c)), [Field("curriculum"), Index(d)], [Field("title")]);
    assert [Field("curriculum"), Index(d)] + [Field("title")] == DayTitlePath(d);
  }

  lemma ModuleTitleAt(c: Course, d: nat, m: nat)
    requires d < |c.curriculum| && m < |c.curriculum[d].modules|
    ensures Get(Obj(CourseFields(c)), ModuleTitlePath(d, m)) == Some(Str(c.curriculum[d].modules[m].title))
  {
    var mod := c.curriculum[d].modules[m];
    ModuleNodeAt(c, d, m);
    assert Get(ModuleToJson(mod), [Field("title")]) == Some(Str(mod.title));
    GetAppend(Obj(CourseFields(c)), ModulePath(d, m), [Field("title")]);
  }

  lemma LessonAt(c: Course, d: nat, m: nat, i: nat)
    requires d < |c.curriculum| && m < |c.curriculum[d].modules| && i < |c.curriculum[d].modules[m].lessons|
    ensures Get(Obj(CourseFields(c)), LessonPath(ModulePath(d, m), i)) == Some(LessonToJson(LessonOf(c, d, m, i)))
    ensures Get(Obj(CourseFields(c)), LessonNodePath(ModulePath(d, m), i)) == Some(Str(LessonOf(c, d, m, i).title))
  {
    var lesson := LessonOf(c, d, m, i);
    LessonNodeAt(c, d, m, i);
    assert Get(LessonToJson(lesson), [Field("title")]) == Some(Str(lesson.title));
    GetAppend(Obj(CourseFields(c)), LessonPath(ModulePath(d, m), i), [Field("title")]);
  }

  /** The lesson node's object sits at `LessonPath(ModulePath(d, m), i)`. */
  lemma LessonNodeAt(c: Course, d: nat, m: nat, i: nat)
    requires d < |c.curriculum| && m < |c.curriculum[d].modules| && i < |c.curriculum[d].modules[m].lessons|
    ensures Get(Obj(CourseFields(c)), LessonPath(ModulePath(d, m), i)) == Some(LessonToJson(LessonOf(c, d, m, i)))
  {
    var mod := c.curriculum[d].modules[m];
    var modPath := ModulePath(d, m);
    ModuleNodeAt(c, d, m);
    GetTwo(ModuleToJson(mod), Field("lessons"), Index(i));
    GetAppend(Obj(CourseFields(c)), modPath, [Field("lessons"), Index(i)]);
    assert modPath + [Field("lessons"), Index(i)] == LessonPath(modPath, i);
  }

  /** The day node's object sits at `curriculum[d]`. */
  lemma DayNodeAt(c: Course, d: nat)
    requires d < |c.curriculum|
    ensures Get(Obj(CourseFields(c)), [Field("curriculum"), Index(d)]) == Some(DayToJson(c.curriculum[d]))
  {
    GetTwo(Obj(CourseFields(c)), Field("curriculum"), Index(d));
  }

  /** The module node's object sits at `ModulePath(d, m)`. */
  lemma ModuleNodeAt(c: Course, d: nat, m: nat)
    requires d < |c.curriculum| && m < |c.curriculum[d].modules|
    ensures Get(Obj(CourseFields(c)), ModulePath(d, m)) == Some(ModuleToJson(c.curriculum[d].modules[m]))
  {
    var dayPath := [Field("curriculum"), Index(d)];
    var dayJson := DayToJson(c.curriculum[d]);
    DayNodeAt(c, d);
    GetTwo(dayJson, Field("modules"), Index(m));
    GetAppend(Obj(CourseFields(c)), dayPath, [Field("modules"), Index(m)]);
    assert dayPath + [Field("modules"), Index(m)] == ModulePath(d, m);
  }

  lemma GetTwo(v: Json, k1: Key, k2: Key)
    ensures Get(v, [k1, k2]) == if Child(v, k1).Some? then Child(Child(v, k1).value, k2) else None
  {
    assert [k1, k2][1..] == [k2];
    if Child(v, k1).Some? {
      GetOne(Child(v, k1).value, k2);
    }
  }

  lemma GetOne(v: Json, k: Key)
    ensures Get(v, [k]) == Child(v, k)
  {
    assert [k][1..] == [];
  }

  // ---- Where an edit is written ----

  /** The two editable texts of a node (MindMapView.tsx:93-110). */
  datatype NodeText = TitleText | DescriptionText

  /** The path a node hands to `onUpdate` (MindMapView.tsx:95, 104). */
  function NodeSavePath(nodePath: Path, t: NodeText): Path {
    match t
    case TitleText => nodePath
    case DescriptionText => nodePath + [Field("description")]
  }

  /** `path.slice(0, -1)` */
  function DropLast(p: Path): (r: Path)
    ensures |p| >= 1 ==> r + [p[|p| - 1]] == p
  {
    if p == [] then [] else p[..|p| - 1]
  }

  /** Where a lesson node's edit is written, as MindMapView.tsx:175-176 has
      it: the node's save path with its last key cut off. */
  function LessonEditTarget(modulePath: Path, i: int, t: NodeText): Path {
    DropLast(NodeSavePath(LessonNodePath(modulePath, i), t))
  }

  /** As written, a lesson title edit addresses the whole lesson and a lesson
      description edit addresses the lesson's title. */
  lemma LessonEditTargetAsWritten(modulePath: Path, i: int)
    ensures LessonEditTarget(modulePath, i, TitleText) == LessonPath(modulePath, i)
    ensures LessonEditTarget(modulePath, i, DescriptionText) == LessonNodePath(modulePath, i)
  {
    var n := LessonNodePath(modulePath, i);
    assert DropLast(n) == LessonPath(modulePath, i);
    assert DropLast(n + [Field("description")]) == n;
  }

  /** Committing a lesson title edit as written replaces the lesson object by
      the bare text: its title and description are gone. */
  lemma LessonTitleEditReplacesLesson(doc: Json, modulePath: Path, i: int, text: string)
    requires Get(doc, LessonPath(modulePath, i)).Some? && Get(doc, LessonPath(modulePath, i)).value.Obj?
    ensures var r := SetPath(doc, LessonEditTarget(modulePath, i, TitleText), Str(text));
      && r.Some?
      && Get(r.value, LessonPath(modulePath, i)) == Some(Str(text))
      && Get(r.value, LessonPath(modulePath, i) + [Field("title")]) == None
      && Get(r.value, LessonPath(modulePath, i) + [Field("description")]) == None
  {
    var lp := LessonPath(modulePath, i);
    LessonEditTargetAsWritten(modulePath, i);
    SetExisting(doc, lp, Str(text));
    var r := SetPath(doc, lp, Str(text)).value;
    GetAfterSet(doc, lp, Str(text));
    GetAppend(r, lp, [Field("title")]);
    GetAppend(r, lp, [Field("description")]);
  }

  /** Committing a lesson description edit as written overwrites the title
      with the new description and leaves the description as it was. */
  lemma LessonDescriptionEditHitsTitle(doc: Json, modulePath: Path, i: int, text: string)
    requires Get(doc, LessonPath(modulePath, i)).Some? && Get(doc, LessonPath(modulePath, i)).value.Obj?
    ensures var r := SetPath(doc, LessonEditTarget(modulePath, i, DescriptionText), Str(text));
      var lesson := Get(doc, LessonPath(modulePath, i)).value.fields;
      && r.Some?
      && Get(r.value, LessonPath(modulePath, i)) == Some(Obj(lesson["title" := Str(text)]))
      && Get(r.value, LessonPath(modulePath, i) + [Field("description")])
         == Get(doc, LessonPath(modulePath, i) + [Field("description")])
  {
    var lp := LessonPath(modulePath, i);
    LessonEditTargetAsWritten(modulePath, i);
    SetAtLast(doc, lp, Field("title"), Str(text));
    var r := SetPath(doc, lp + [Field("title")], Str(text)).value;
    GetAppend(r, lp, [Field("description")]);
    GetAppend(doc, lp, [Field("description")]);
  }

  /** Where a lesson node's edit is evidently meant to go: its own property
      of the lesson. */
  function IntendedLessonEditTarget(modulePath: Path, i: int, t: NodeText): Path {
    match t
    case TitleText => LessonPath(modulePath, i) + [Field("title")]
    case DescriptionText => LessonPath(modulePath, i) + [Field("description")]
  }

  function TextKey(t: NodeText): string {
    match t
    case TitleText => "title"
    case DescriptionText => "description"
  }

  /** With the intended targets an edit always succeeds on an existing lesson,
      writes only the edited property, and keeps every other property. */
  lemma IntendedLessonEdit(doc: Json, modulePath: Path, i: int, t: NodeText, text: string)
    requires Get(doc, LessonPath(modulePath, i)).Some? && Get(doc, LessonPath(modulePath, i)).value.Obj?
    ensures var r := SetPath(doc, IntendedLessonEditTarget(modulePath, i, t), Str(text));
      var lesson := Get(doc, LessonPath(modulePath, i)).value.fields;
      && r.Some?
      && Get(r.value, LessonPath(modulePath, i)) == Some(Obj(lesson[TextKey(t) := Str(text)]))
  {
    SetAtLast(doc, LessonPath(modulePath, i), Field(TextKey(t)), Str(text));
  }

  /** The text of a day node (MindMapView.tsx:34). */
  function DayNodeText(day: CurriculumDay): string {
    DayPrefix(day) + day.title
  }

  function DayPrefix(day: CurriculumDay): string {
    DayLabel(day.day)
  }

  function DayLabel(n: int): string {
    "Day " + IntToString(n) + ": "
  }

  /** The text the node of day `d` shows, read from the stored document:
      its `day` number and its `title` (MindMapView.tsx:34). */
  function DayNodeTextAt(doc: Json, d: int): Option<string> {
    var n := Get(doc, [Field("curriculum"), Index(d), Field("day")]);
    var t := Get(doc, DayTitlePath(d));
    if n.Some? && n.value.Num? && t.Some? && t.value.Str? then Some(DayLabel(n.value.n) + t.value.s)
    else None
  }

  /** Saving `title` from the node of day `d` of a stored course succeeds,
      and the node then shows the day's own label followed by `title`. */
  lemma DaySaveShows(c: Course, d: nat, title: string)
    requires d < |c.curriculum|
    ensures var doc := Obj(CourseFields(c));
      var saved := SetPath(doc, NodeSavePath(DayTitlePath(d), TitleText), Str(title));
      && DayNodeTextAt(doc, d) == Some(DayNodeText(c.curriculum[d]))
      && saved.Some?
      && DayNodeTextAt(saved.value, d) == Some(DayPrefix(c.curriculum[d]) + title)
  {
    var doc := Obj(CourseFields(c));
    var day := c.curriculum[d];
    var path := DayTitlePath(d);
    var dayPath := [Field("curriculum"), Index(d)];
    var numPath := dayPath + [Field("day")];
    assert numPath == [Field("curriculum"), Index(d), Field("day")];
    assert NodeSavePath(path, TitleText) == path;
    DayTitleAt(c, d);
    DayNodeAt(c, d);
    GetOne(DayToJson(day), Field("day"));
    GetAppend(doc, dayPath, [Field("day")]);
    assert Get(doc, numPath) == Some(Num(day.day));
    assert DayNodeTextAt(doc, d) == Some(DayLabel(day.day) + day.title);
    SetExisting(doc, path, Str(title));
    var w := SetPath(doc, path, Str(title)).value;
    GetAfterSet(doc, path, Str(title));
    assert path[..2] == numPath[..2] && path[2] != numPath[2];
    SetLeavesOthers(doc, path, Str(title), numPath);
    assert Get(w, numPath) == Some(Num(day.day));
    assert DayNodeTextAt(w, d) == Some(DayLabel(day.day) + title);
  }

  /** As written, the node's whole text is stored as the day title
      (MindMapView.tsx:34, 95): keeping the prefix while editing the node of
      a stored day stores the prefix in the title, and the node then shows
      it twice. */
  lemma DayEditDoublesPrefix(c: Course, d: nat, newText: string)
    requires d < |c.curriculum|
    ensures var day := c.curriculum[d];
      var saved := SetPath(Obj(CourseFields(c)), NodeSavePath(DayTitlePath(d), TitleText), Str(DayPrefix(day) + newText));
      && saved.Some?
      && Get(saved.value, DayTitlePath(d)) == Some(Str(DayPrefix(day) + newText))
      && DayNodeTextAt(saved.value, d) == Some(DayPrefix(day) + DayPrefix(day) + newText)
  {
    var day := c.curriculum[d];
    var title := DayPrefix(day) + newText;
    DaySaveShows(c, d, title);
    GetAfterSet(Obj(CourseFields(c)), DayTitlePath(d), Str(title));
    assert DayPrefix(day) + title == DayPrefix(day) + DayPrefix(day) + newText;
  }

  /** The title evidently meant to be stored from an edited day node: the
      text with the node's own prefix removed when it is still there. */
  function IntendedDayTitle(day: CurriculumDay, text: string): string {
    var prefix := DayPrefix(day);
    if StartsWith(text, prefix) then text[|prefix|..] else text
  }

  /** With the prefix removed, the node shows exactly the text that was
      typed, and an unchanged node stores its title unchanged. */
  lemma IntendedDayEditRoundTrip(day: CurriculumDay, newTitle: string)
    ensures DayNodeText(day.(title := IntendedDayTitle(day, DayPrefix(day) + newTitle)))
            == DayPrefix(day) + newTitle
    ensures IntendedDayTitle(day, DayNodeText(day)) == day.title
  {
    var prefix := DayPrefix(day);
    assert StartsWith(prefix + newTitle, prefix) by {
      assert (prefix + newTitle)[..|prefix|] == prefix;
    }
    assert (prefix + newTitle)[|prefix|..] == newTitle;
    assert StartsWith(prefix + day.title, prefix) by {
      assert (prefix + day.title)[..|prefix|] == prefix;
    }
    assert (prefix + day.title)[|prefix|..] == day.title;
  }

  /** With the prefix removed before saving, the node of a stored day shows
      exactly the text that was typed. */
  lemma IntendedDayEditStored(c: Course, d: nat, newText: string)
    requires d < |c.curriculum|
    ensures var day := c.curriculum[d];
      var saved := SetPath(Obj(CourseFields(c)), NodeSavePath(DayTitlePath(d), TitleText),
                           Str(IntendedDayTitle(day, DayPrefix(day) + newText)));
      && saved.Some?
      && DayNodeTextAt(saved.value, d) == Some(DayPrefix(day) + newText)
  {
    var day := c.curriculum[d];
    IntendedDayEditRoundTrip(day, newText);
    DaySaveShows(c, d, IntendedDayTitle(day, DayPrefix(day) + newText));
  }

  // ---- Drag and drop of lessons ----

  /** The parsed `application/json` drag data (MindMapView.tsx:126-129). */
  datatype DragData = DragData(index: int, path: Path)

  /** The arguments of one `onReorderNestedList` call. */
  datatype ReorderRequest = ReorderRequest(path: Path, from: int, to: int)

  /** The payload a lesson of this column carries (MindMapView.tsx:124-130). */
  function DragPayload(modulePath: Path, index: int): DragData {
    DragData(index, LessonListPath(modulePath))
  }

  /** The guard of handleDrop (MindMapView.tsx:145-151). `data` is None when
      the drag data does not parse, which the source catches. */
  function DropRequest(modulePath: Path, data: Option<DragData>, dropIndex: int): Option<ReorderRequest> {
    if data.Some? && data.value.path == LessonListPath(modulePath) && data.value.index != dropIndex
    then Some(ReorderRequest(data.value.path, data.value.index, dropIndex))
    else None
  }

  /** Dragging lesson `i` of a column onto lesson `j` of the same column asks
      to move `i` to `j` in that column's list exactly when `i != j`; a lesson
      dragged from any other module is ignored. */
  lemma DragDropRoundTrip(modulePath: Path, other: Path, i: int, j: int)
    requires other != modulePath
    ensures DropRequest(modulePath, Some(DragPayload(modulePath, i)), j) ==
      if i != j then Some(ReorderRequest(LessonListPath(modulePath), i, j)) else None
    ensures DropRequest(modulePath, Some(DragPayload(other, i)), j) == None
  {
    assert LessonListPath(other)[..|other|] == other;
    assert LessonListPath(modulePath)[..|modulePath|] == modulePath;
  }

  /** A drop that goes through always reorders the column's own lesson list
      between two different positions. */
  lemma DropTargetsOwnList(modulePath: Path, data: Option<DragData>, dropIndex: int)
    ensures var r := DropRequest(modulePath, data, dropIndex);
      r.Some? ==> r.value.path == LessonListPath(modulePath) && r.value.from != r.value.to
                  && r.value.to == dropIndex
  {
  }

  /** A module's lesson column with its drop indicator (MindMapView.tsx:121-155). */
  class LessonColumn {
    const modulePath: Path
    /** `dragOverIndex` (MindMapView.tsx:122). */
    var dragOverIndex: Option<int>

    constructor (path: Path)
      ensures modulePath == path && dragOverIndex == None
    {
      modulePath := path;
      dragOverIndex := None;
    }

    /** handleDragStart (MindMapView.tsx:124-130) */
    method DragStart(index: int) returns (payload: DragData)
      ensures payload == DragPayload(modulePath, index)
    {
      payload := DragData(index, modulePath + [Field("lessons")]);
    }

    /** handleDragOver (MindMapView.tsx:132-135) */
    method DragOver(index: int)
      modifies this
      ensures dragOverIndex == Some(index)
    {
      dragOverIndex := Some(index);
    }

    /** handleDragLeave (MindMapView.tsx:137-139) */
    method DragLeave()
      modifies this
      ensures dragOverIndex == None
    {
      dragOverIndex := None;
    }

    /** handleDrop (MindMapView.tsx:141-155): clears the indicator and returns
        the reorder it asks for, if any. */
    method Drop(data: Option<DragData>, dropIndex: int) returns (request: Option<ReorderRequest>)
      modifies this
      ensures dragOverIndex == None
      ensures request == DropRequest(modulePath, data, dropIndex)
    {
      dragOverIndex := None;
      request := None;
      if data.Some? {
        var currentPath := modulePath + [Field("lessons")];
        if data.value.path == currentPath && data.value.index != dropIndex {
          request := Some(ReorderRequest(data.value.path, data.value.index, dropIndex));
        }
      }
    }
  }
}
