/** The project store of App.tsx: the saved projects, the active project id
    and the undo history whose current entry is the project being edited. */
module Store {
  import opened Base
  import opened Document
  import opened Types
  import opened History

  /** What the history holds: the project on screen, or none. */
  type Snapshot = Option<Project>

  /** `projects.findIndex(p => p.id === id)` */
  function IndexOfId(projects: seq<Project>, id: string): (r: int)
    ensures -1 <= r < |projects|
    ensures r >= 0 ==> projects[r].id == id && forall j :: 0 <= j < r ==> projects[j].id != id
    ensures r == -1 <==> forall j :: 0 <= j < |projects| ==> projects[j].id != id
    decreases |projects|
  {
    if |projects| == 0 then -1
    else if projects[0].id == id then 0
    else
      var k := IndexOfId(projects[1..], id);
      if k == -1 then -1 else k + 1
  }

  /** `projects.find(p => p.id === id) || null` */
  function FindById(projects: seq<Project>, id: string): (r: Snapshot)
    ensures r.Some? ==> r.value in projects && r.value.id == id
    ensures r.None? <==> forall j :: 0 <= j < |projects| ==> projects[j].id != id
  {
    var k := IndexOfId(projects, id);
    if k == -1 then None else Some(projects[k])
  }

  /** `currentProject?.id` */
  function IdOf(s: Snapshot): Option<string> {
    if s.Some? then Some(s.value.id) else None
  }

  /** The collection `autoSave` writes (App.tsx:148-157): the first project
      with the same id is replaced by `p`; without one, nothing changes. */
  function SaveInto(projects: seq<Project>, p: Project): (r: seq<Project>)
  {
    var k := IndexOfId(projects, p.id);
    if k == -1 then projects else projects[k := p]
  }

  /** Saving keeps the length, the order and every id of the collection, and
      changes at most the first entry carrying the saved project's id. */
  lemma SaveIntoFacts(projects: seq<Project>, p: Project)
    ensures |SaveInto(projects, p)| == |projects|
    ensures forall i :: 0 <= i < |projects| ==> SaveInto(projects, p)[i].id == projects[i].id
    ensures forall i :: 0 <= i < |projects| ==>
      SaveInto(projects, p)[i] == (if i == IndexOfId(projects, p.id) then p else projects[i])
    ensures (forall i :: 0 <= i < |projects| ==> projects[i].id != p.id) ==> SaveInto(projects, p) == projects
  {
  }

  /** `projects.filter(p => p.id !== id)` */
  function WithoutId(projects: seq<Project>, id: string): (r: seq<Project>)
    ensures |r| <= |projects|
    ensures forall q :: q in r <==> q in projects && q.id != id
    ensures (forall j :: 0 <= j < |projects| ==> projects[j].id != id) ==> r == projects
    decreases |projects|
  {
    if projects == [] then []
    else
      var rest := WithoutId(projects[1..], id);
      if projects[0].id == id then rest else [projects[0]] + rest
  }

  /** Filtering distributes over concatenation, so the survivors keep their
      order and each occurrence is kept or dropped on its own. */
  lemma {:induction false} WithoutIdAppend(a: seq<Project>, b: seq<Project>, id: string)
    ensures WithoutId(a + b, id) == WithoutId(a, id) + WithoutId(b, id)
    decreases |a|
  {
    if a == [] {
      assert a + b == b;
    } else {
      assert (a + b)[1..] == a[1..] + b;
      WithoutIdAppend(a[1..], b, id);
    }
  }

  /** A single project survives exactly when its id differs. */
  lemma WithoutIdSingle(p: Project, id: string)
    ensures WithoutId([p], id) == if p.id == id then [] else [p]
  {
    assert [p][1..] == [];
  }

  /** The first project left after a deletion (the one App.tsx:177 makes
      active) is the first project of the old list with another id. */
  lemma {:induction false} WithoutIdFirst(projects: seq<Project>, id: string, k: nat)
    requires k < |projects| && projects[k].id != id
    requires forall j :: 0 <= j < k ==> projects[j].id == id
    ensures WithoutId(projects, id) != [] && WithoutId(projects, id)[0] == projects[k]
    decreases k
  {
    if k > 0 {
      WithoutIdFirst(projects[1..], id, k - 1);
    }
  }

  /** The project `handleUpdateField` commits (App.tsx:109-114), or None
      when no project is open. */
  function FieldEdit(s: Snapshot, field: string, value: Json): (r: Option<Snapshot>)
  {
    if s.None? then None
    else Some(Some(s.value.(course := s.value.course[field := value])))
  }

  /** Only the named course field changes; the project keeps its id, topic
      and creation time. */
  lemma FieldEditFacts(s: Snapshot, field: string, value: Json)
    ensures FieldEdit(s, field, value).Some? <==> s.Some?
    ensures s.Some? ==>
      var p, p' := s.value, FieldEdit(s, field, value).value.value;
      && p'.id == p.id && p'.topic == p.topic && p'.createdAt == p.createdAt
      && field in p'.course && p'.course[field] == value
      && (forall f :: f != field ==> (f in p'.course <==> f in p.course))
      && (forall f :: f != field && f in p.course ==> p'.course[f] == p.course[f])
  {
  }

  /** The project `handleUpdateNestedField` commits (App.tsx:116-128), or
      None when nothing is committed: no open project, an empty path, or a
      path the assignment cannot follow (the source throws). */
  function NestedEdit(s: Snapshot, path: Path, x: Json): (r: Option<Snapshot>)
  {
    if s.None? || path == [] then None
    else match SetPath(Obj(s.value.course), path, x)
      case Some(Obj(m)) => Some(Some(s.value.(course := m)))
      case _ => None
  }

  /** A nested edit commits exactly when the path can be assigned; the
      committed project keeps its id, topic and creation time, reads `x` at
      the path, and reads as before at every location off the path. */
  lemma NestedEditFacts(s: Snapshot, path: Path, x: Json, q: Path)
    ensures s.None? ==> NestedEdit(s, path, x).None?
    ensures s.Some? && path != [] ==>
      (NestedEdit(s, path, x).Some? <==> SetPath(Obj(s.value.course), path, x).Some?)
    ensures NestedEdit(s, path, x).Some? ==>
      var p, p' := s.value, NestedEdit(s, path, x).value.value;
      && p'.id == p.id && p'.topic == p.topic && p'.createdAt == p.createdAt
      && Get(Obj(p'.course), path) == Some(x)
      && (Diverge(path, q) ==> Get(Obj(p'.course), q) == Get(Obj(p.course), q))
  {
    if s.Some? && path != [] {
      var doc := Obj(s.value.course);
      if SetPath(doc, path, x).Some? {
        SetKeepsRootKind(doc, path, x);
        GetAfterSet(doc, path, x);
        if Diverge(path, q) {
          SetLeavesOthers(doc, path, x, q);
        }
      }
    }
  }

  /** The project `handleReorderNestedList` commits (App.tsx:130-146), or
      None when the guard at App.tsx:139 refuses. */
  function ReorderEdit(s: Snapshot, path: Path, from: int, to: int): (r: Option<Snapshot>)
  {
    if s.None? then None
    else match Reorder(Obj(s.value.course), path, from, to)
      case Some(Obj(m)) => Some(Some(s.value.(course := m)))
      case _ => None
  }

  /** A reorder commits exactly when an open project has a list at the path
      and both indices lie inside it; the list at the path is then the moved
      list. */
  lemma ReorderEditFacts(s: Snapshot, path: Path, from: int, to: int)
    ensures ReorderEdit(s, path, from, to).Some? <==>
      s.Some? && ReorderAllowed(Get(Obj(s.value.course), path), from, to)
    ensures ReorderEdit(s, path, from, to).Some? ==>
      var a := Get(Obj(s.value.course), path).value.items;
      var p' := ReorderEdit(s, path, from, to).value.value;
      p'.id == s.value.id && Get(Obj(p'.course), path) == Some(Arr(Move(a, from, to)))
  {
    if s.Some? {
      var doc := Obj(s.value.course);
      ReorderFacts(doc, path, from, to, []);
      if ReorderAllowed(Get(doc, path), from, to) && path != [] {
        SetExisting(doc, path, Arr(Move(Get(doc, path).value.items, from, to)));
        SetKeepsRootKind(doc, path, Arr(Move(Get(doc, path).value.items, from, to)));
      }
    }
  }

  /** The three kinds of generated lesson content (App.tsx:216). */
  datatype ContentKind = LectureNotes | KeyTalkingPoints | QuizQuestions {
    function Key(): string {
      match this
      case LectureNotes => "lectureNotes"
      case KeyTalkingPoints => "keyTalkingPoints"
      case QuizQuestions => "quizQuestions"
    }
  }

  /** Generated content is written at `[...lessonPath, contentType]`
      (App.tsx:224): the lesson object gains or replaces that one property
      and keeps every other. */
  lemma LessonContentTarget(s: Snapshot, lessonPath: Path, kind: ContentKind, content: string)
    requires s.Some?
    requires Get(Obj(s.value.course), lessonPath).Some? && Get(Obj(s.value.course), lessonPath).value.Obj?
    ensures NestedEdit(s, lessonPath + [Field(kind.Key())], Str(content)).Some?
    ensures
      var m := Get(Obj(s.value.course), lessonPath).value.fields;
      var p' := NestedEdit(s, lessonPath + [Field(kind.Key())], Str(content)).value.value;
      Get(Obj(p'.course), lessonPath) == Some(Obj(m[kind.Key() := Str(content)]))
  {
    var doc := Obj(s.value.course);
    var path := lessonPath + [Field(kind.Key())];
    assert path[..|path| - 1] == lessonPath;
    SetPathDefined(doc, path, Str(content));
    SetKeepsRootKind(doc, path, Str(content));
    SetAtLast(doc, lessonPath, Field(kind.Key()), Str(content));
  }

  /** Switching to a project other than the one on screen always leaves
      nothing to undo or redo. */
  lemma LoadResetsHistory(t: Timeline<Snapshot>, toLoad: Snapshot)
    requires t.Valid() && IdOf(t.Current()) != IdOf(toLoad)
    ensures var r := Commit(t, toLoad, true);
      r.Current() == toLoad && !r.CanUndo() && !r.CanRedo()
  {
    assert toLoad != t.Current();
    CommitOverwrites(t, toLoad);
  }

  class ProjectStore {
    /** The saved collection (`ai-course-projects`). */
    var projects: seq<Project>
    /** `ai-course-active-project` */
    var activeId: Option<string>
    /** The history of the project on screen. */
    const history: UndoHistory<Snapshot>
    /** A debounced save is scheduled and has not fired yet. */
    var savePending: bool

    ghost predicate Valid()
      reads this, history
    {
      history.Valid()
    }

    function Current(): Snapshot
      reads this, history
      requires Valid()
    {
      history.State()
    }

    /** The store as loaded at start-up, with nothing on screen yet. */
    constructor (saved: seq<Project>, savedActive: Option<string>)
      ensures Valid() && fresh(history)
      ensures projects == saved && activeId == savedActive && !savePending
      ensures history.Model() == Fresh(None)
    {
      projects := saved;
      activeId := savedActive;
      history := new UndoHistory<Snapshot>(None);
      savePending := false;
    }

    /** Commit through the history; a change of the project on screen
        restarts the auto-save delay (App.tsx:159-164). */
    method CommitState(s: Snapshot, overwrite: bool)
      requires Valid()
      modifies history, this`savePending
      ensures Valid()
      ensures history.Model() == History.Commit(old(history.Model()), s, overwrite)
      ensures savePending == (old(savePending) || history.State() != old(history.State()))
    {
      var before := history.State();
      history.SetState(s, overwrite);
      if history.State() != before {
        savePending := true;
      }
    }

    /** handleUpdateField (App.tsx:109-114) */
    method UpdateField(field: string, value: Json)
      requires Valid() && field in CourseKeys
      modifies history, this`savePending
      ensures Valid()
      ensures var e := FieldEdit(old(Current()), field, value);
        history.Model() == if e.Some? then History.Commit(old(history.Model()), e.value, false)
                           else old(history.Model())
      ensures savePending == (old(savePending) || history.State() != old(history.State()))
    {
      var current := Current();
      if current.None? {
        return;
      }
      var p := current.value;
      var updated := p.(course := p.course[field := value]);
      CommitState(Some(updated), false);
    }

    /** handleUpdateNestedField (App.tsx:116-128) */
    method UpdateNestedField(path: Path, value: string)
      requires Valid()
      modifies history, this`savePending
      ensures Valid()
      ensures var e := NestedEdit(old(Current()), path, Str(value));
        history.Model() == if e.Some? then History.Commit(old(history.Model()), e.value, false)
                           else old(history.Model())
      ensures savePending == (old(savePending) || history.State() != old(history.State()))
    {
      var current := Current();
      if current.None? || path == [] {
        return;
      }
      var p := current.value;
      var r := AssignAtPath(Obj(p.course), path, Str(value));
      if r.Some? && r.value.Obj? {
        CommitState(Some(p.(course := r.value.fields)), false);
      }
    }

    /** handleReorderNestedList (App.tsx:130-146) */
    method ReorderNestedList(path: Path, from: int, to: int)
      requires Valid()
      modifies history, this`savePending
      ensures Valid()
      ensures var e := ReorderEdit(old(Current()), path, from, to);
        history.Model() == if e.Some? then History.Commit(old(history.Model()), e.value, false)
                           else old(history.Model())
      ensures savePending == (old(savePending) || history.State() != old(history.State()))
    {
      var current := Current();
      if current.None? {
        return;
      }
      var p := current.value;
      var r := ReorderList(Obj(p.course), path, from, to);
      if r.Some? && r.value.Obj? {
        CommitState(Some(p.(course := r.value.fields)), false);
      }
    }

    /** The store part of handleGenerateLessonContent (App.tsx:218-224),
        once the generated text has arrived. */
    method ApplyLessonContent(lessonPath: Path, kind: ContentKind, content: string)
      requires Valid()
      modifies history, this`savePending
      ensures Valid()
      ensures var e := NestedEdit(old(Current()), lessonPath + [Field(kind.Key())], Str(content));
        history.Model() == if e.Some? then History.Commit(old(history.Model()), e.value, false)
                           else old(history.Model())
      ensures savePending == (old(savePending) || history.State() != old(history.State()))
    {
      if Current().None? {
        return;
      }
      UpdateNestedField(lessonPath + [Field(kind.Key())], content);
    }

    /** autoSave (App.tsx:148-157) */
    method AutoSave()
      requires Valid()
      modifies this`projects
      ensures Valid()
      ensures projects == if Current().Some? then SaveInto(old(projects), Current().value) else old(projects)
    {
      var current := Current();
      if current.Some? {
        var index := IndexOfId(projects, current.value.id);
        if index != -1 {
          projects := projects[index := current.value];
        }
      }
    }

    /** The debounce timer firing (App.tsx:159-164). */
    method SaveTimerFires()
      requires Valid()
      modifies this`projects, this`savePending
      ensures Valid() && !savePending
      ensures projects == if old(savePending) && Current().Some? then SaveInto(old(projects), Current().value)
                          else old(projects)
    {
      if savePending {
        AutoSave();
        savePending := false;
      }
    }

    /** handleSelectProject (App.tsx:166-171) */
    method SelectProject(id: string)
      requires Valid()
      modifies this`activeId, history, this`savePending
      ensures Valid() && activeId == Some(id)
      ensures history.Model() == History.Commit(old(history.Model()), FindById(projects, id), true)
      ensures savePending == (old(savePending) || history.State() != old(history.State()))
    {
      activeId := Some(id);
      var project := FindById(projects, id);
      CommitState(project, true);
    }

    /** handleDeleteProject (App.tsx:173-180) */
    method DeleteProject(id: string)
      modifies this`projects, this`activeId
      ensures projects == WithoutId(old(projects), id)
      ensures activeId == if old(activeId) == Some(id)
                          then (if projects != [] then Some(projects[0].id) else None)
                          else old(activeId)
    {
      var newProjects := WithoutId(projects, id);
      projects := newProjects;
      if activeId == Some(id) {
        activeId := if |newProjects| > 0 then Some(newProjects[0].id) else None;
      }
    }

    /** handleCreateNew (App.tsx:182-186) */
    method CreateNew()
      requires Valid()
      modifies this`activeId, history, this`savePending
      ensures Valid() && activeId == None
      ensures history.Model() == History.Commit(old(history.Model()), None, true)
      ensures savePending == (old(savePending) || history.State() != old(history.State()))
    {
      activeId := None;
      CommitState(None, true);
    }

    /** The store part of handleGenerate (App.tsx:86-107). `generated` is what
        the generator returned (None when it failed); `id` and `createdAt`
        stand for the clock readings of App.tsx:93 and 96. */
    method Generate(topic: string, generated: Option<Course>, id: string, createdAt: string)
      requires Valid()
      modifies this`projects, this`activeId, history, this`savePending
      ensures Valid()
      ensures generated.None? ==>
        projects == old(projects) && activeId == old(activeId) && history.Model() == old(history.Model())
      ensures generated.Some? ==>
        var p := Project(id, topic, CourseFields(generated.value), createdAt);
        && projects == [p] + old(projects)
        && activeId == Some(id)
        && history.Model() == History.Commit(old(history.Model()), Some(p), true)
      ensures generated.None? ==> savePending == old(savePending)
      ensures generated.Some? ==>
        savePending == (old(savePending) || history.State() != old(history.State()))
    {
      if generated.None? {
        return;
      }
      var newProject := Project(id, topic, CourseFields(generated.value), createdAt);
      projects := [newProject] + projects;
      activeId := Some(id);
      CommitState(Some(newProject), true);
    }

    /** The active-project effect (App.tsx:55-66). An empty id counts as no
        id, as it does in the source's truthiness test. */
    method SyncActive()
      requires Valid()
      modifies this`activeId, history, this`savePending
      ensures Valid() && projects == old(projects)
      ensures old(activeId).Some? && old(activeId).value != "" ==>
        var toLoad := FindById(projects, old(activeId).value);
        && activeId == old(activeId)
        && history.Model() == (if IdOf(old(Current())) != IdOf(toLoad)
                               then History.Commit(old(history.Model()), toLoad, true)
                               else old(history.Model()))
      ensures (old(activeId).None? || old(activeId).value == "") && |projects| > 0 ==>
        activeId == Some(projects[0].id) && history.Model() == old(history.Model())
      ensures (old(activeId).None? || old(activeId).value == "") && |projects| == 0 ==>
        activeId == old(activeId) && history.Model() == History.Commit(old(history.Model()), None, true)
      ensures savePending == (old(savePending) || history.State() != old(history.State()))
    {
      if activeId.Some? && activeId.value != "" {
        var toLoad := FindById(projects, activeId.value);
        if IdOf(Current()) != IdOf(toLoad) {
          CommitState(toLoad, true);
        }
      } else if |projects| > 0 {
        activeId := Some(projects[0].id);
      } else {
        CommitState(None, true);
      }
    }

    /** The undo shortcut and button (App.tsx:68-84). */
    method Undo()
      requires Valid()
      modifies history, this`savePending
      ensures Valid() && history.Model() == UndoStep(old(history.Model()))
      ensures savePending == (old(savePending) || history.State() != old(history.State()))
    {
      var before := history.State();
      history.Undo();
      if history.State() != before {
        savePending := true;
      }
    }

    /** The redo shortcut and button (App.tsx:68-84). */
    method Redo()
      requires Valid()
      modifies history, this`savePending
      ensures Valid() && history.Model() == RedoStep(old(history.Model()))
      ensures savePending == (old(savePending) || history.State() != old(history.State()))
    {
      var before := history.State();
      history.Redo();
      if history.State() != before {
        savePending := true;
      }
    }
  }
}
