# factsheet: a verified model of the course-outline editor core

factsheet is a browser application that generates a course outline with an
AI model and then lets the user edit it. An outline is a course: title,
description, learning outcomes, key assignment, a curriculum of days,
modules and lessons, a market analysis, instructors, client leads and an
FAQ. Outlines are kept as projects in a list, and the one on screen has a
linear undo history. Edits reach the document in three ways:

- a whole top-level field is replaced;
- a string is written at a key/index path;
- an element of a nested list is moved by drag and drop.

The outline can be exported as Markdown, as a copy-to-clipboard text, or
as a SCORM 1.2 package. The package is a zip archive with an
`imsmanifest.xml` and one HTML page per lesson. Requests to the AI service
pass through a client-side sliding-window rate limiter.

This project models that core in Dafny, one module per source file:

| module | file | what it holds |
|---|---|---|
| `Base` | (helpers) | `Option`; JavaScript `trim`; `join` and `split`; integer printing |
| `Types` | types.ts | the entities as datatypes, and their JSON form |
| `Document` | App.tsx | the JSON value, path `get`/`set`, list move |
| `History` | hooks/useHistory.ts | the undo history, as a value (`Timeline`) and as a class |
| `Store` | App.tsx | the project store class and its handlers |
| `EditableField` | components/EditableField.tsx | the edit-commit state machine |
| `MindMap` | components/MindMapView.tsx | node paths, drag-and-drop guard, drop indicator |
| `CourseOutline` | components/CourseOutline.tsx | list edit, copy-text formatters, score colour |
| `GeneratorForm` | components/GeneratorForm.tsx | the form record, validity, submit |
| `RateLimiter` | services/geminiService.ts | the timestamp queue and the guard of each call |
| `XmlEscape` | utils/export.ts | `escapeXml` and its inverse |
| `Markdown` | utils/export.ts | `generateMarkdown` |
| `Scorm` | utils/export.ts | lesson page, manifest, archive files |

Code that changes state step by step is modelled as imperative Dafny:

- The history hook and the store are classes. Each method is specified by
  a pure function over the old state. For example,
  `UndoHistory.SetState` ensures `Model() == Commit(old(Model()), x, overwrite)`,
  and the lemmas about `Commit`, `UndoStep` and `RedoStep` carry the
  history's promises.
- The text builders are methods with `while` loops that append to a string,
  proved equal to a line-list function. These are `generateMarkdown`,
  `generateImsManifest`, `exportToScorm`, `formatCurriculum` and
  `formatMarketAnalysis`.
- The path walk of `handleUpdateNestedField` is a loop that descends the
  path and rebuilds the document, proved equal to the recursive `SetPath`.

## Model

| member | source | states |
|---|---|---|
| History.Fresh | hooks/useHistory.ts:5-6 | a new history holds only the initial state, with nothing to undo or redo |
| History.Commit | hooks/useHistory.ts:12-20 | every commit keeps the cursor inside a non-empty history |
| History.UndoStep | hooks/useHistory.ts:22-26 | undo never changes the stored states and keeps the cursor in bounds |
| History.RedoStep | hooks/useHistory.ts:28-32 | redo never changes the stored states and keeps the cursor in bounds |
| History.CommitSameIsIgnored | hooks/useHistory.ts:13-15 | committing the current state changes nothing, even with `overwrite` |
| History.CommitAppends | hooks/useHistory.ts:17-19 | a plain commit keeps the states up to the cursor, appends the new one and moves to it; the redo branch is gone, undo is possible |
| History.CommitOverwrites | hooks/useHistory.ts:17-19 | an overwriting commit of a different state leaves exactly that state, with nothing to undo or redo |
| History.UndoRedoMoves | hooks/useHistory.ts:22-32 | undo steps back only when `canUndo` and redo forward only when `canRedo`; otherwise each is a no-op |
| History.UndoRedoInverse | hooks/useHistory.ts:22-32 | undo then redo, and redo then undo, give back the same history whenever the first step could move |
| History.CommitUndoRedo | hooks/useHistory.ts:17-32 | after committing `x` over `s`, undo shows `s` and redo shows `x` again |
| History.BranchTruncation | hooks/useHistory.ts:17 | commit, undo, commit: the undone state is dropped for good |
| History.UndoHistory.constructor | hooks/useHistory.ts:5-6 | the hook starts as a fresh history of its initial state |
| History.UndoHistory.SetState | hooks/useHistory.ts:12-20 | the new history is the commit of the new state over the old one |
| History.UndoHistory.Undo | hooks/useHistory.ts:22-26 | the new history is one undo step from the old |
| History.UndoHistory.Redo | hooks/useHistory.ts:28-32 | the new history is one redo step from the old |
| History.UndoHistory.ClearHistory | hooks/useHistory.ts:34-37 | the history is reset to the initial state alone |
| Document.SetKeyFacts | App.tsx:124 | a one-key assignment succeeds exactly on a field of an object or an in-range index of an array; it stores the value there and keeps the container's kind |
| Document.SetPathDefined | App.tsx:119-124 | a path assignment succeeds exactly when every key but the last leads to an existing child and the last key is assignable |
| Document.GetAfterSet | App.tsx:119-124 | after a successful assignment, reading the path gives the assigned value |
| Document.SetLeavesOthers | App.tsx:119-124 | every path that leaves the assigned path before its end reads the same as before |
| Document.SetKeepsRootKind | App.tsx:119-126 | an assignment keeps the course an object |
| Document.SetAtLast | App.tsx:121-124 | assigning `prefix + [k]` replaces the node at `prefix` by that node with key `k` set |
| Document.GetAppend | App.tsx:121-123 | reading `p + q` is reading `q` from the node at `p` |
| Document.SetExisting | App.tsx:119-124 | assigning at a path that already exists always succeeds |
| Document.Resolve | App.tsx:134-137 | the walk loop ends at exactly the node the path reads |
| Document.AssignAtPath | App.tsx:119-124 | the walk-then-assign loop on a fresh copy gives exactly the recursive path assignment |
| Document.RemoveAt | App.tsx:140 | removing one element shortens the list by one, keeps the elements before it in place and shifts the ones after it down by one |
| Document.MoveFacts | App.tsx:140-141 | a move keeps the length and the multiset, puts the moved element at the target, and removing it from both lists gives the same list (the others keep their order) |
| Document.MoveToSelf | App.tsx:140-141 | moving an element onto its own index changes nothing |
| Document.MoveExample | App.tsx:140-141 | moving index 0 to 2 of `[A, B, C]` gives `[B, C, A]` |
| Document.ReorderFacts | App.tsx:135-145 | a reorder succeeds exactly when the path reads an array and both indices are in range; the list at the path is then the moved list and every diverging path is unchanged |
| Document.ReorderList | App.tsx:133-145 | the imperative walk, guard and double splice give exactly that reorder |
| Types.StrArr | types.ts:56 | a string list is stored as an array of the same strings in order |
| Types.CurriculumToJson | types.ts:58 | the curriculum is stored as an array with one day object per day, in order |
| Types.CourseFields | types.ts:53-63 | a stored course has exactly its nine fields, the outcome list and curriculum as arrays |
| Types.LeadDiscriminator | types.ts:7-23 | a stored lead has `expertiseSummary` exactly when it is a person |
| Types.LessonShape | types.ts:25-31 | a stored lesson has title and description, and each optional property exactly when the lesson has it |
| Store.IndexOfId | App.tsx:150 | `findIndex`: the first project with the id, or -1 exactly when none has it |
| Store.FindById | App.tsx:57 | `find`: a project from the list with the id, or none exactly when no project has it |
| Store.SaveIntoFacts | App.tsx:148-157 | saving keeps the list's length and ids, replaces the first project with the same id, and changes nothing when the id is absent |
| Store.WithoutId | App.tsx:174 | the filtered list holds exactly the projects with another id, and is the same list when the id is absent |
| Store.WithoutIdAppend | App.tsx:174 | filtering a concatenation filters each part and keeps them in order |
| Store.WithoutIdSingle | App.tsx:174 | a single project is kept exactly when its id differs |
| Store.WithoutIdFirst | App.tsx:174-178 | the first project left after a deletion is the first project of the old list with another id |
| Store.FieldEditFacts | App.tsx:109-114 | with a current project, one course field takes the value and every other field is kept; without one there is no edit |
| Store.NestedEditFacts | App.tsx:116-128 | a nested edit reads back the value at its path, leaves every diverging path unchanged and keeps the project id; without a project there is no edit |
| Store.ReorderEditFacts | App.tsx:130-146 | a reorder edit happens exactly when there is a project, the path reads an array and both indices are in range; the list is then moved |
| Store.LessonContentTarget | App.tsx:213-224 | generated content lands as one property of the addressed lesson, all other properties kept |
| Store.LoadResetsHistory | App.tsx:55-66 | loading a different project leaves it the only history entry |
| Store.ProjectStore.constructor | App.tsx:26-48 | the store starts from the saved projects and active id, with an empty history |
| Store.ProjectStore.CommitState | App.tsx:159-164 | a commit goes through the history, and a change of the state restarts the pending save |
| Store.ProjectStore.UpdateField | App.tsx:109-114 | the history commits the field edit when there is one and is unchanged otherwise; a change of the project on screen restarts the pending save |
| Store.ProjectStore.UpdateNestedField | App.tsx:116-128 | the history commits the nested edit when there is one and is unchanged otherwise; a change of the project on screen restarts the pending save |
| Store.ProjectStore.ReorderNestedList | App.tsx:130-146 | the history commits the reorder when it is allowed and is unchanged otherwise; a change of the project on screen restarts the pending save |
| Store.ProjectStore.ApplyLessonContent | App.tsx:218-224 | generated text is written through the nested edit at `[...path, contentType]`; a change of the project on screen restarts the pending save |
| Store.ProjectStore.AutoSave | App.tsx:148-157 | the current project is saved into the list, or the list is unchanged |
| Store.ProjectStore.SaveTimerFires | App.tsx:159-164 | when a save is pending it runs the auto-save and clears the flag |
| Store.ProjectStore.SelectProject | App.tsx:166-171 | the id becomes active and its project (or none) is committed with overwrite; a change of the project on screen restarts the pending save |
| Store.ProjectStore.DeleteProject | App.tsx:173-180 | every project with the id is removed; only a deleted active id moves to the first remaining project or to none |
| Store.ProjectStore.CreateNew | App.tsx:182-186 | no project is active and none is committed with overwrite; a change of the project on screen restarts the pending save |
| Store.ProjectStore.Generate | App.tsx:86-107 | a generated project is prepended, becomes active and is committed with overwrite, which restarts the pending save when the project on screen changes; a failure changes nothing, the pending save included |
| Store.ProjectStore.SyncActive | App.tsx:55-66 | the three cases of the effect: load the active project when it differs, activate the first project, or commit none; a change of the project on screen restarts the pending save |
| Store.ProjectStore.Undo | App.tsx:68-84 | Ctrl+Z takes one undo step of the history; a change of the project on screen restarts the pending save |
| Store.ProjectStore.Redo | App.tsx:68-84 | Ctrl+Y takes one redo step of the history; a change of the project on screen restarts the pending save |
| Base.TrimIgnoresPadding | components/EditableField.tsx:53 | JavaScript `trim` ignores surrounding whitespace |
| Base.TrimEmptyIffSpace | components/EditableField.tsx:77 | `trim` gives the empty string exactly for whitespace-only text |
| EditableField.HasValueIffNotBlank | components/EditableField.tsx:77 | the placeholder shows exactly when the value is blank |
| EditableField.PaddingNeverCommits | components/EditableField.tsx:52-55 | adding or removing surrounding whitespace is never saved |
| EditableField.BlankDraft | components/EditableField.tsx:52-55 | a blank draft is saved exactly when the value is not blank |
| EditableField.Editor.constructor | components/EditableField.tsx:16-19 | the field starts not editing, menu closed, draft equal to the value |
| EditableField.Editor.ReceiveValue | components/EditableField.tsx:23-25 | a changed value resets the draft to it; an unchanged one leaves the draft |
| EditableField.Editor.StartEditing | components/EditableField.tsx:105 | a click opens the editor |
| EditableField.Editor.Type | components/EditableField.tsx:85-86 | typing replaces the draft |
| EditableField.Editor.Save | components/EditableField.tsx:52-57 | the untrimmed draft is saved exactly when its trim differs from the value's; editing always ends |
| EditableField.Editor.KeyDown | components/EditableField.tsx:59-68 | Enter without Shift saves; Escape restores the draft and ends editing without saving; any other key does nothing |
| EditableField.Editor.ClickOutside | components/EditableField.tsx:37-44 | the menu closes, and an open editor saves |
| EditableField.Editor.ToggleRefineMenu | components/EditableField.tsx:113-116 | the menu flips open or closed |
| EditableField.Editor.MouseLeave | components/EditableField.tsx:107 | the menu closes |
| EditableField.Editor.RefineClick | components/EditableField.tsx:70-75 | with a handler, the field's path, the draft and the style are sent; the menu always closes |
| MindMap.NodePathsAddressTitles | components/MindMapView.tsx:23-50 | in a stored course the course, day, module and lesson node paths read the titles those nodes are built from, and `LessonPath` reads the lesson itself |
| MindMap.DropLast | components/MindMapView.tsx:176 | `slice(0, -1)` drops exactly the last key |
| MindMap.LessonEditTargetAsWritten | components/MindMapView.tsx:175-176 | as written, a lesson's title edit targets the whole lesson and its description edit targets the title |
| MindMap.LessonTitleEditReplacesLesson | components/MindMapView.tsx:175-176 | as written, saving a lesson title replaces the lesson by a bare string |
| MindMap.LessonDescriptionEditHitsTitle | components/MindMapView.tsx:175-176 | as written, saving a lesson description overwrites the title and keeps the old description |
| MindMap.IntendedLessonEdit | components/MindMapView.tsx:93-110 | with the corrected target an edit writes only the edited property of the lesson |
| MindMap.DaySaveShows | components/MindMapView.tsx:34 | a stored day node shows `Day n: ` and its title; saving a text from it succeeds and the node then shows `Day n: ` and that text |
| MindMap.DayEditDoublesPrefix | components/MindMapView.tsx:34 | as written, saving the node's text with the `Day n: ` prefix kept stores the prefix in the day's title, so the node then shows it twice |
| MindMap.IntendedDayEditRoundTrip | components/MindMapView.tsx:34 | with the prefix removed, the node shows exactly the typed text, and an unchanged node keeps its title |
| MindMap.IntendedDayEditStored | components/MindMapView.tsx:34 | with the prefix removed before the save, the node of a stored day shows exactly the typed text |
| MindMap.DragDropRoundTrip | components/MindMapView.tsx:124-151 | a drag payload of this column dropped on another index asks to move it there; a payload from another column is ignored |
| MindMap.DropTargetsOwnList | components/MindMapView.tsx:145-151 | a drop that goes through reorders this column's list between two different indices |
| MindMap.LessonColumn.constructor | components/MindMapView.tsx:121-122 | a column starts without a drop indicator |
| MindMap.LessonColumn.DragStart | components/MindMapView.tsx:124-130 | the payload is the index and the column's lesson list path |
| MindMap.LessonColumn.DragOver | components/MindMapView.tsx:132-135 | the indicator moves to the hovered lesson |
| MindMap.LessonColumn.DragLeave | components/MindMapView.tsx:137-139 | the indicator is cleared |
| MindMap.LessonColumn.Drop | components/MindMapView.tsx:141-155 | the indicator is cleared and the guarded reorder request is returned |
| CourseOutline.UpdateStringList | components/CourseOutline.tsx:68-72 | the new list has the same length, the value at the index and every other entry unchanged |
| CourseOutline.OutcomeEditsAgree | components/CourseOutline.tsx:130 | editing one outcome through the list update equals writing the string at `['learningOutcomes', index]` |
| CourseOutline.FormatListLines | components/CourseOutline.tsx:231 | the copied list splits back into one `- item` line per item, in order |
| CourseOutline.FormatFaqLayout | components/CourseOutline.tsx:240 | one `Q:`/`A:` pair per entry in order, with a blank line between entries |
| CourseOutline.FormatPeopleLayout | components/CourseOutline.tsx:232 | five lines per person in order, with a blank line between people |
| CourseOutline.FormatCompaniesLayout | components/CourseOutline.tsx:233-239 | five lines per lead in order, person and company layouts as in the source, with a blank line between leads |
| CourseOutline.FallbackFacts | components/CourseOutline.tsx:232-238 | a missing or empty text prints `N/A`; a company's reason falls back from `relevancyReason` to `reason` to `N/A` |
| CourseOutline.CompetitorLines | components/CourseOutline.tsx:244-246 | one line per competitor course, in order |
| CourseOutline.FormatMarketAnalysis | components/CourseOutline.tsx:241-248 | the loop's text is the pricing line, a blank line, the heading and one line per competitor, each ended by a newline |
| CourseOutline.FormatCurriculum | components/CourseOutline.tsx:249-262 | the nested loops' text is the day, module and lesson lines with a blank line after each day, trimmed |
| CourseOutline.AppendDay | components/CourseOutline.tsx:252-259 | one day adds its heading, its modules' lines and a blank line |
| CourseOutline.AppendModule | components/CourseOutline.tsx:254-257 | one module adds its line and one line per lesson |
| CourseOutline.CurriculumLinesEnds | components/CourseOutline.tsx:249-262 | a non-empty curriculum's text starts with the first day line and ends with a blank line |
| CourseOutline.FormatCurriculumShape | components/CourseOutline.tsx:261 | the trim drops only the final blank line and trailing whitespace, because the text starts with `Day` |
| CourseOutline.ColorMonotone | components/CourseOutline.tsx:569 | the colour rises with the score: green above 75, yellow above 50, red otherwise |
| CourseOutline.CompanyColorFacts | components/CourseOutline.tsx:614-615 | a company without a score is red; otherwise its colour is the person rule on its score |
| GeneratorForm.With | components/GeneratorForm.tsx:69-72 | setting one field changes that field and no other |
| GeneratorForm.DefaultFacts | components/GeneratorForm.tsx:57-67 | the initial form has the four preset choices, every other field empty, and is invalid |
| GeneratorForm.ValidityDependsOnRequiredOnly | components/GeneratorForm.tsx:85 | the form is valid exactly when topic, country and city are non-empty; other fields never change validity |
| GeneratorForm.Form.constructor | components/GeneratorForm.tsx:57-67 | the form starts at the defaults |
| GeneratorForm.Form.HandleChange | components/GeneratorForm.tsx:69-72 | only the named field changes |
| GeneratorForm.Form.HandleDurationChange | components/GeneratorForm.tsx:74-76 | only the duration changes |
| GeneratorForm.Form.HandleSubmit | components/GeneratorForm.tsx:78-83 | the form is submitted exactly when it is valid, which is when the button is enabled while not loading |
| RateLimiter.Expired | services/geminiService.ts:26-28 | the number of leading timestamps strictly before the window; the first one kept is inside it |
| RateLimiter.PruneQueue | services/geminiService.ts:26-28 | the `while`/`shift` loop drops only a prefix older than the window; a timestamp on the boundary is kept |
| RateLimiter.CheckFacts | services/geminiService.ts:22-37 | the check refuses exactly when 15 or more remain, keeping the pruned queue; otherwise it appends `now` |
| RateLimiter.CheckBounded | services/geminiService.ts:30-36 | the queue never holds more than 15 timestamps |
| RateLimiter.CheckKeepsSorted | services/geminiService.ts:26-36 | with a clock that never goes back the queue stays sorted |
| RateLimiter.WindowCount | services/geminiService.ts:22-37 | the pruned queue's length is the number of accepted requests inside the window, so the check allows exactly when fewer than 15 are |
| RateLimiter.PrunedInWindow | services/geminiService.ts:26-28 | in a sorted log every timestamp after the pruned prefix is inside the window |
| RateLimiter.CheckKeepsAccounted | services/geminiService.ts:16-36 | every check keeps the queue the in-window suffix of all accepted requests, and allows exactly when fewer than 15 of them are in the window |
| RateLimiter.Limiter.constructor | services/geminiService.ts:19 | the queue starts empty |
| RateLimiter.Limiter.CheckAt | services/geminiService.ts:22-37 | `check` updates the queue as the pure check does and allows exactly when fewer than 15 accepted requests fall in the window |
| RateLimiter.Limiter.Guard | services/geminiService.ts:104-106 | each exported call proceeds exactly when the check allows, and otherwise fails with the rate-limit message before any work |
| XmlEscape.EscapeChar | utils/export.ts:133-141 | the five reserved characters become entities starting with `&`, every other character is kept, and no output character is markup |
| XmlEscape.EscapeXmlHasNoMarkup | utils/export.ts:132-142 | escaped text holds none of `<`, `>`, `'` and `"` |
| XmlEscape.EscapeXmlIdentity | utils/export.ts:132-142 | escaping never shortens and leaves the text unchanged exactly when it has no reserved character |
| XmlEscape.EscapeXmlAppend | utils/export.ts:132-142 | escaping distributes over concatenation |
| XmlEscape.UnescapeEscape | utils/export.ts:132-142 | replacing the five entities in the escaped text gives back the original |
| XmlEscape.EscapeXmlInjective | utils/export.ts:132-142 | two texts escape the same exactly when they are equal |
| XmlEscape.EscapedHasNoTags | utils/export.ts:132-142 | escaped text opens no tag |
| Markdown.MapLines | utils/export.ts:26 | one line per element, in order |
| Markdown.GenerateMarkdown | utils/export.ts:21-64 | the `+=` text is the document's lines, each ended by a newline |
| Markdown.AddEach | utils/export.ts:26 | a `forEach` adds one line per element |
| Markdown.AddCurriculum | utils/export.ts:32-41 | the curriculum loop adds every day's lines in order |
| Markdown.AddDay | utils/export.ts:33-40 | a day adds its heading, its modules' lines and a blank line |
| Markdown.AddModule | utils/export.ts:35-38 | a module adds its heading and one line per lesson |
| Markdown.AddFaqs | utils/export.ts:57-61 | each FAQ adds its question heading, its answer and a blank line |
| Markdown.CurriculumBullets | utils/export.ts:32-41 | the curriculum's bullet lines are exactly one per lesson, in day, module, lesson order |
| Markdown.MarkdownBullets | utils/export.ts:21-64 | the bullet lines are exactly one per outcome, lesson, instructor and lead, in that order |
| Markdown.LeadLineShows | utils/export.ts:48-54 | a person lead shows its title like an instructor; a company lead shows `reason`, printed `undefined` when absent |
| Scorm.SectionGating | utils/export.ts:163-174 | a section is written exactly when its field is non-empty, and its body is the escaped field with no tag, unescaping to the field |
| Scorm.EmptyFieldRendersAsAbsent | utils/export.ts:163-174 | an empty optional field gives the same page as an absent one |
| Scorm.LessonHtmlTags | utils/export.ts:144-177 | a page opens the frame's tags plus four per present section, whatever the text: user text adds no tag |
| Scorm.Numbered | utils/export.ts:190-193 | one lesson item per lesson |
| Scorm.NumberedAt | utils/export.ts:190-193 | the i-th lesson item from `start` is numbered `start + i + 1` and titled by the lesson |
| Scorm.ItemsNumberLessons | utils/export.ts:183-198 | the manifest's lesson items are the course's lessons numbered 1 to n in day, module, lesson order |
| Scorm.ItemsNested | utils/export.ts:186-198 | day and module items open and close in balanced nesting, lessons inside modules inside days |
| Scorm.GenerateImsManifest | utils/export.ts:179-231 | the nested loops build exactly the manifest of the item and resource lists |
| Scorm.AddDayItems | utils/export.ts:186-198 | one day adds its item block and its lessons' resources and advances the counter by its lesson count |
| Scorm.AddModuleItems | utils/export.ts:188-196 | one module adds its item block and its lessons' resources and advances the counter by its lesson count |
| Scorm.WriteResource | utils/export.ts:194 | the next resource is appended and the counter advances by one |
| Scorm.LessonFiles | utils/export.ts:244-248 | one page file per lesson |
| Scorm.ArchiveNameFacts | utils/export.ts:253 | the archive name is the title with every space made an underscore, plus `_SCORM.zip` |
| Scorm.ArchiveFiles | utils/export.ts:238-250 | the archive holds the manifest first and then `lessons/lesson_k.html` for lesson k, from 1 to n |
| Scorm.ArchiveNamesDistinct | utils/export.ts:238-250 | no two files of the archive share a name |
| Scorm.LessonHrefInjective | utils/export.ts:192 | two lesson numbers give the same page name exactly when they are equal |
| Scorm.ManifestAgreesWithArchive | utils/export.ts:192-194 | lesson k's manifest item, its resource and the archive file named by its `href` all belong to the same lesson |
| Scorm.ResourcesPrefix | utils/export.ts:194 | the first k resources are a prefix of the full list, and resource k sits right after the first k-1 |
| Scorm.ExportToScorm | utils/export.ts:234-257 | the export writes exactly the package: the manifest and then every lesson page in order |
| Scorm.BuildArchive | utils/export.ts:241-250 | the counting loops write lesson pages 1 to n in day, module, lesson order |
| Scorm.AddDayFiles | utils/export.ts:243-249 | one day writes its lessons' pages and advances the counter by their number |
| Scorm.AddModuleFiles | utils/export.ts:244-248 | one module writes its lessons' pages and advances the counter by their number |

## Left out

- Rendering: the React components, their re-render timing and hooks
  scheduling. Each handler is a method on explicit state, and each effect
  is a method the caller runs.
- The network: the AI calls, prompts and parsing of replies. A generated
  outline or generated lesson content is a parameter.
- Clocks: `Date.now()`, the timestamp in ids and in the manifest identifier,
  and `createdAt` are parameters.
- Timers: the three-second auto-save timer is a pending-save flag. Each
  change of the project on screen, undo and redo included, sets it, and
  `SaveTimerFires` runs the save.
- Browser and library I/O: the file download, blobs, `localStorage`, the
  clipboard, the zip encoder, the PDF and spreadsheet libraries, and the
  event listeners. The SCORM package is the list of named files handed to
  the zip library.
- `Scorm.ExportToScorm`: returns the files of the package. Their download
  under `Scorm.ArchiveName`, and the error message on failure, are left out.
- `exportToTxt`, the JSON, PDF and spreadsheet exports, and the outreach
  modal are not part of this model.
- The Markdown title used as the file name is not modelled.
- Structural equality of Dafny values stands for the `JSON.stringify`
  comparison of the history hook. Key order is not modelled.
- `Document.SetPath`: an empty path, an assignment past an array's end
  (JavaScript would append or leave holes) and a field name on an array
  are errors. The store then commits nothing.
- `Document.Resolve`: reading a key of a string or number is an error
  (JavaScript would give `undefined`, and a reorder there is refused
  anyway).
- Numbers in `Json` are integers; no floating point is modelled.
- `Markdown.MarkdownBullets`: counts written lines. It requires that the
  description, the key assignment and every FAQ answer do not begin with
  `* `, because free text is written as one line even when it holds a
  newline.
- `RateLimiter.WindowCount`: takes as a requirement that every timestamp
  after the pruned prefix is in the window. `RateLimiter.PrunedInWindow`
  derives it from a sorted log, and `RateLimiter.CheckKeepsAccounted`
  carries it across calls.
- `RateLimiter.Limiter.CheckAt`: requires a clock that never goes back,
  which the source assumes of `Date.now()`.
- `Store.ProjectStore.Generate`: the loading message and the error text of
  a failed generation are not modelled.
- `CourseOutline.FormatListLines`: requires non-empty items without
  newlines, because only then does the text split back into its lines.
- The text-to-speech and audio decoding of the outline view are not part of
  this model.

## Findings

| source | as written | input that shows it | evidently intended | confidence | as-written member | corrected member |
|---|---|---|---|---|---|---|
| components/MindMapView.tsx:175-176 | a lesson node's path ends in `'title'`, and its update drops the last key of whatever path the node hands over; the title edit thus writes to the lesson itself, and the description edit to the title | a lesson `{title: "A", description: "B"}` at `['curriculum', 0, 'modules', 0, 'lessons', 0]`; saving the title as `"C"` makes the lesson the string `"C"`, and saving the description as `"D"` makes the title `"D"` | the title edit writes `title` and the description edit writes `description` of that lesson | high, not executed | MindMap.LessonTitleEditReplacesLesson, MindMap.LessonDescriptionEditHitsTitle | MindMap.IntendedLessonEdit |
| components/MindMapView.tsx:34 | the day node shows `Day n: title` and saves the edited text as the title | day 1 titled `"Intro"`; changing the text to `"Day 1: Intro!"` stores that as the title, and the node then shows `"Day 1: Day 1: Intro!"` | the shown prefix is removed before the title is stored | medium, not executed | MindMap.DayEditDoublesPrefix | MindMap.IntendedDayEditRoundTrip |
