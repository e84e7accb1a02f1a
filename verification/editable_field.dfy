/** The in-place text editor of components/EditableField.tsx: a draft that is
    committed through `onSave` only when it differs from the saved value once
    surrounding whitespace is ignored. */
module EditableField {
  import opened Base
  import opened Document

  /** The three rewrite styles the refine menu offers (EditableField.tsx:9). */
  datatype RefineStyle = Concise | Professional | Simple

  /** The arguments of one `onRefine` call. */
  datatype RefineRequest = RefineRequest(path: Path, content: string, style: RefineStyle)

  /** The commit test of `handleSave` (EditableField.tsx:53). */
  predicate ShouldCommit(draft: string, value: string) {
    Trim(draft) != Trim(value)
  }

  /** `hasValue` (EditableField.tsx:77): a non-empty value whose trimmed
      length is positive. */
  predicate HasValue(value: string) {
    value != "" && |Trim(value)| > 0
  }

  /** A value shows the placeholder exactly when it is blank. */
  lemma HasValueIffNotBlank(value: string)
    ensures HasValue(value) <==> !AllSpace(value)
  {
    TrimEmptyIffSpace(value);
  }

  /** Adding or removing whitespace around the value never commits. */
  lemma PaddingNeverCommits(w1: string, value: string, w2: string)
    requires AllSpace(w1) && AllSpace(w2)
    ensures !ShouldCommit(w1 + value + w2, value)
    ensures !ShouldCommit(value, w1 + value + w2)
  {
    TrimIgnoresPadding(w1, value, w2);
  }

  /** A blank draft over a blank value never commits; a blank draft over a
      value with text always does. */
  lemma BlankDraft(draft: string, value: string)
    requires AllSpace(draft)
    ensures ShouldCommit(draft, value) <==> !AllSpace(value)
  {
    TrimEmptyIffSpace(draft);
    TrimEmptyIffSpace(value);
  }

  class Editor {
    /** The `value` prop: the saved text. */
    var value: string
    /** `currentValue`: the draft in the text area. */
    var draft: string
    var isEditing: bool
    var isRefineMenuOpen: bool
    /** The `path` prop. */
    const path: Path
    /** Whether an `onRefine` handler was given. */
    const canRefine: bool

    constructor (initialValue: string, fieldPath: Path, refinable: bool)
      ensures value == initialValue && draft == initialValue
      ensures !isEditing && !isRefineMenuOpen
      ensures path == fieldPath && canRefine == refinable
    {
      value := initialValue;
      draft := initialValue;
      isEditing := false;
      isRefineMenuOpen := false;
      path := fieldPath;
      canRefine := refinable;
    }

    /** The parent re-renders with a new `value`; the effect at
        EditableField.tsx:23-25 resets the draft when it changed. */
    method ReceiveValue(newValue: string)
      modifies this`value, this`draft
      ensures value == newValue
      ensures draft == if newValue != old(value) then newValue else old(draft)
    {
      if newValue != value {
        draft := newValue;
      }
      value := newValue;
    }

    /** A click on the displayed text (EditableField.tsx:105). */
    method StartEditing()
      modifies this`isEditing
      ensures isEditing
    {
      isEditing := true;
    }

    /** Typing in the text area (EditableField.tsx:85-86). */
    method Type(text: string)
      modifies this`draft
      ensures draft == text
    {
      draft := text;
    }

    /** handleSave (EditableField.tsx:52-57): returns the argument of the
        `onSave` call, if one is made. */
    method Save() returns (saved: Option<string>)
      modifies this`isEditing
      ensures saved == if ShouldCommit(draft, value) then Some(draft) else None
      ensures !isEditing
    {
      saved := None;
      if Trim(draft) != Trim(value) {
        saved := Some(draft);
      }
      isEditing := false;
    }

    /** handleKeyDown (EditableField.tsx:59-68). */
    method KeyDown(key: string, shiftKey: bool) returns (saved: Option<string>)
      modifies this`isEditing, this`draft
      ensures key == "Enter" && !shiftKey ==>
        saved == (if ShouldCommit(old(draft), value) then Some(old(draft)) else None)
        && !isEditing && draft == old(draft)
      ensures key == "Escape" ==> saved == None && !isEditing && draft == value
      ensures (key != "Enter" || shiftKey) && key != "Escape" ==>
        saved == None && isEditing == old(isEditing) && draft == old(draft)
    {
      saved := None;
      if key == "Enter" && !shiftKey {
        saved := Save();
      } else if key == "Escape" {
        draft := value;
        isEditing := false;
      }
    }

    /** A mouse-down outside the field (EditableField.tsx:37-44). */
    method ClickOutside() returns (saved: Option<string>)
      modifies this`isEditing, this`isRefineMenuOpen
      ensures !isRefineMenuOpen && !isEditing
      ensures saved == if old(isEditing) && ShouldCommit(draft, value) then Some(draft) else None
    {
      isRefineMenuOpen := false;
      saved := None;
      if isEditing {
        saved := Save();
      }
    }

    /** The sparkle button (EditableField.tsx:113-116). */
    method ToggleRefineMenu()
      modifies this`isRefineMenuOpen
      ensures isRefineMenuOpen == !old(isRefineMenuOpen)
    {
      isRefineMenuOpen := !isRefineMenuOpen;
    }

    /** The pointer leaving the field (EditableField.tsx:107). */
    method MouseLeave()
      modifies this`isRefineMenuOpen
      ensures !isRefineMenuOpen
    {
      isRefineMenuOpen := false;
    }

    /** handleRefineClick (EditableField.tsx:70-75): returns the arguments of
        the `onRefine` call, if a handler was given. */
    method RefineClick(style: RefineStyle) returns (request: Option<RefineRequest>)
      modifies this`isRefineMenuOpen
      ensures request == if canRefine then Some(RefineRequest(path, draft, style)) else None
      ensures !isRefineMenuOpen
    {
      request := None;
      if canRefine {
        request := Some(RefineRequest(path, draft, style));
      }
      isRefineMenuOpen := false;
    }
  }
}
