/** The linear undo/redo history of hooks/useHistory.ts: a list of snapshots
    and a cursor naming the current one. */
module History {

  /** What the hook holds: `history` and `currentIndex`. */
  datatype Timeline<T> = Timeline(entries: seq<T>, cursor: nat) {
    /** The history is never empty and the cursor stays inside it. */
    predicate Valid() {
      |entries| >= 1 && cursor < |entries|
    }

    /** `state` (hooks/useHistory.ts:8) */
    function Current(): T
      requires Valid()
    {
      entries[cursor]
    }

    /** hooks/useHistory.ts:9 */
    predicate CanUndo() {
      cursor > 0
    }

    /** hooks/useHistory.ts:10 */
    predicate CanRedo() {
      cursor + 1 < |entries|
    }
  }

  /** A history holding only `s`. */
  function Fresh<T>(s: T): (r: Timeline<T>)
    ensures r.Valid() && r.Current() == s && !r.CanUndo() && !r.CanRedo()
  {
    Timeline([s], 0)
  }

  /** `setState(x, overwrite)` (hooks/useHistory.ts:12-20). The equality test
      comes first, so even an overwrite with the current state is dropped. */
  function Commit<T(==)>(t: Timeline<T>, x: T, overwrite: bool): (r: Timeline<T>)
    requires t.Valid()
    ensures r.Valid()
  {
    if x == t.Current() then t
    else
      var entries := if overwrite then [x] else t.entries[..t.cursor + 1] + [x];
      Timeline(entries, |entries| - 1)
  }

  /** hooks/useHistory.ts:22-26 */
  function UndoStep<T>(t: Timeline<T>): (r: Timeline<T>)
    requires t.Valid()
    ensures r.Valid() && r.entries == t.entries
  {
    if t.CanUndo() then Timeline(t.entries, t.cursor - 1) else t
  }

  /** hooks/useHistory.ts:28-32 */
  function RedoStep<T>(t: Timeline<T>): (r: Timeline<T>)
    requires t.Valid()
    ensures r.Valid() && r.entries == t.entries
  {
    if t.CanRedo() then Timeline(t.entries, t.cursor + 1) else t
  }

  /** Committing the current state again changes nothing, with or without
      `overwrite`. */
  lemma CommitSameIsIgnored<T>(t: Timeline<T>, x: T, overwrite: bool)
    requires t.Valid() && x == t.Current()
    ensures Commit(t, x, overwrite) == t
  {
  }

  /** A new state is appended after the current one; what followed the
      cursor (the redo branch) is dropped, what preceded it is kept, and the
      new state is current with nothing to redo. */
  lemma CommitAppends<T>(t: Timeline<T>, x: T)
    requires t.Valid() && x != t.Current()
    ensures var r := Commit(t, x, false);
      && r.entries == t.entries[..t.cursor + 1] + [x]
      && r.cursor == t.cursor + 1 == |r.entries| - 1
      && r.Current() == x
      && r.CanUndo() && !r.CanRedo()
      && (forall k :: 0 <= k <= t.cursor ==> r.entries[k] == t.entries[k])
  {
  }

  /** A new state committed with `overwrite` becomes the whole history. */
  lemma CommitOverwrites<T>(t: Timeline<T>, x: T)
    requires t.Valid() && x != t.Current()
    ensures Commit(t, x, true) == Fresh(x)
  {
  }

  /** Undo moves back exactly when there is something before the cursor;
      otherwise it is a no-op. Redo is the mirror image. */
  lemma UndoRedoMoves<T>(t: Timeline<T>)
    requires t.Valid()
    ensures t.CanUndo() ==> UndoStep(t).cursor == t.cursor - 1
    ensures !t.CanUndo() ==> UndoStep(t) == t
    ensures t.CanRedo() ==> RedoStep(t).cursor == t.cursor + 1
    ensures !t.CanRedo() ==> RedoStep(t) == t
  {
  }

  /** Undo then redo, or redo then undo, returns to where it started. */
  lemma UndoRedoInverse<T>(t: Timeline<T>)
    requires t.Valid()
    ensures t.CanUndo() ==> RedoStep(UndoStep(t)) == t
    ensures t.CanRedo() ==> UndoStep(RedoStep(t)) == t
  {
  }

  /** After committing a new state over `s`, undo shows `s` again and a
      following redo shows the new state. */
  lemma CommitUndoRedo<T>(t: Timeline<T>, x: T)
    requires t.Valid() && x != t.Current()
    ensures UndoStep(Commit(t, x, false)).Current() == t.Current()
    ensures RedoStep(UndoStep(Commit(t, x, false))).Current() == x
    ensures RedoStep(UndoStep(Commit(t, x, false))) == Commit(t, x, false)
  {
    CommitAppends(t, x);
    UndoRedoInverse(Commit(t, x, false));
  }

  /** Start with [d0]; commit d1; undo; commit d2: d1 is gone for good. */
  lemma BranchTruncation<T>(d0: T, d1: T, d2: T)
    requires d1 != d0 && d2 != d0
    ensures var r := Commit(UndoStep(Commit(Fresh(d0), d1, false)), d2, false);
      r == Timeline([d0, d2], 1) && !r.CanRedo()
  {
    var t1 := Commit(Fresh(d0), d1, false);
    assert t1 == Timeline([d0, d1], 1);
    var t2 := UndoStep(t1);
    assert t2 == Timeline([d0, d1], 0);
    assert t2.entries[..1] == [d0];
  }

  /** The hook as a stateful object. */
  class UndoHistory<T(==)> {
    var entries: seq<T>
    var cursor: nat
    /** The state `clearHistory` returns to. */
    const initial: T

    function Model(): Timeline<T>
      reads this
    {
      Timeline(entries, cursor)
    }

    ghost predicate Valid()
      reads this
    {
      Model().Valid()
    }

    function State(): T
      reads this
      requires Valid()
    {
      entries[cursor]
    }

    function CanUndo(): bool
      reads this
    {
      cursor > 0
    }

    function CanRedo(): bool
      reads this
    {
      cursor < |entries| - 1
    }

    constructor (initialState: T)
      ensures Valid() && Model() == Fresh(initialState) && initial == initialState
    {
      entries := [initialState];
      cursor := 0;
      initial := initialState;
    }

    method SetState(newState: T, overwrite: bool)
      requires Valid()
      modifies this
      ensures Valid() && Model() == Commit(old(Model()), newState, overwrite)
    {
      if newState == State() {
        return;
      }
      var newHistory := if overwrite then [newState] else entries[..cursor + 1] + [newState];
      entries := newHistory;
      cursor := |newHistory| - 1;
    }

    method Undo()
      requires Valid()
      modifies this
      ensures Valid() && Model() == UndoStep(old(Model()))
    {
      if CanUndo() {
        cursor := cursor - 1;
      }
    }

    method Redo()
      requires Valid()
      modifies this
      ensures Valid() && Model() == RedoStep(old(Model()))
    {
      if CanRedo() {
        cursor := cursor + 1;
      }
    }

    method ClearHistory()
      modifies this
      ensures Valid() && Model() == Fresh(initial)
    {
      entries := [initial];
      cursor := 0;
    }
  }
}
