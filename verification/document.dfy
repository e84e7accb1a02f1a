/** The course document as the editor sees it: a JSON value addressed by a
    path of keys, with the nested set (App.tsx:116-128) and the list reorder
    (App.tsx:130-146) that every edit goes through. */
module Document {
  import opened Base

  /** One step of a path: an object property or an array index. */
  datatype Key = Field(name: string) | Index(i: int)

  type Path = seq<Key>

  /** A JSON value. Numbers are integral here: the course only stores day
      numbers and relevancy scores in them. */
  datatype Json =
    | Null
    | Bool(b: bool)
    | Num(n: int)
    | Str(s: string)
    | Arr(items: seq<Json>)
    | Obj(fields: map<string, Json>)

  /** `v[k]` for the two container kinds; anything else is `undefined`. */
  function Child(v: Json, k: Key): Option<Json> {
    match v
    case Obj(m) =>
      if k.Field? && k.name in m then Some(m[k.name]) else None
    case Arr(a) =>
      if k.Index? && 0 <= k.i < |a| then Some(a[k.i]) else None
    case _ => None
  }

  /** The value at `path`, or None where the walk leaves the document. */
  function Get(v: Json, path: Path): Option<Json>
    decreases |path|
  {
    if path == [] then Some(v)
    else match Child(v, path[0])
      case None => None
      case Some(c) => Get(c, path[1..])
  }

  /** `v[k] = x` on a copy of `v`: assigning a property of an object adds or
      replaces it; assigning an index of an array replaces an element in
      range. Every other target throws in the source. */
  function SetKey(v: Json, k: Key, x: Json): Option<Json> {
    match v
    case Obj(m) =>
      if k.Field? then Some(Obj(m[k.name := x])) else None
    case Arr(a) =>
      if k.Index? && 0 <= k.i < |a| then Some(Arr(a[k.i := x])) else None
    case _ => None
  }

  /** Whether `SetKey(v, k, _)` succeeds. */
  predicate Assignable(v: Json, k: Key) {
    (v.Obj? && k.Field?) || (v.Arr? && k.Index? && 0 <= k.i < |v.items|)
  }

  /** The document in which the value at `path` is `x` and every ancestor
      along `path` is a fresh copy; None when some step of the walk fails. */
  function SetPath(v: Json, path: Path, x: Json): Option<Json>
    decreases |path|
  {
    if path == [] then Some(x)
    else if |path| == 1 then SetKey(v, path[0], x)
    else match Child(v, path[0])
      case None => None
      case Some(c) =>
        match SetPath(c, path[1..], x)
        case None => None
        case Some(c') => SetKey(v, path[0], c')
  }

  lemma SetKeyFacts(v: Json, k: Key, x: Json)
    ensures SetKey(v, k, x).Some? <==> Assignable(v, k)
    ensures SetKey(v, k, x).Some? ==> Child(SetKey(v, k, x).value, k) == Some(x)
    ensures SetKey(v, k, x).Some? ==> SetKey(v, k, x).value.Obj? == v.Obj?
  {
  }

  /** The set succeeds exactly when the walk to the parent of the last key
      reaches a container that the last key can be assigned in. */
  lemma {:induction false} SetPathDefined(v: Json, path: Path, x: Json)
    requires |path| >= 1
    ensures SetPath(v, path, x).Some? <==>
            (var parent := Get(v, path[..|path| - 1]);
             parent.Some? && Assignable(parent.value, path[|path| - 1]))
    decreases |path|
  {
    if |path| > 1 {
      match Child(v, path[0])
      case None =>
      case Some(c) =>
        assert path[1..][..|path[1..]| - 1] == path[..|path| - 1][1..];
        SetPathDefined(c, path[1..], x);
        SetKeyFacts(c, path[1..][|path[1..]| - 1], x);
        match SetPath(c, path[1..], x)
        case None =>
        case Some(c') =>
          assert Child(v, path[0]).Some?;
          assert Assignable(v, path[0]);
    }
  }

  /** After a successful set, reading the same path gives the new value. */
  lemma {:induction false} GetAfterSet(v: Json, path: Path, x: Json)
    requires SetPath(v, path, x).Some?
    ensures Get(SetPath(v, path, x).value, path) == Some(x)
    decreases |path|
  {
    if |path| == 1 {
      SetKeyFacts(v, path[0], x);
    } else if |path| > 1 {
      var c := Child(v, path[0]).value;
      GetAfterSet(c, path[1..], x);
      SetKeyFacts(v, path[0], SetPath(c, path[1..], x).value);
    }
  }

  /** Where two paths part ways. */
  predicate Diverge(p: Path, q: Path) {
    exists i :: 0 <= i < |p| && i < |q| && p[i] != q[i] && p[..i] == q[..i]
  }

  /** Assigning a key leaves every other key's value as it was. */
  lemma SetKeyOthers(v: Json, k: Key, k': Key, x: Json)
    requires SetKey(v, k, x).Some? && k != k'
    ensures Child(SetKey(v, k, x).value, k') == Child(v, k')
  {
  }

  /** A set changes nothing off its own path: a location whose path parts
      ways with the edited path reads the same before and after. */
  lemma {:induction false} SetLeavesOthers(v: Json, path: Path, x: Json, q: Path)
    requires SetPath(v, path, x).Some?
    requires Diverge(path, q)
    ensures Get(SetPath(v, path, x).value, q) == Get(v, q)
    decreases |path|
  {
    var w := SetPath(v, path, x).value;
    var i :| 0 <= i < |path| && i < |q| && path[i] != q[i] && path[..i] == q[..i];
    if i == 0 {
      if |path| == 1 {
        SetKeyOthers(v, path[0], q[0], x);
      } else {
        var c := Child(v, path[0]).value;
        SetKeyOthers(v, path[0], q[0], SetPath(c, path[1..], x).value);
      }
    } else {
      assert path[0] == q[0] by { assert path[..i][0] == q[..i][0]; }
      var c := Child(v, path[0]).value;
      var c' := SetPath(c, path[1..], x).value;
      SetKeyFacts(v, path[0], c');
      assert Child(w, path[0]) == Some(c');
      assert path[1..][..i - 1] == q[1..][..i - 1] by {
        assert path[1..][..i - 1] == path[..i][1..];
        assert q[1..][..i - 1] == q[..i][1..];
      }
      assert path[1..][i - 1] != q[1..][i - 1];
      SetLeavesOthers(c, path[1..], x, q[1..]);
    }
  }

  /** Setting a non-empty path keeps the document's root an object when it
      was one. */
  lemma {:induction false} SetKeepsRootKind(v: Json, path: Path, x: Json)
    requires |path| >= 1 && SetPath(v, path, x).Some?
    ensures SetPath(v, path, x).value.Obj? == v.Obj?
  {
    if |path| == 1 {
      SetKeyFacts(v, path[0], x);
    } else {
      SetKeyFacts(v, path[0], SetPath(Child(v, path[0]).value, path[1..], x).value);
    }
  }

  /** Setting `prefix + [k]` replaces the container at `prefix` by the same
      container with `k` assigned. */
  lemma {:induction false} SetAtLast(v: Json, prefix: Path, k: Key, x: Json)
    requires Get(v, prefix).Some? && SetKey(Get(v, prefix).value, k, x).Some?
    ensures SetPath(v, prefix + [k], x).Some?
    ensures Get(SetPath(v, prefix + [k], x).value, prefix) == SetKey(Get(v, prefix).value, k, x)
    decreases |prefix|
  {
    if prefix == [] {
      assert prefix + [k] == [k];
    } else {
      var c := Child(v, prefix[0]).value;
      assert (prefix + [k])[1..] == prefix[1..] + [k];
      SetAtLast(c, prefix[1..], k, x);
      var c' := SetPath(c, prefix[1..] + [k], x).value;
      SetKeyFacts(v, prefix[0], c');
    }
  }

  /** Reading `p + q` reads `p`, then `q` from there. */
  lemma {:induction false} GetAppend(v: Json, p: Path, q: Path)
    ensures Get(v, p + q) == if Get(v, p).Some? then Get(Get(v, p).value, q) else None
    decreases |p|
  {
    if p == [] {
      assert p + q == q;
    } else {
      assert (p + q)[0] == p[0];
      assert (p + q)[1..] == p[1..] + q;
      if Child(v, p[0]).Some? {
        GetAppend(Child(v, p[0]).value, p[1..], q);
      }
    }
  }

  /** The walk of App.tsx:134-137: `current = current[path[i]]` for every
      key of the path. */
  method Resolve(doc: Json, path: Path) returns (r: Option<Json>)
    ensures r == Get(doc, path)
  {
    var current := doc;
    for i := 0 to |path|
      invariant Get(doc, path) == Get(current, path[i..])
    {
      assert path[i..][1..] == path[i + 1..];
      match Child(current, path[i]) {
        case None =>
          return None;
        case Some(c) =>
          current := c;
      }
    }
    assert path[|path|..] == [];
    return Some(current);
  }

  /** The assignment of App.tsx:119-124: walk to the parent of the last key,
      remembering the containers passed, and assign the last key. The source
      assigns inside a deep copy whose containers share the new child; here
      the copy is a value, so each remembered container is rebuilt around its
      new child on the way back up. */
  method AssignAtPath(doc: Json, path: Path, x: Json) returns (r: Option<Json>)
    requires |path| >= 1
    ensures r == SetPath(doc, path, x)
  {
    var n := |path| - 1;
    var ancestors: seq<Json> := [];
    var current := doc;
    for i := 0 to n
      invariant |ancestors| == i
      invariant SetPath(doc, path, x) == Rebuild(ancestors, path, SetPath(current, path[i..], x))
    {
      match Child(current, path[i]) {
        case None =>
          RebuildNone(ancestors, path);
          return None;
        case Some(c) =>
          WalkStep(ancestors, path, current, c, x);
          ancestors, current := ancestors + [current], c;
      }
    }
    assert path[n..] == [path[n]];
    var node := SetKey(current, path[n], x);
    while ancestors != []
      invariant |ancestors| <= n
      invariant SetPath(doc, path, x) == Rebuild(ancestors, path, node)
      decreases |ancestors|
    {
      var last := |ancestors| - 1;
      match node {
        case None =>
          RebuildNone(ancestors, path);
          return None;
        case Some(c') =>
          node := SetKey(ancestors[last], path[last], c');
          ancestors := ancestors[..last];
      }
    }
    return node;
  }

  /** The result of placing `node` under the innermost of `ancestors` and
      rebuilding each enclosing container in turn. */
  function Rebuild(ancestors: seq<Json>, path: Path, node: Option<Json>): Option<Json>
    requires |ancestors| <= |path|
    decreases |ancestors|
  {
    if ancestors == [] then node
    else match node
      case None => None
      case Some(c) =>
        var last := |ancestors| - 1;
        Rebuild(ancestors[..last], path, SetKey(ancestors[last], path[last], c))
  }

  lemma {:induction false} RebuildNone(ancestors: seq<Json>, path: Path)
    requires |ancestors| <= |path|
    ensures Rebuild(ancestors, path, None) == None
  {
  }

  lemma WalkStep(ancestors: seq<Json>, path: Path, current: Json, c: Json, x: Json)
    requires |ancestors| + 1 < |path|
    requires Child(current, path[|ancestors|]) == Some(c)
    ensures Rebuild(ancestors + [current], path, SetPath(c, path[|ancestors| + 1..], x))
         == Rebuild(ancestors, path, SetPath(current, path[|ancestors|..], x))
  {
    var i := |ancestors|;
    assert path[i..][1..] == path[i + 1..];
    assert (ancestors + [current])[..i] == ancestors;
    if SetPath(c, path[i + 1..], x).None? {
      RebuildNone(ancestors, path);
    }
  }

  /** Setting a location that exists always succeeds. */
  lemma {:induction false} SetExisting(v: Json, path: Path, x: Json)
    requires Get(v, path).Some?
    ensures SetPath(v, path, x).Some?
    decreases |path|
  {
    if |path| > 1 {
      SetExisting(Child(v, path[0]).value, path[1..], x);
    }
  }

  /** `a` without its element at `i`. */
  function RemoveAt<T>(a: seq<T>, i: nat): (r: seq<T>)
    requires i < |a|
    ensures |r| == |a| - 1
    ensures forall j :: 0 <= j < i ==> r[j] == a[j]
    ensures forall j :: i <= j < |r| ==> r[j] == a[j + 1]
  {
    a[..i] + a[i + 1..]
  }

  /** `const [m] = a.splice(from, 1); a.splice(to, 0, m)` (App.tsx:140-141). */
  function Move<T>(a: seq<T>, from: nat, to: nat): seq<T>
    requires from < |a| && to < |a|
  {
    var rest := RemoveAt(a, from);
    rest[..to] + [a[from]] + rest[to..]
  }

  /** The moved element lands at `to`, nothing is lost or duplicated, and the
      other elements keep their relative order: taking the moved element out
      again leaves exactly what taking it out of the input leaves. */
  lemma MoveFacts<T>(a: seq<T>, from: nat, to: nat)
    requires from < |a| && to < |a|
    ensures |Move(a, from, to)| == |a|
    ensures Move(a, from, to)[to] == a[from]
    ensures multiset(Move(a, from, to)) == multiset(a)
    ensures RemoveAt(Move(a, from, to), to) == RemoveAt(a, from)
  {
    var rest := RemoveAt(a, from);
    var r := Move(a, from, to);
    assert r[..to] == rest[..to];
    assert r[to + 1..] == rest[to..];
    assert rest[..to] + rest[to..] == rest;
    calc {
      multiset(r);
      multiset(rest[..to]) + multiset([a[from]]) + multiset(rest[to..]);
      multiset(rest) + multiset([a[from]]);
      { assert rest == a[..from] + a[from + 1..]; }
      multiset(a[..from]) + multiset(a[from + 1..]) + multiset([a[from]]);
      { assert a == a[..from] + [a[from]] + a[from + 1..]; }
      multiset(a);
    }
  }

  /** Moving an element onto its own index changes nothing. */
  lemma MoveToSelf<T>(a: seq<T>, i: nat)
    requires i < |a|
    ensures Move(a, i, i) == a
  {
    assert RemoveAt(a, i)[..i] == a[..i];
    assert RemoveAt(a, i)[i..] == a[i + 1..];
    assert a == a[..i] + [a[i]] + a[i + 1..];
  }

  lemma MoveExample()
    ensures Move([Str("A"), Str("B"), Str("C")], 0, 2) == [Str("B"), Str("C"), Str("A")]
  {
    assert RemoveAt([Str("A"), Str("B"), Str("C")], 0) == [Str("B"), Str("C")];
  }

  /** Whether the reorder guard of App.tsx:139 lets `from -> to` through for
      the value found at the path. */
  predicate ReorderAllowed(target: Option<Json>, from: int, to: int) {
    target.Some? && target.value.Arr? &&
    0 <= from < |target.value.items| && 0 <= to < |target.value.items|
  }

  /** The document after moving element `from` of the list at `path` to
      `to`; None when the guard refuses and nothing is committed. */
  function Reorder(doc: Json, path: Path, from: int, to: int): (r: Option<Json>)
  {
    var target := Get(doc, path);
    if ReorderAllowed(target, from, to) then
      SetPath(doc, path, Arr(Move(target.value.items, from, to)))
    else None
  }

  /** A reorder succeeds exactly when the guard lets it through; the list at
      the path is then the moved list, and every location off the path is
      untouched. */
  lemma ReorderFacts(doc: Json, path: Path, from: int, to: int, q: Path)
    ensures Reorder(doc, path, from, to).Some? <==> ReorderAllowed(Get(doc, path), from, to)
    ensures Reorder(doc, path, from, to).Some? ==>
      var a := Get(doc, path).value.items;
      && Get(Reorder(doc, path, from, to).value, path) == Some(Arr(Move(a, from, to)))
      && (Diverge(path, q) ==> Get(Reorder(doc, path, from, to).value, q) == Get(doc, q))
  {
    var target := Get(doc, path);
    if ReorderAllowed(target, from, to) {
      var x := Arr(Move(target.value.items, from, to));
      SetExisting(doc, path, x);
      GetAfterSet(doc, path, x);
      if Diverge(path, q) {
        SetLeavesOthers(doc, path, x, q);
      }
    }
  }

  /** App.tsx:133-145 on a copy of the document: walk the whole path, check
      the guard, splice the list. */
  method ReorderList(doc: Json, path: Path, from: int, to: int) returns (r: Option<Json>)
    ensures r == Reorder(doc, path, from, to)
  {
    var current := Resolve(doc, path);
    if current.Some? && current.value.Arr? {
      var items := current.value.items;
      if 0 <= from < |items| && 0 <= to < |items| {
        var moved := Move(items, from, to);
        if path == [] {
          r := Some(Arr(moved));
        } else {
          r := AssignAtPath(doc, path, Arr(moved));
        }
        return;
      }
    }
    r := None;
  }
}
