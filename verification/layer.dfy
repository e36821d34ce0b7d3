/** Extraction of one layer into a directory: `pybox/image/layer.py`. */
module LayerExtraction {
  import opened Outcomes
  import opened FileTrees

  const WHITEOUT_PREFIX: string := ".wh."
  const OPAQUE_WHITEOUT: string := ".wh..wh..opq"

  /** A tar member: its path after leading slashes are stripped, and what it holds. */
  datatype Member = Member(path: Path, node: Node)

  /** What a member asks the extraction loop to do. */
  datatype Action =
    | Skip
    | Clear(dir: Path)
    | Remove(target: Path)
    | Put(path: Path, node: Node)

  /** The dispatch on the member's base name. */
  function Decode(m: Member): Action {
    if m.path == [] then Skip
    else
      var name := BaseName(m.path);
      if name == OPAQUE_WHITEOUT then Clear(Parent(m.path))
      else if WHITEOUT_PREFIX <= name then
        var realName := name[|WHITEOUT_PREFIX|..];
        Remove(if realName == "" then Parent(m.path) else Parent(m.path) + [realName])
      else Put(m.path, m.node)
  }

  function Actions(members: seq<Member>): (actions: seq<Action>)
    ensures |actions| == |members|
    ensures forall i :: 0 <= i < |members| ==> actions[i] == Decode(members[i])
  {
    seq(|members|, i requires 0 <= i < |members| => Decode(members[i]))
  }

  // ---------------------------------------------------------------------------------------
  // One action

  /** Some proper ancestor of `p` is a file, so nothing can be created at `p`. */
  predicate Blocked(t: Tree, p: Path) {
    exists a :: a in Ancestors(p) && IsFile(t, a)
  }

  /** An entry created at `p`, with the directories leading to it. */
  function Create(t: Tree, p: Path, n: Node): Tree {
    map q | q in t.Keys + Ancestors(p) + {p} :: if q == p then n else if q in t then t[q] else Dir
  }

  /** The tree allows the member: nothing of another kind is in the way. Otherwise extracting it fails and
  changes nothing. */
  predicate Extractable(t: Tree, p: Path, n: Node) {
    && p != []
    && !Blocked(t, p)
    && (if n.Dir? then p !in t else !IsDir(t, p))
  }

  function Apply(t: Tree, a: Action): Tree {
    match a
    case Skip => t
    case Clear(d) => ClearDirectory(t, d)
    case Remove(w) => RemoveSubtree(t, w)
    case Put(p, n) => if Extractable(t, p, n) then Create(t, p, n) else t
  }

  /** Listing the directory of an opaque marker fails when that directory is a file. */
  predicate Aborts(t: Tree, a: Action) {
    a.Clear? && IsFile(t, a.dir)
  }

  // ---------------------------------------------------------------------------------------
  // A whole layer

  datatype Extraction = Extraction(done: bool, tree: Tree)

  /** The extraction loop. An abort leaves what was extracted so far. */
  function Extract(t: Tree, actions: seq<Action>): Extraction
    decreases |actions|
  {
    if actions == [] then Extraction(true, t)
    else if Aborts(t, actions[0]) then Extraction(false, t)
    else Extract(Apply(t, actions[0]), actions[1..])
  }

  lemma ApplyWellFormed(t: Tree, a: Action)
    requires WellFormed(t)
    ensures WellFormed(Apply(t, a))
  {
    if a.Put? && Extractable(t, a.path, a.node) {
      var p := a.path;
      var t' := Create(t, p, a.node);
      forall b, q | q in t' && Inside(b, q) && b != [] ensures b in t' && t'[b] == Dir {
        if q == p || q in Ancestors(p) {
          assert b in Ancestors(p);
          if b in t { assert !IsFile(t, b); }
        }
      }
    }
  }

  lemma {:induction false} ExtractWellFormed(t: Tree, actions: seq<Action>)
    requires WellFormed(t)
    ensures WellFormed(Extract(t, actions).tree)
    decreases |actions|
  {
    if actions != [] && !Aborts(t, actions[0]) {
      ApplyWellFormed(t, actions[0]);
      ExtractWellFormed(Apply(t, actions[0]), actions[1..]);
    }
  }

  lemma {:induction false} ExtractConcat(t: Tree, a: seq<Action>, b: seq<Action>)
    ensures Extract(t, a + b) ==
            if Extract(t, a).done then Extract(Extract(t, a).tree, b) else Extract(t, a)
    decreases |a|
  {
    if a == [] {
      assert a + b == b;
    } else {
      assert (a + b)[0] == a[0] && (a + b)[1..] == a[1..] + b;
      if !Aborts(t, a[0]) {
        ExtractConcat(Apply(t, a[0]), a[1..], b);
      }
    }
  }

  // ---------------------------------------------------------------------------------------
  // Errors from outside

  /** `t'` is a state that stopping inside action `a` may leave: every path has its old or its new value,
  except that the file being written may hold anything. */
  ghost predicate Torn(t: Tree, a: Action, t': Tree) {
    && WellFormed(t')
    && forall q :: || At(t', q) == At(t, q)
                   || At(t', q) == At(Apply(t, a), q)
                   || (IsFile(t', q) && a.Put? && a.path == q && a.node.File? && Extractable(t, q, a.node))
  }

  /** For each action, what an error from outside (a full disk, a quota, missing permission) leaves of it;
  `None` and actions past the end of the list meet no such error. */
  type Errors = seq<Option<Tree>>

  function FirstError(errors: Errors): Option<Tree> {
    if errors == [] then None else errors[0]
  }

  function LaterErrors(errors: Errors): Errors {
    if errors == [] then [] else errors[1..]
  }

  /** The loop under errors: those of a member are logged and passed over, those of a whiteout end it. */
  function ExtractUnder(t: Tree, actions: seq<Action>, errors: Errors): Extraction
    decreases |actions|
  {
    if actions == [] then Extraction(true, t)
    else match FirstError(errors)
      case None =>
        if Aborts(t, actions[0]) then Extraction(false, t)
        else ExtractUnder(Apply(t, actions[0]), actions[1..], LaterErrors(errors))
      case Some(left) =>
        if actions[0].Put? then ExtractUnder(left, actions[1..], LaterErrors(errors)) else Extraction(false, left)
  }

  /** Errors leave only states that stopping inside their action may leave. */
  ghost predicate Possible(t: Tree, actions: seq<Action>, errors: Errors)
    decreases |actions|
  {
    actions != [] ==>
      match FirstError(errors)
      case None => !Aborts(t, actions[0]) ==> Possible(Apply(t, actions[0]), actions[1..], LaterErrors(errors))
      case Some(left) =>
        && actions[0] != Skip && Torn(t, actions[0], left)
        && (actions[0].Put? ==> Possible(left, actions[1..], LaterErrors(errors)))
  }

  /** No member is refused: whatever errors there are end the extraction. */
  predicate NoneRefused(actions: seq<Action>, errors: Errors)
    decreases |actions|
  {
    actions != [] ==>
      (actions[0].Put? ==> FirstError(errors).None?) && NoneRefused(actions[1..], LaterErrors(errors))
  }

  lemma {:induction false} UnderNoErrors(t: Tree, actions: seq<Action>)
    ensures ExtractUnder(t, actions, []) == Extract(t, actions)
    ensures Possible(t, actions, []) && NoneRefused(actions, [])
    decreases |actions|
  {
    if actions != [] {
      UnderNoErrors(Apply(t, actions[0]), actions[1..]);
    }
  }

  lemma {:induction false} UnderWellFormed(t: Tree, actions: seq<Action>, errors: Errors)
    requires WellFormed(t) && Possible(t, actions, errors)
    ensures WellFormed(ExtractUnder(t, actions, errors).tree)
    decreases |actions|
  {
    if actions != [] {
      match FirstError(errors)
      case None =>
        if !Aborts(t, actions[0]) {
          ApplyWellFormed(t, actions[0]);
          UnderWellFormed(Apply(t, actions[0]), actions[1..], LaterErrors(errors));
        }
      case Some(left) =>
        if actions[0].Put? { UnderWellFormed(left, actions[1..], LaterErrors(errors)); }
    }
  }

  // ---------------------------------------------------------------------------------------
  // Which actions can change which paths

  /** The action deletes whatever is at `q`. */
  predicate Hits(a: Action, q: Path) {
    match a
    case Skip => false
    case Clear(d) => Inside(d, q)
    case Remove(w) => Within(w, q)
    case Put(_, _) => false
  }

  /** The action may create or overwrite `q`. */
  predicate Fills(a: Action, q: Path) {
    a.Put? && q != [] && Within(q, a.path)
  }

  ghost predicate AnyHits(actions: seq<Action>, q: Path) {
    exists i :: 0 <= i < |actions| && Hits(actions[i], q)
  }

  ghost predicate AnyFills(actions: seq<Action>, q: Path) {
    exists i :: 0 <= i < |actions| && Fills(actions[i], q)
  }

  /** A path no action hits or fills keeps its value through the whole extraction. */
  lemma {:induction false} UntouchedPathKept(t: Tree, actions: seq<Action>, q: Path)
    requires !AnyHits(actions, q) && !AnyFills(actions, q)
    ensures At(Extract(t, actions).tree, q) == At(t, q)
    decreases |actions|
  {
    if actions != [] && !Aborts(t, actions[0]) {
      assert !Hits(actions[0], q) && !Fills(actions[0], q);
      assert At(Apply(t, actions[0]), q) == At(t, q);
      TailUntouched(actions, q);
      UntouchedPathKept(Apply(t, actions[0]), actions[1..], q);
    }
  }

  lemma TailUntouched(actions: seq<Action>, q: Path)
    requires actions != []
    ensures AnyHits(actions, q) <==> Hits(actions[0], q) || AnyHits(actions[1..], q)
    ensures AnyFills(actions, q) <==> Fills(actions[0], q) || AnyFills(actions[1..], q)
  {
    var rest := actions[1..];
    forall i | 0 < i < |actions| ensures actions[i] == rest[i - 1] {}
    forall i | 0 <= i < |rest| ensures rest[i] == actions[i + 1] {}
    if AnyHits(actions, q) && !Hits(actions[0], q) {
      var i :| 0 <= i < |actions| && Hits(actions[i], q);
      assert Hits(rest[i - 1], q);
    }
    if AnyHits(rest, q) {
      var i :| 0 <= i < |rest| && Hits(rest[i], q);
      assert Hits(actions[i + 1], q);
    }
    if AnyFills(actions, q) && !Fills(actions[0], q) {
      var i :| 0 <= i < |actions| && Fills(actions[i], q);
      assert Fills(rest[i - 1], q);
    }
    if AnyFills(rest, q) {
      var i :| 0 <= i < |rest| && Fills(rest[i], q);
      assert Fills(actions[i + 1], q);
    }
  }

  /** A path that is absent and that nothing fills stays absent. */
  lemma {:induction false} UnfilledPathStaysAbsent(t: Tree, actions: seq<Action>, q: Path)
    requires q !in t && !AnyFills(actions, q)
    ensures q !in Extract(t, actions).tree
    decreases |actions|
  {
    if actions != [] && !Aborts(t, actions[0]) {
      assert !Fills(actions[0], q);
      TailUntouched(actions, q);
      UnfilledPathStaysAbsent(Apply(t, actions[0]), actions[1..], q);
    }
  }

  /** A directory that no action hits stays a directory. */
  lemma {:induction false} UnhitDirectoryKept(t: Tree, actions: seq<Action>, q: Path)
    requires q in t && t[q] == Dir && !AnyHits(actions, q)
    ensures At(Extract(t, actions).tree, q) == Present(Dir)
    decreases |actions|
  {
    if actions != [] && !Aborts(t, actions[0]) {
      assert !Hits(actions[0], q);
      TailUntouched(actions, q);
      UnhitDirectoryKept(Apply(t, actions[0]), actions[1..], q);
    }
  }

  /** A path nothing fills ends as it was, or absent if something hits it. */
  lemma {:induction false} UnfilledPath(t: Tree, actions: seq<Action>, q: Path)
    requires !AnyFills(actions, q) && Extract(t, actions).done
    ensures At(Extract(t, actions).tree, q) == if AnyHits(actions, q) then Absent else At(t, q)
    decreases |actions|
  {
    if actions != [] {
      assert !Fills(actions[0], q);
      TailUntouched(actions, q);
      UnfilledPath(Apply(t, actions[0]), actions[1..], q);
    }
  }

  /** A file that no action hits keeps its content unless a member is put at its very path. */
  lemma {:induction false} UnhitFileKept(t: Tree, actions: seq<Action>, q: Path, c: Content)
    requires WellFormed(t) && q in t && t[q] == File(c) && !AnyHits(actions, q)
    requires forall a :: a in actions && a.Put? && a.path == q ==> a.node == File(c)
    ensures At(Extract(t, actions).tree, q) == Present(File(c))
    decreases |actions|
  {
    if actions != [] && !Aborts(t, actions[0]) {
      var a := actions[0];
      assert !Hits(a, q) && a in actions;
      if Fills(a, q) && a.path != q {
        assert q in Ancestors(a.path) && IsFile(t, q);
      }
      TailUntouched(actions, q);
      ApplyWellFormed(t, a);
      UnhitFileKept(Apply(t, a), actions[1..], q, c);
    }
  }
}
