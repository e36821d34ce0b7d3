/** The extraction loop as it works on the destination directory: `pybox/image/layer.py`. */
module LayerDirectories {
  import opened Outcomes
  import opened FileTrees
  import opened LayerExtraction

  /** Deleting each child with all it holds empties the directory. */
  ghost predicate ChildrenLeft(t: Tree, d: Path, children: set<Path>) {
    forall c :: c in children <==> c in t && Inside(d, c) && |c| == |d| + 1
  }

  lemma NoChildrenNoDescendants(t: Tree, d: Path)
    requires WellFormed(t) && ChildrenLeft(t, d, {})
    ensures ClearDirectory(t, d) == t
  {
    forall q | q in t ensures !Inside(d, q) {
      if Inside(d, q) {
        LeadsTo(t, q[..|d| + 1], q);
      }
    }
  }

  lemma ChildRemoved(t: Tree, d: Path, children: set<Path>, child: Path)
    requires WellFormed(t) && ChildrenLeft(t, d, children) && child in children
    ensures WellFormed(RemoveSubtree(t, child))
    ensures ChildrenLeft(RemoveSubtree(t, child), d, children - {child})
    ensures ClearDirectory(RemoveSubtree(t, child), d) == ClearDirectory(t, d)
  {
    ApplyWellFormed(t, Remove(child));
    forall c | |c| == |child| && Within(child, c) ensures c == child {}
  }

  class Destination {
    var tree: Tree

    constructor (t: Tree)
      requires WellFormed(t)
      ensures tree == t
    {
      tree := t;
    }

    /** Empties `d` child by child. Listing fails, and the extraction with it, when `d` is a file. `error`
    is what an error from outside leaves; the method raises it, as it does when `ok` is false. */
    method ApplyOpaqueWhiteout(d: Path, error: Option<Tree>) returns (ok: bool)
      requires WellFormed(tree) && (error.Some? ==> Torn(tree, Clear(d), error.value))
      modifies this
      ensures WellFormed(tree)
      ensures ok == (error.None? && !Aborts(old(tree), Clear(d)))
      ensures tree == if error.Some? then error.value else if ok then Apply(old(tree), Clear(d)) else old(tree)
    {
      if error.Some? {
        tree := error.value;
        return false;
      }
      if d != [] && d !in tree {
        assert forall q :: q in tree ==> !Inside(d, q);
        return true;
      }
      if d != [] && tree[d].File? {
        return false;
      }
      var children := set q | q in tree && Inside(d, q) && |q| == |d| + 1;
      while children != {}
        invariant WellFormed(tree)
        invariant ChildrenLeft(tree, d, children)
        invariant ClearDirectory(tree, d) == ClearDirectory(old(tree), d)
        decreases children
      {
        var child :| child in children;
        ChildRemoved(tree, d, children, child);
        tree := RemoveSubtree(tree, child);
        children := children - {child};
      }
      NoChildrenNoDescendants(tree, d);
      return true;
    }

    method ApplyWhiteout(target: Path, error: Option<Tree>) returns (ok: bool)
      requires WellFormed(tree) && (error.Some? ==> Torn(tree, Remove(target), error.value))
      modifies this
      ensures WellFormed(tree)
      ensures ok == error.None?
      ensures tree == if error.Some? then error.value else Apply(old(tree), Remove(target))
    {
      if error.Some? {
        tree := error.value;
        return false;
      }
      ApplyWellFormed(tree, Remove(target));
      if target != [] && target !in tree {
        forall q | q in tree ensures !Within(target, q) {
          if Within(target, q) { LeadsTo(tree, target, q); }
        }
        return true;
      }
      tree := RemoveSubtree(tree, target);
      return true;
    }

    /** A member that cannot be extracted is logged and skipped, with whatever an error from outside leaves
    of it. */
    method SafeExtractMember(m: Member, error: Option<Tree>)
      requires WellFormed(tree) && m.path != []
      requires error.Some? ==> Torn(tree, Put(m.path, m.node), error.value)
      modifies this
      ensures WellFormed(tree)
      ensures tree == if error.Some? then error.value else Apply(old(tree), Put(m.path, m.node))
    {
      if error.Some? {
        tree := error.value;
        return;
      }
      ApplyWellFormed(tree, Put(m.path, m.node));
      if Extractable(tree, m.path, m.node) {
        tree := Create(tree, m.path, m.node);
      }
    }

    method ExtractWithWhiteouts(members: seq<Member>, errors: Errors) returns (ok: bool)
      requires WellFormed(tree) && Possible(tree, Actions(members), errors)
      modifies this
      ensures WellFormed(tree)
      ensures Extraction(ok, tree) == ExtractUnder(old(tree), Actions(members), errors)
    {
      ghost var actions := Actions(members);
      var later := errors;
      assert actions[0..] == actions;
      for i := 0 to |members|
        invariant WellFormed(tree) && Possible(tree, actions[i..], later)
        invariant ExtractUnder(tree, actions[i..], later) == ExtractUnder(old(tree), actions, errors)
      {
        var member, error := members[i], FirstError(later);
        later := LaterErrors(later);
        assert actions[i..][0] == actions[i] && actions[i..][1..] == actions[i + 1..];
        if member.path != [] {
          var name, parent := BaseName(member.path), Parent(member.path);
          if name == OPAQUE_WHITEOUT {
            var cleared := ApplyOpaqueWhiteout(parent, error);
            if !cleared { return false; }
          } else if WHITEOUT_PREFIX <= name {
            var realName := name[|WHITEOUT_PREFIX|..];
            var deleted := ApplyWhiteout(if realName == "" then parent else parent + [realName], error);
            if !deleted { return false; }
          } else {
            SafeExtractMember(member, error);
          }
        }
      }
      return true;
    }
  }
}
