/** Directory trees as finite maps from paths to nodes.

A path is the sequence of names below the root of the tree; the root itself is `[]`, is always a
directory and is never a key of the map. */
module FileTrees {

  type Name = string

  type Path = seq<Name>

  type Content = seq<bv8>

  datatype Node = File(content: Content) | Dir

  type Tree = map<Path, Node>

  /** `q` is `d` or lies below it. */
  predicate Within(d: Path, q: Path) {
    d <= q
  }

  /** `q` lies strictly below `d`. */
  predicate Inside(d: Path, q: Path) {
    d < q
  }

  function Parent(p: Path): Path
    requires p != []
  {
    p[..|p| - 1]
  }

  function BaseName(p: Path): Name
    requires p != []
  {
    p[|p| - 1]
  }

  /** Every proper ancestor of a path that exists is a directory that exists. */
  ghost predicate WellFormed(t: Tree) {
    && [] !in t
    && forall a, q :: q in t && Inside(a, q) && a != [] ==> a in t && t[a] == Dir
  }

  predicate IsFile(t: Tree, p: Path) {
    p in t && t[p].File?
  }

  predicate IsDir(t: Tree, p: Path) {
    p == [] || (p in t && t[p].Dir?)
  }

  /** The value of a tree at one path, with absence made explicit. */
  datatype Entry = Absent | Present(node: Node)

  function At(t: Tree, q: Path): Entry {
    if q in t then Present(t[q]) else Absent
  }

  /** The proper ancestors of `p`, without the root. */
  function Ancestors(p: Path): (s: set<Path>)
    ensures forall a :: a in s <==> a != [] && Inside(a, p)
  {
    var s := set i | 0 < i < |p| :: p[..i];
    assert forall a :: a != [] && Inside(a, p) ==> a == p[..|a|] && 0 < |a| < |p|;
    s
  }

  function RemoveSubtree(t: Tree, w: Path): Tree {
    map q | q in t && !Within(w, q) :: t[q]
  }

  function ClearDirectory(t: Tree, d: Path): Tree {
    map q | q in t && !Inside(d, q) :: t[q]
  }

  /** Two paths above a third one are ordered. */
  lemma AncestorsCompare(a: Path, b: Path, q: Path)
    requires Within(a, q) && Within(b, q)
    ensures Within(a, b) || Inside(b, a)
  {
    if |a| <= |b| {
      assert forall i :: 0 <= i < |a| ==> a[i] == q[i] == b[i];
    } else {
      assert forall i :: 0 <= i < |b| ==> a[i] == q[i] == b[i];
    }
  }

  /** Everything on the way to an entry exists. */
  lemma LeadsTo(t: Tree, a: Path, q: Path)
    requires WellFormed(t) && q in t && Within(a, q) && a != []
    ensures a in t && (a != q ==> t[a] == Dir)
  {
    if a != q { assert Inside(a, q); }
  }

  /** Two trees that agree at every path are the same tree. */
  lemma TreeExtensionality(s: Tree, t: Tree)
    requires forall q :: At(s, q) == At(t, q)
    ensures s == t
  {
    forall q ensures q in s <==> q in t {
      assert At(s, q) == At(t, q);
    }
    forall q | q in s ensures s[q] == t[q] {
      assert At(s, q) == At(t, q);
    }
  }
}
