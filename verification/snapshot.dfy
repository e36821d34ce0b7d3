/** The snapshot of an overlay upper directory as a layer: `pybox/storage/snapshot.py`. */
module Snapshots {
  import opened Sequences
  import opened FileTrees
  import opened LayerExtraction

  /** What an upper directory holds: a deleted name is a whiteout device, and a directory may carry the
  opaque attribute. */
  datatype UpperNode = UFile(content: Content) | UWhiteout | UDir(opaqueDir: bool)

  type Upper = map<Path, UpperNode>

  ghost predicate WellFormedUpper(u: Upper) {
    && [] !in u
    && forall a, q :: q in u && Inside(a, q) && a != [] ==> a in u && u[a].UDir?
  }

  predicate IsUpperDir(u: Upper, r: Path) {
    r == [] || (r in u && u[r].UDir?)
  }

  predicate IsOpaque(u: Upper, r: Path) {
    r in u && u[r].UDir? && u[r].opaqueDir
  }

  /** The prefix `.wh.` is reserved for whiteouts: section "Whiteouts" of the OCI layer specification. */
  predicate PlainName(n: Name) {
    n != "" && !(WHITEOUT_PREFIX <= n)
  }

  ghost predicate PlainNames(u: Upper) {
    forall p :: p in u && !u[p].UDir? && p != [] ==> PlainName(BaseName(p))
  }

  /** `names` are the names in directory `r`, in some order. */
  ghost predicate ListsDir(u: Upper, r: Path, names: seq<Name>) {
    && (forall n :: n in names <==> r + [n] in u)
    && Distinct(names)
  }

  /** `listing` gives the names in each directory, in whatever order the file system returns them. */
  ghost predicate Lists(u: Upper, listing: Path -> seq<Name>) {
    forall r :: IsUpperDir(u, r) ==> ListsDir(u, r, listing(r))
  }

  // ---------------------------------------------------------------------------------------
  // What the walk writes

  /** The members of the files and deletions among `names`, entries of directory `r`. */
  function EntryMembers(u: Upper, r: Path, n: Name): seq<Member> {
    if r + [n] !in u then []
    else match u[r + [n]]
      case UFile(c) => [Member(r + [n], File(c))]
      case UWhiteout => [Member(r + [WHITEOUT_PREFIX + n], File([]))]
      case UDir(_) => []
  }

  function FileMembers(u: Upper, r: Path, names: seq<Name>): seq<Member> {
    if names == [] then []
    else FileMembers(u, r, names[..|names| - 1]) + EntryMembers(u, r, names[|names| - 1])
  }

  /** The members one turn of the walk adds for directory `r`. */
  function Visit(u: Upper, r: Path, names: seq<Name>): seq<Member> {
    FileMembers(u, r, names) +
    if r != [] && IsOpaque(u, r) then [Member(r + [OPAQUE_WHITEOUT], File([]))] else []
  }

  function Walk(u: Upper, listing: Path -> seq<Name>, roots: seq<Path>): seq<Member> {
    if roots == [] then []
    else
      var r := roots[|roots| - 1];
      Walk(u, listing, roots[..|roots| - 1]) + Visit(u, r, listing(r))
  }

  /** The order in which the directories are visited: each once, every parent before its children. */
  ghost predicate TopDown(u: Upper, roots: seq<Path>) {
    && (forall r :: r in roots <==> IsUpperDir(u, r))
    && ParentsFirst(u, roots)
  }

  ghost predicate ParentsFirst(u: Upper, roots: seq<Path>) {
    && (forall r :: r in roots ==> IsUpperDir(u, r))
    && Distinct(roots)
    && (forall i :: 0 <= i < |roots| && roots[i] != [] ==> Parent(roots[i]) in roots[..i])
  }

  // ---------------------------------------------------------------------------------------
  // The walk itself

  function AllDirs(u: Upper): set<Path> {
    {[]} + set r | r in u && u[r].UDir?
  }

  /** The subdirectories among the first names of a listing. */
  ghost predicate Subdirs(u: Upper, r: Path, names: seq<Name>, dirs: seq<Path>) {
    && (forall d :: d in dirs <==> exists n :: n in names && d == r + [n] && r + [n] in u && u[r + [n]].UDir?)
    && Distinct(dirs)
  }

  /** Every visited directory's subdirectories are visited or waiting. */
  ghost predicate Closed(u: Upper, roots: seq<Path>, stack: seq<Path>) {
    forall r, d :: r in roots && d in u && u[d].UDir? && d != [] && Parent(d) == r ==> d in roots || d in stack
  }

  lemma {:induction false} ClosedReachesAll(u: Upper, roots: seq<Path>, d: Path)
    requires WellFormedUpper(u) && [] in roots && Closed(u, roots, [])
    requires IsUpperDir(u, d)
    ensures d in roots
    decreases |d|
  {
    if d != [] {
      assert Parent(d) != [] ==> Inside(Parent(d), d);
      ClosedReachesAll(u, roots, Parent(d));
    }
  }

  /** One turn of the walk: the members of directory `r`, and its subdirectories. */
  method AddDirectory(u: Upper, r: Path, names: seq<Name>) returns (members: seq<Member>, dirs: seq<Path>)
    requires ListsDir(u, r, names)
    ensures members == Visit(u, r, names)
    ensures Subdirs(u, r, names, dirs)
  {
    members, dirs := [], [];
    assert names[..0] == [];
    for i := 0 to |names|
      invariant members == FileMembers(u, r, names[..i])
      invariant Subdirs(u, r, names[..i], dirs)
    {
      var n := names[i];
      assert names[..i + 1][..i] == names[..i] && names[..i + 1][i] == n;
      assert n !in names[..i];
      match u[r + [n]]
      case UFile(c) => members := members + [Member(r + [n], File(c))];
      case UWhiteout => members := members + [Member(r + [WHITEOUT_PREFIX + n], File([]))];
      case UDir(_) =>
        DistinctConcat(dirs, [r + [n]]);
        forall m | r + [m] == r + [n] ensures m == n {
          assert BaseName(r + [m]) == m && BaseName(r + [n]) == n;
        }
        dirs := dirs + [r + [n]];
    }
    assert names[..|names|] == names;
    if r != [] && IsOpaque(u, r) {
      members := members + [Member(r + [OPAQUE_WHITEOUT], File([]))];
    }
  }

  /** The part of the walk still to come: directories found but not yet visited. */
  ghost predicate Pending(u: Upper, roots: seq<Path>, stack: seq<Path>) {
    && (forall d :: d in stack ==> IsUpperDir(u, d) && d !in roots && (d != [] ==> Parent(d) in roots))
    && Distinct(stack)
    && ([] in roots || stack == [[]])
    && Closed(u, roots, stack)
  }

  lemma ParentVisited(u: Upper, roots: seq<Path>, d: Path)
    requires ParentsFirst(u, roots) && d in roots && d != []
    ensures Parent(d) in roots
  {
    var i :| 0 <= i < |roots| && roots[i] == d;
    assert Parent(roots[i]) in roots[..i];
  }

  lemma SubdirsAreNew(u: Upper, roots: seq<Path>, stack: seq<Path>, r: Path, names: seq<Name>, dirs: seq<Path>)
    requires ParentsFirst(u, roots) && Pending(u, roots, stack + [r]) && Subdirs(u, r, names, dirs)
    ensures forall d :: d in dirs ==>
              IsUpperDir(u, d) && d != [] && Parent(d) == r && d !in roots && d !in stack && d != r
  {
    assert r in stack + [r];
    forall d | d in dirs ensures d != [] && Parent(d) == r && d !in roots && d !in stack && d != r {
      if d in roots { ParentVisited(u, roots, d); }
      if d in stack { assert d in stack + [r]; }
    }
  }

  lemma ParentsFirstExtended(u: Upper, roots: seq<Path>, stack: seq<Path>, r: Path)
    requires ParentsFirst(u, roots) && Pending(u, roots, stack + [r])
    ensures ParentsFirst(u, roots + [r])
  {
    assert r in stack + [r];
    DistinctConcat(roots, [r]);
    var roots' := roots + [r];
    forall i | 0 <= i < |roots'| && roots'[i] != [] ensures Parent(roots'[i]) in roots'[..i] {
      assert roots'[..i] == if i < |roots| then roots[..i] else roots;
    }
  }

  lemma ClosedExtended(
      u: Upper, listing: Path -> seq<Name>, roots: seq<Path>, stack: seq<Path>, r: Path, dirs: seq<Path>)
    requires Lists(u, listing) && IsUpperDir(u, r)
    requires Closed(u, roots, stack + [r]) && Subdirs(u, r, listing(r), dirs)
    ensures Closed(u, roots + [r], stack + dirs)
  {
    forall q, d | q in roots + [r] && d in u && u[d].UDir? && d != [] && Parent(d) == q
      ensures d in roots + [r] || d in stack + dirs
    {
      if q == r {
        assert r + [BaseName(d)] == d;
        assert BaseName(d) in listing(r);
      } else {
        assert d in roots || d in stack + [r];
      }
    }
  }

  lemma PendingAfterVisit(
      u: Upper, listing: Path -> seq<Name>, roots: seq<Path>, stack: seq<Path>, r: Path, dirs: seq<Path>)
    requires Lists(u, listing)
    requires ParentsFirst(u, roots) && Pending(u, roots, stack + [r])
    requires Subdirs(u, r, listing(r), dirs)
    ensures ParentsFirst(u, roots + [r])
    ensures Pending(u, roots + [r], stack + dirs)
  {
    assert r in stack + [r];
    SubdirsAreNew(u, roots, stack, r, listing(r), dirs);
    ParentsFirstExtended(u, roots, stack, r);
    ClosedExtended(u, listing, roots, stack, r, dirs);
    DistinctConcat(stack, [r]);
    DistinctConcat(stack, dirs);
    forall d | d in stack ensures d != r && d in stack + [r] {}
  }

  lemma OneDirFewer(u: Upper, roots: seq<Path>, r: Path)
    requires IsUpperDir(u, r) && r !in roots
    ensures AllDirs(u) - (set x | x in roots + [r]) < AllDirs(u) - set x | x in roots
  {
    assert r in AllDirs(u) - (set x | x in roots) && r !in AllDirs(u) - set x | x in roots + [r];
  }

  lemma AllVisited(u: Upper, roots: seq<Path>)
    requires WellFormedUpper(u) && ParentsFirst(u, roots) && Pending(u, roots, [])
    ensures TopDown(u, roots)
  {
    forall d ensures d in roots <==> IsUpperDir(u, d) {
      if IsUpperDir(u, d) { ClosedReachesAll(u, roots, d); }
    }
  }

  /** The directories still to be visited. */
  ghost function Unvisited(u: Upper, roots: seq<Path>): set<Path> {
    AllDirs(u) - set r | r in roots
  }

  ghost predicate Underway(u: Upper, roots: seq<Path>, stack: seq<Path>) {
    ParentsFirst(u, roots) && Pending(u, roots, stack)
  }

  lemma OneTurn(u: Upper, listing: Path -> seq<Name>, roots: seq<Path>, below: seq<Path>, r: Path, dirs: seq<Path>)
    requires Lists(u, listing) && Underway(u, roots, below + [r]) && Subdirs(u, r, listing(r), dirs)
    ensures Underway(u, roots + [r], below + dirs)
    ensures Walk(u, listing, roots + [r]) == Walk(u, listing, roots) + Visit(u, r, listing(r))
    ensures Unvisited(u, roots + [r]) < Unvisited(u, roots)
  {
    assert r in below + [r];
    PendingAfterVisit(u, listing, roots, below, r, dirs);
    assert (roots + [r])[..|roots|] == roots;
    OneDirFewer(u, roots, r);
  }

  lemma NextIsDirectory(u: Upper, listing: Path -> seq<Name>, roots: seq<Path>, below: seq<Path>, r: Path)
    requires Lists(u, listing) && Underway(u, roots, below + [r])
    ensures IsUpperDir(u, r) && ListsDir(u, r, listing(r))
  {
    assert r in below + [r];
  }

  /** Walks the upper directory top down and adds all its entries. */
  method AddUpperDir(u: Upper, listing: Path -> seq<Name>) returns (members: seq<Member>, roots: seq<Path>)
    requires WellFormedUpper(u) && Lists(u, listing)
    ensures members == Walk(u, listing, roots)
    ensures TopDown(u, roots)
  {
    members, roots := [], [];
    var stack: seq<Path> := [[]];
    while stack != []
      invariant members == Walk(u, listing, roots)
      invariant Underway(u, roots, stack)
      decreases Unvisited(u, roots)
    {
      var r, below := stack[|stack| - 1], stack[..|stack| - 1];
      assert stack == below + [r];
      NextIsDirectory(u, listing, roots, below, r);
      var added, dirs := AddDirectory(u, r, listing(r));
      OneTurn(u, listing, roots, below, r, dirs);
      members, roots, stack := members + added, roots + [r], below + dirs;
    }
    AllVisited(u, roots);
  }

  // ---------------------------------------------------------------------------------------
  // The walk as actions

  /** The order the walk keeps between two actions, `x` being emitted before `y`: a directory's opaque
  marker precedes everything from its subdirectories and follows its own files. */
  predicate InOrder(x: Action, y: Action) {
    match y
    case Clear(b) => (match x
                      case Put(p, _) => p == [] || !Inside(b, Parent(p))
                      case Clear(d) => !Inside(b, d)
                      case _ => true)
    case Put(p, _) => x.Clear? && p != [] ==> x.dir != Parent(p)
    case _ => true
  }

  ghost predicate Ordered(actions: seq<Action>) {
    forall i, j :: 0 <= i < j < |actions| ==> InOrder(actions[i], actions[j])
  }

  /** The action is the encoding of an entry of the upper directory. */
  predicate Encodes(u: Upper, a: Action) {
    match a
    case Put(p, n) => p in u && u[p].UFile? && n == File(u[p].content)
    case Remove(w) => w in u && u[w].UWhiteout?
    case Clear(d) => d != [] && IsOpaque(u, d)
    case Skip => false
  }

  /** The sequences of actions a top-down walk of `u` can write: every entry encoded, nothing else, and
  in the walk's order. */
  ghost predicate Encoding(u: Upper, actions: seq<Action>) {
    && (forall a :: a in actions ==> Encodes(u, a))
    && (forall p :: p in u && u[p].UFile? ==> Put(p, File(u[p].content)) in actions)
    && (forall p :: p in u && u[p].UWhiteout? ==> Remove(p) in actions)
    && (forall p :: p != [] && IsOpaque(u, p) ==> Clear(p) in actions)
    && Ordered(actions)
  }

  /** The directory during whose visit the action was written. */
  function Origin(a: Action): Path {
    match a
    case Put(p, _) => if p == [] then [] else Parent(p)
    case Remove(w) => if w == [] then [] else Parent(w)
    case Clear(d) => d
    case Skip => []
  }

  /** The actions written for the visited directories: all of their entries, none of any other's. */
  ghost predicate EncodesOf(u: Upper, actions: seq<Action>, roots: seq<Path>) {
    && (forall a :: a in actions ==> Encodes(u, a) && Origin(a) in roots)
    && (forall p :: p in u && u[p].UFile? && p != [] && Parent(p) in roots ==> Put(p, File(u[p].content)) in actions)
    && (forall p :: p in u && u[p].UWhiteout? && p != [] && Parent(p) in roots ==> Remove(p) in actions)
    && (forall p :: p != [] && IsOpaque(u, p) && p in roots ==> Clear(p) in actions)
    && Ordered(actions)
  }

  lemma OrderedConcat(a: seq<Action>, b: seq<Action>)
    requires Ordered(a) && Ordered(b)
    requires forall x, y :: x in a && y in b ==> InOrder(x, y)
    ensures Ordered(a + b)
  {
    var c := a + b;
    forall i, j | 0 <= i < j < |c| ensures InOrder(c[i], c[j]) {
      if j < |a| {
        assert c[i] == a[i] && c[j] == a[j];
      } else if i < |a| {
        assert c[i] == a[i] && c[j] == b[j - |a|];
      } else {
        assert c[i] == b[i - |a|] && c[j] == b[j - |a|];
      }
    }
  }

  lemma ActionsConcat(a: seq<Member>, b: seq<Member>)
    ensures Actions(a + b) == Actions(a) + Actions(b)
  {
  }

  lemma DecodeEntry(p: Path, n: Node)
    requires p != [] && PlainName(BaseName(p))
    ensures Decode(Member(p, n)) == Put(p, n)
    ensures Decode(Member(Parent(p) + [".wh." + BaseName(p)], n)) == Remove(p)
    ensures Decode(Member(p + [".wh..wh..opq"], n)) == Clear(p)
    ensures Decode(Member(p + [".wh."], n)) == Remove(p)
  {
    var name := WHITEOUT_PREFIX + BaseName(p);
    assert Parent(p) + [BaseName(p)] == p;
    assert name[|WHITEOUT_PREFIX|..] == BaseName(p);
    assert OPAQUE_WHITEOUT[|WHITEOUT_PREFIX|..] == ".wh..opq";
    assert WHITEOUT_PREFIX <= ".wh..opq" && WHITEOUT_PREFIX <= OPAQUE_WHITEOUT;
    assert Parent(Parent(p) + [name]) == Parent(p);
  }

  /** The entry's action, if it has one, is among these. */
  predicate Shows(u: Upper, actions: seq<Action>, p: Path) {
    && (p in u && u[p].UFile? ==> Put(p, File(u[p].content)) in actions)
    && (p in u && u[p].UWhiteout? ==> Remove(p) in actions)
  }

  predicate IsEntryAction(u: Upper, a: Action, r: Path) {
    Encodes(u, a) && Origin(a) == r && !a.Clear?
  }

  lemma EntryEncoded(u: Upper, r: Path, n: Name)
    requires PlainNames(u)
    ensures var actions := Actions(EntryMembers(u, r, n));
            && |actions| <= 1
            && (forall a :: a in actions ==> IsEntryAction(u, a, r))
            && Shows(u, actions, r + [n])
  {
    var p := r + [n];
    assert Parent(p) == r && BaseName(p) == n;
    if p in u && !u[p].UDir? {
      assert PlainName(BaseName(p));
      DecodeEntry(p, if u[p].UFile? then File(u[p].content) else File([]));
      assert Actions(EntryMembers(u, r, n)) == [Decode(EntryMembers(u, r, n)[0])];
    }
  }

  lemma {:induction false} FilesEncoded(u: Upper, r: Path, names: seq<Name>)
    requires PlainNames(u)
    ensures var actions := Actions(FileMembers(u, r, names));
            && (forall a :: a in actions ==> IsEntryAction(u, a, r))
            && (forall n :: n in names ==> Shows(u, actions, r + [n]))
            && Ordered(actions)
    decreases |names|
  {
    if names != [] {
      var rest, n := names[..|names| - 1], names[|names| - 1];
      FilesEncoded(u, r, rest);
      EntryEncoded(u, r, n);
      ActionsConcat(FileMembers(u, r, rest), EntryMembers(u, r, n));
      OrderedConcat(Actions(FileMembers(u, r, rest)), Actions(EntryMembers(u, r, n)));
      forall m | m in names ensures Shows(u, Actions(FileMembers(u, r, names)), r + [m]) {
        if m != n { assert m in rest; }
      }
    }
  }

  /** The actions of a directory's own files and deletions. */
  ghost predicate EncodesEntries(u: Upper, actions: seq<Action>, r: Path) {
    && (forall a :: a in actions ==> Encodes(u, a) && Origin(a) == r && !a.Clear?)
    && (forall p :: p in u && u[p].UFile? && p != [] && Parent(p) == r ==> Put(p, File(u[p].content)) in actions)
    && (forall p :: p in u && u[p].UWhiteout? && p != [] && Parent(p) == r ==> Remove(p) in actions)
    && Ordered(actions)
  }

  lemma EntriesEncoded(u: Upper, r: Path, names: seq<Name>)
    requires PlainNames(u) && ListsDir(u, r, names)
    ensures EncodesEntries(u, Actions(FileMembers(u, r, names)), r)
  {
    FilesEncoded(u, r, names);
    forall p | p in u && p != [] && Parent(p) == r ensures r + [BaseName(p)] == p && BaseName(p) in names {
      assert r + [BaseName(p)] == p;
    }
  }

  lemma MarkerEncoded(u: Upper, r: Path, files: seq<Action>, marker: seq<Action>)
    requires EncodesEntries(u, files, r)
    requires marker == if r != [] && IsOpaque(u, r) then [Clear(r)] else []
    ensures EncodesOf(u, files + marker, [r])
  {
    forall x, y | x in files && y in marker ensures InOrder(x, y) {
      assert Origin(x) == r && !x.Clear?;
    }
    OrderedConcat(files, marker);
  }

  lemma VisitEncoded(u: Upper, r: Path, names: seq<Name>)
    requires PlainNames(u) && ListsDir(u, r, names)
    ensures EncodesOf(u, Actions(Visit(u, r, names)), [r])
  {
    var files := FileMembers(u, r, names);
    var marker := if r != [] && IsOpaque(u, r) then [Member(r + [OPAQUE_WHITEOUT], File([]))] else [];
    assert Visit(u, r, names) == files + marker;
    assert Parent(r + [OPAQUE_WHITEOUT]) == r;
    assert Actions(marker) == if r != [] && IsOpaque(u, r) then [Clear(r)] else [];
    ActionsConcat(files, marker);
    EntriesEncoded(u, r, names);
    MarkerEncoded(u, r, Actions(files), Actions(marker));
  }

  /** Ancestors are visited before what lies below them. */
  lemma {:induction false} AncestorVisited(u: Upper, roots: seq<Path>, a: Path, r: Path)
    requires ParentsFirst(u, roots) && r in roots && Inside(a, r)
    ensures a in roots
    decreases |r|
  {
    ParentVisited(u, roots, r);
    if Parent(r) != a {
      AncestorVisited(u, roots, a, Parent(r));
    }
  }

  lemma EncodedInOrder(u: Upper, a: seq<Action>, past: seq<Path>, b: seq<Action>, r: Path)
    requires ParentsFirst(u, past) && r !in past
    requires EncodesOf(u, a, past) && EncodesOf(u, b, [r])
    ensures Ordered(a + b)
  {
    forall x, y | x in a && y in b ensures InOrder(x, y) {
      assert Encodes(u, x) && Encodes(u, y) && Origin(x) in past && Origin(y) in [r];
      if Inside(r, Origin(x)) { AncestorVisited(u, past, r, Origin(x)); }
    }
    OrderedConcat(a, b);
  }

  lemma EncodedTogether(u: Upper, a: seq<Action>, past: seq<Path>, b: seq<Action>, r: Path)
    requires ParentsFirst(u, past) && r !in past
    requires EncodesOf(u, a, past) && EncodesOf(u, b, [r])
    ensures EncodesOf(u, a + b, past + [r])
  {
    EncodedInOrder(u, a, past, b, r);
    forall x ensures x in past + [r] <==> x in past || x in [r] {}
    forall x ensures x in a + b <==> x in a || x in b {}
  }

  lemma ParentsFirstPrefix(u: Upper, past: seq<Path>, r: Path)
    requires ParentsFirst(u, past + [r])
    ensures ParentsFirst(u, past) && r !in past && IsUpperDir(u, r)
  {
    var roots := past + [r];
    DistinctConcat(past, [r]);
    assert roots[|past|] == r;
    forall i | 0 <= i < |past| && past[i] != [] ensures Parent(past[i]) in past[..i] {
      assert past[..i] == roots[..i] && past[i] == roots[i];
    }
  }

  lemma WalkExtended(
      u: Upper, listing: Path -> seq<Name>, past: seq<Path>, r: Path, before: seq<Action>, now: seq<Action>)
    requires before == Actions(Walk(u, listing, past)) && now == Actions(Visit(u, r, listing(r)))
    ensures Actions(Walk(u, listing, past + [r])) == before + now
  {
    assert (past + [r])[..|past|] == past;
    ActionsConcat(Walk(u, listing, past), Visit(u, r, listing(r)));
  }

  lemma WalkOneMore(u: Upper, listing: Path -> seq<Name>, past: seq<Path>, r: Path)
    requires PlainNames(u) && Lists(u, listing) && ParentsFirst(u, past + [r])
    requires EncodesOf(u, Actions(Walk(u, listing, past)), past)
    ensures EncodesOf(u, Actions(Walk(u, listing, past + [r])), past + [r])
  {
    var before, now := Actions(Walk(u, listing, past)), Actions(Visit(u, r, listing(r)));
    ParentsFirstPrefix(u, past, r);
    VisitEncoded(u, r, listing(r));
    WalkExtended(u, listing, past, r, before, now);
    EncodedTogether(u, before, past, now, r);
  }

  lemma {:induction false} WalkEncoded(u: Upper, listing: Path -> seq<Name>, roots: seq<Path>)
    requires PlainNames(u) && Lists(u, listing) && ParentsFirst(u, roots)
    ensures EncodesOf(u, Actions(Walk(u, listing, roots)), roots)
    decreases |roots|
  {
    if roots == [] {
      assert Actions(Walk(u, listing, roots)) == [];
    } else {
      var past, r := roots[..|roots| - 1], roots[|roots| - 1];
      assert roots == past + [r];
      ParentsFirstPrefix(u, past, r);
      WalkEncoded(u, listing, past);
      WalkOneMore(u, listing, past, r);
    }
  }

  lemma {:induction false} WalkIsEncoding(u: Upper, listing: Path -> seq<Name>, roots: seq<Path>)
    requires WellFormedUpper(u) && PlainNames(u) && Lists(u, listing) && TopDown(u, roots)
    ensures Encoding(u, Actions(Walk(u, listing, roots)))
  {
    WalkEncoded(u, listing, roots);
    forall p | p in u ensures p != [] && Parent(p) in roots {
      assert Parent(p) != [] ==> Inside(Parent(p), p);
    }
  }
}
