/** The two ways of merging layer directories: `pybox/storage/overlay.py`. */
module OverlayDrivers {
  import opened Outcomes
  import opened FileTrees
  import opened LayerExtraction
  import opened LayerRestart

  // ---------------------------------------------------------------------------------------
  // The kernel's lookup

  /** Lookup through a lowerdir list, topmost directory first: the first directory holding the path
  decides, and a file on the way to it hides everything further down. */
  ghost function LookUp(lowerdirs: seq<Tree>, q: Path): Entry {
    if lowerdirs == [] then Absent
    else if q in lowerdirs[0] then Present(lowerdirs[0][q])
    else if Blocked(lowerdirs[0], q) then Absent
    else LookUp(lowerdirs[1..], q)
  }

  /** A lookup finds a node exactly in the first directory that holds the path, when none before it has a file
  on the way. */
  lemma {:induction false} LookUpExactly(lowerdirs: seq<Tree>, q: Path, n: Node)
    ensures LookUp(lowerdirs, q) == Present(n) <==>
              exists k :: 0 <= k < |lowerdirs| && At(lowerdirs[k], q) == Present(n)
                          && forall j :: 0 <= j < k ==> q !in lowerdirs[j] && !Blocked(lowerdirs[j], q)
    decreases |lowerdirs|
  {
    if lowerdirs != [] {
      var rest := lowerdirs[1..];
      LookUpExactly(rest, q, n);
      assert forall j :: 0 <= j < |rest| ==> rest[j] == lowerdirs[j + 1];
      if q !in lowerdirs[0] && !Blocked(lowerdirs[0], q) && LookUp(rest, q) == Present(n) {
        var k :| 0 <= k < |rest| && At(rest[k], q) == Present(n)
                 && forall j :: 0 <= j < k ==> q !in rest[j] && !Blocked(rest[j], q);
        forall j | 0 <= j < k + 1 ensures q !in lowerdirs[j] && !Blocked(lowerdirs[j], q) {
          if j > 0 { assert lowerdirs[j] == rest[j - 1]; }
        }
        assert At(lowerdirs[k + 1], q) == Present(n);
      }
    }
  }

  function Reverse<T>(s: seq<T>): (r: seq<T>)
    ensures |r| == |s|
    ensures forall i :: 0 <= i < |s| ==> r[i] == s[|s| - 1 - i]
  {
    if s == [] then [] else Reverse(s[1..]) + [s[0]]
  }

  datatype MountError = NoLayers | MountFailed

  class OverlayMount {
    const layerDirs: seq<Tree>   // base first
    var mounted: bool

    constructor (layerDirs: seq<Tree>)
      ensures this.layerDirs == layerDirs && !mounted
    {
      this.layerDirs := layerDirs;
      mounted := false;
    }

    /** Hands the reversed list to the kernel, which then serves lookups through it. */
    method Mount(kernelAccepts: bool) returns (lowerdir: Result<seq<Tree>, MountError>)
      modifies this
      ensures lowerdir.Ok? <==> layerDirs != [] && kernelAccepts
      ensures lowerdir == Err(NoLayers) <==> layerDirs == []
      ensures lowerdir.Ok? ==> lowerdir.value == Reverse(layerDirs)
      ensures mounted == (old(mounted) || lowerdir.Ok?)
    {
      if layerDirs == [] {
        return Err(NoLayers);
      }
      if !kernelAccepts {
        return Err(MountFailed);
      }
      mounted := true;
      return Ok(Reverse(layerDirs));
    }

    method Umount(kernelAccepts: bool)
      modifies this
      ensures mounted == (old(mounted) && !kernelAccepts)
    {
      if mounted && kernelAccepts {
        mounted := false;
      }
    }
  }

  // ---------------------------------------------------------------------------------------
  // Copying base to top

  /** A file copied onto a directory lands inside it, under its own name. */
  predicate LandsInside(dst: Tree, src: Tree, q: Path) {
    && |q| >= 2
    && BaseName(q) == BaseName(Parent(q))
    && Parent(q) in src && src[Parent(q)].File?
    && Parent(q) in dst && dst[Parent(q)].Dir?
    && (q in dst ==> dst[q].File?)
  }

  /** What a recursive copy of `src` into `dst` leaves at `q`. */
  function CopyAt(dst: Tree, src: Tree, q: Path): Entry {
    if q in src && !Blocked(dst, q) then
      if q in dst && (src[q].Dir? || dst[q].Dir?) then Present(dst[q]) else Present(src[q])
    else if LandsInside(dst, src, q) then Present(src[Parent(q)])
    else At(dst, q)
  }

  function CopyOver(dst: Tree, src: Tree): (t: Tree)
    ensures forall q :: At(t, q) == CopyAt(dst, src, q)
  {
    var keys := dst.Keys + src.Keys + set p | p in src.Keys && p != [] :: p + [BaseName(p)];
    forall q | CopyAt(dst, src, q).Present? ensures q in keys {
      if LandsInside(dst, src, q) {
        assert Parent(q) + [BaseName(q)] == q;
      }
    }
    map q | q in keys && CopyAt(dst, src, q).Present? :: CopyAt(dst, src, q).node
  }

  /** The copy raises: a directory meets a file, or a file lands on a directory inside a directory. */
  predicate CopyFails(dst: Tree, src: Tree) {
    exists q :: q in src && q in dst && q != [] &&
      ((src[q].Dir? && dst[q].File?) || (src[q].File? && dst[q].Dir? && IsDir(dst, q + [BaseName(q)])))
  }

  function CopyAll(dst: Tree, layers: seq<Tree>): (r: Result<Tree, MountError>)
    decreases |layers|
  {
    if layers == [] then Ok(dst)
    else if CopyFails(dst, layers[0]) then Err(MountFailed)
    else CopyAll(CopyOver(dst, layers[0]), layers[1..])
  }

  /** What the copies leave, also when one of them raises: a recursive copy goes on past the entries that
  fail and raises at its end. */
  function CopyLeft(dst: Tree, layers: seq<Tree>): Tree
    decreases |layers|
  {
    if layers == [] then dst
    else if CopyFails(dst, layers[0]) then CopyOver(dst, layers[0])
    else CopyLeft(CopyOver(dst, layers[0]), layers[1..])
  }

  /** After a mount that gets through, what is left is the merge. */
  lemma {:induction false} CopyLeftIsAll(dst: Tree, layers: seq<Tree>)
    ensures CopyAll(dst, layers).Ok? ==> CopyLeft(dst, layers) == CopyAll(dst, layers).value
    decreases |layers|
  {
    if layers != [] && !CopyFails(dst, layers[0]) {
      CopyLeftIsAll(CopyOver(dst, layers[0]), layers[1..]);
    }
  }

  lemma CopyAllCons(dst: Tree, layer: Tree, rest: seq<Tree>)
    ensures CopyAll(dst, [layer] + rest) ==
            if CopyFails(dst, layer) then Err(MountFailed) else CopyAll(CopyOver(dst, layer), rest)
    ensures CopyLeft(dst, [layer] + rest) ==
            if CopyFails(dst, layer) then CopyOver(dst, layer) else CopyLeft(CopyOver(dst, layer), rest)
  {
    assert ([layer] + rest)[1..] == rest;
  }

  class VFSCopyMount {
    const layerDirs: seq<Option<Tree>>   // base first; a directory that does not exist is skipped
    var merged: Tree
    var mounted: bool

    constructor (layerDirs: seq<Option<Tree>>)
      ensures this.layerDirs == layerDirs && merged == map[] && !mounted
    {
      this.layerDirs := layerDirs;
      merged := map[];
      mounted := false;
    }

    method Mount() returns (ok: bool)
      modifies this
      ensures ok == CopyAll(old(merged), Existing(layerDirs)).Ok?
      ensures ok ==> merged == CopyAll(old(merged), Existing(layerDirs)).value
      ensures merged == CopyLeft(old(merged), Existing(layerDirs))
      ensures mounted == (old(mounted) || ok)
      ensures old(merged) == map[] && Stackable(layerDirs) ==> ok && forall q :: ShowsTop(layerDirs, merged, q)
    {
      if merged == map[] && Stackable(layerDirs) { MountShowsTop(layerDirs); }
      assert layerDirs[0..] == layerDirs;
      for i := 0 to |layerDirs|
        invariant mounted == old(mounted)
        invariant CopyAll(merged, Existing(layerDirs[i..])) == CopyAll(old(merged), Existing(layerDirs))
        invariant CopyLeft(merged, Existing(layerDirs[i..])) == CopyLeft(old(merged), Existing(layerDirs))
      {
        assert layerDirs[i..][0] == layerDirs[i] && layerDirs[i..][1..] == layerDirs[i + 1..];
        match layerDirs[i]
        case None =>
          assert Existing(layerDirs[i..]) == Existing(layerDirs[i + 1..]);
        case Some(layer) =>
          assert Existing(layerDirs[i..]) == [layer] + Existing(layerDirs[i + 1..]);
          CopyAllCons(merged, layer, Existing(layerDirs[i + 1..]));
          var raises := CopyFails(merged, layer);
          merged := CopyOver(merged, layer);
          if raises {
            return false;
          }
      }
      mounted := true;
      return true;
    }

    /** There is no kernel mount to release; the merged directory stays. */
    method Umount()
      modifies this`mounted
      ensures !mounted
    {
      mounted := false;
    }
  }

  function IfExisting(dir: Option<Tree>): seq<Tree> {
    match dir
    case None => []
    case Some(t) => [t]
  }

  function Existing(dirs: seq<Option<Tree>>): seq<Tree> {
    if dirs == [] then [] else IfExisting(dirs[0]) + Existing(dirs[1..])
  }

  /** The directory with this number exists and holds the path. */
  predicate Holds(dirs: seq<Option<Tree>>, k: int, q: Path) {
    0 <= k < |dirs| && dirs[k].Some? && q in dirs[k].value
  }

  /** Every existing directory is a tree, and a path has the same kind in all that hold it. */
  ghost predicate Stackable(dirs: seq<Option<Tree>>) {
    && (forall k :: 0 <= k < |dirs| && dirs[k].Some? ==> WellFormed(dirs[k].value))
    && (forall j, k, q :: Holds(dirs, j, q) && Holds(dirs, k, q) ==> SameKind(dirs[j].value[q], dirs[k].value[q]))
  }

  /** At `q` the tree has the entry of the last existing directory that holds `q`, and none if none does. */
  ghost predicate ShowsTop(dirs: seq<Option<Tree>>, merged: Tree, q: Path) {
    && (q in merged ==> exists k :: Holds(dirs, k, q))
    && (forall k :: Holds(dirs, k, q) && (forall j :: j > k ==> !Holds(dirs, j, q))
          ==> At(merged, q) == Present(dirs[k].value[q]))
    && (forall k :: Holds(dirs, k, q) ==> q in merged && SameKind(merged[q], dirs[k].value[q]))
  }

  lemma {:induction false} ExistingSnoc(dirs: seq<Option<Tree>>, top: Option<Tree>)
    ensures Existing(dirs + [top]) == Existing(dirs) + IfExisting(top)
    decreases |dirs|
  {
    if dirs == [] {
      assert dirs + [top] == [top] && [top][1..] == [];
      assert Existing([top]) == IfExisting(top) + Existing([]);
    } else {
      assert (dirs + [top])[0] == dirs[0] && (dirs + [top])[1..] == dirs[1..] + [top];
      ExistingSnoc(dirs[1..], top);
    }
  }

  /** One more directory on top of a merge that shows the top of those below. */
  lemma ShowsOneMore(below: seq<Option<Tree>>, top: Option<Tree>, m: Tree)
    requires WellFormed(m) && Stackable(below + [top]) && forall q :: ShowsTop(below, m, q)
    ensures top.Some? ==> !CopyFails(m, top.value) && WellFormed(CopyOver(m, top.value))
    ensures var t := if top.Some? then CopyOver(m, top.value) else m; forall q :: ShowsTop(below + [top], t, q)
  {
    var all, n := below + [top], |below|;
    assert all[n] == top;
    if top.Some? {
      forall p | p in m && p in top.value ensures SameKind(m[p], top.value[p]) {
        assert ShowsTop(below, m, p);
        var k :| Holds(below, k, p);
        assert Holds(all, k, p) && Holds(all, n, p);
      }
      CopyConsistent(m, top.value);
    }
    var t := if top.Some? then CopyOver(m, top.value) else m;
    forall q ensures ShowsTop(all, t, q) {
      TopExtended(below, top, m, t, q);
    }
  }

  lemma TopExtended(below: seq<Option<Tree>>, top: Option<Tree>, m: Tree, t: Tree, q: Path)
    requires Stackable(below + [top]) && ShowsTop(below, m, q)
    requires At(t, q) == if top.Some? && q in top.value then Present(top.value[q]) else At(m, q)
    ensures ShowsTop(below + [top], t, q)
  {
    var all, n := below + [top], |below|;
    assert all[n] == top;
    forall k ensures Holds(all, k, q) <==> Holds(below, k, q) || (k == n && top.Some? && q in top.value) {}
    if q in t && !(top.Some? && q in top.value) {
      var k :| Holds(below, k, q);
      assert Holds(all, k, q);
    }
    if top.Some? && q in top.value {
      assert Holds(all, n, q);
    }
  }

  /** Mounting into an empty directory: what the copies leave shows the top of the stack at every path. */
  lemma {:induction false} MountShowsTop(dirs: seq<Option<Tree>>)
    requires Stackable(dirs)
    ensures var copied := CopyAll(map[], Existing(dirs));
            copied.Ok? && WellFormed(copied.value) && forall q :: ShowsTop(dirs, copied.value, q)
    decreases |dirs|
  {
    if dirs != [] {
      var below, top := dirs[..|dirs| - 1], dirs[|dirs| - 1];
      assert dirs == below + [top];
      forall j, k, q | Holds(below, j, q) && Holds(below, k, q)
        ensures SameKind(below[j].value[q], below[k].value[q])
      {
        assert Holds(dirs, j, q) && Holds(dirs, k, q);
      }
      MountShowsTop(below);
      var m := CopyAll(map[], Existing(below)).value;
      ShowsOneMore(below, top, m);
      ExistingSnoc(below, top);
      match top
      case None => assert Existing(below) + [] == Existing(below);
      case Some(t) => CopyAllSnoc(map[], Existing(below), t);
    }
  }

  /** A mount that raises has copied some directories without a clash and the next one as far as it goes. */
  lemma {:induction false} FailedMountLeaves(dst: Tree, layers: seq<Tree>) returns (k: nat)
    requires CopyAll(dst, layers).Err?
    ensures k < |layers| && CopyAll(dst, layers[..k]).Ok?
    ensures var m := CopyAll(dst, layers[..k]).value;
            CopyFails(m, layers[k]) && CopyLeft(dst, layers) == CopyOver(m, layers[k])
    decreases |layers|
  {
    if CopyFails(dst, layers[0]) {
      k := 0;
    } else {
      var j := FailedMountLeaves(CopyOver(dst, layers[0]), layers[1..]);
      k := j + 1;
      assert layers[..k][0] == layers[0] && layers[..k][1..] == layers[1..][..j];
    }
  }

  /** A file copied where a directory is lands inside that directory, and the directory stays; the copy raises
  when the place inside is taken by a directory, which stays, too. */
  lemma FileOnDirectory(dst: Tree, src: Tree, p: Path)
    requires WellFormed(dst) && WellFormed(src) && p in dst && p in src && src[p].File? && dst[p].Dir?
    ensures var inside, copied := p + [BaseName(p)], CopyOver(dst, src);
            && At(copied, p) == Present(Dir)
            && (IsDir(dst, inside) ==> CopyFails(dst, src) && At(copied, inside) == Present(Dir))
            && (!IsDir(dst, inside) ==> At(copied, inside) == Present(src[p]))
  {
    forall a | a in Ancestors(p) ensures !IsFile(dst, a) { LeadsTo(dst, a, p); }
    var inside := p + [BaseName(p)];
    assert Parent(inside) == p && BaseName(inside) == BaseName(p) && Inside(p, inside);
  }

  /** A directory copied where a file is raises; the file stays, and nothing below the directory is copied. */
  lemma DirectoryOnFile(dst: Tree, src: Tree, p: Path)
    requires WellFormed(dst) && WellFormed(src) && p in dst && p in src && src[p].Dir? && dst[p].File?
    ensures CopyFails(dst, src) && At(CopyOver(dst, src), p) == Present(dst[p])
    ensures forall q :: Inside(p, q) ==> At(CopyOver(dst, src), q) == Absent
  {
    forall a | a in Ancestors(p) ensures !IsFile(dst, a) { LeadsTo(dst, a, p); }
    assert p != [];
    assert p in src && p in dst && p != [] && src[p].Dir? && dst[p].File?;
    assert LandsInside(dst, src, p) ==> Parent(p) in src && src[Parent(p)].File? && Inside(Parent(p), p);
    forall q | Inside(p, q) ensures At(CopyOver(dst, src), q) == Absent {
      assert p in Ancestors(q) && Blocked(dst, q) && q !in dst;
      assert LandsInside(dst, src, q) ==> Within(p, Parent(q));
    }
  }

  /** A copy raises only where kinds clash in these two ways. */
  lemma CopyGetsThrough(dst: Tree, src: Tree)
    requires WellFormed(dst)
    requires forall p :: p in src && p in dst ==>
               SameKind(src[p], dst[p]) || (src[p].File? && p != [] && !IsDir(dst, p + [BaseName(p)]))
    ensures !CopyFails(dst, src)
  {
  }

  // ---------------------------------------------------------------------------------------
  // The drivers agree

  ghost predicate Layers(layers: seq<Tree>) {
    forall t :: t in layers ==> WellFormed(t)
  }

  /** A path has the same kind in every layer that holds it. */
  ghost predicate KindConsistent(layers: seq<Tree>) {
    forall i, j, p :: 0 <= i < j < |layers| && p in layers[i] && p in layers[j]
      ==> SameKind(layers[i][p], layers[j][p])
  }

  /** Both drivers serve the same tree for this stack. */
  ghost predicate DriversAgree(layers: seq<Tree>) {
    var copied := CopyAll(map[], layers);
    copied.Ok? && forall q :: At(copied.value, q) == LookUp(Reverse(layers), q)
  }

  lemma {:induction false} CopyAllSnoc(dst: Tree, layers: seq<Tree>, top: Tree)
    ensures CopyAll(dst, layers + [top]) ==
            match CopyAll(dst, layers)
            case Err(e) => Err(e)
            case Ok(m) => if CopyFails(m, top) then Err(MountFailed) else Ok(CopyOver(m, top))
    decreases |layers|
  {
    var all := layers + [top];
    if layers == [] {
      assert all[1..] == [];
    } else {
      assert all[0] == layers[0] && all[1..] == layers[1..] + [top];
      if !CopyFails(dst, layers[0]) {
        CopyAllSnoc(CopyOver(dst, layers[0]), layers[1..], top);
      }
    }
  }

  lemma ReverseSnoc<T>(s: seq<T>, x: T)
    ensures Reverse(s + [x]) == [x] + Reverse(s)
  {
    var r, e := Reverse(s + [x]), [x] + Reverse(s);
    forall i | 0 <= i < |r| ensures r[i] == e[i] {
      assert r[i] == (s + [x])[|s| - i];
    }
  }

  ghost predicate NoClash(m: Tree, t: Tree) {
    forall p :: p in m && p in t ==> SameKind(m[p], t[p])
  }

  lemma WayIsOpen(m: Tree, t: Tree, q: Path)
    requires WellFormed(t) && NoClash(m, t) && q in t
    ensures !Blocked(m, q)
  {
    forall a | a in Ancestors(q) ensures !IsFile(m, a) { LeadsTo(t, a, q); }
  }

  /** Where no kinds clash, copying over means overwriting. */
  lemma CopyConsistent(m: Tree, top: Tree)
    requires WellFormed(m) && WellFormed(top)
    requires NoClash(m, top)
    ensures !CopyFails(m, top)
    ensures forall q :: At(CopyOver(m, top), q) == if q in top then Present(top[q]) else At(m, q)
    ensures WellFormed(CopyOver(m, top))
  {
    var c := CopyOver(m, top);
    forall q ensures At(c, q) == if q in top then Present(top[q]) else At(m, q) {
      assert At(c, q) == CopyAt(m, top, q);
      if q in top { WayIsOpen(m, top, q); }
    }
    forall a, q | q in c && Inside(a, q) && a != [] ensures a in c && c[a] == Dir {
      assert At(c, q) == (if q in top then Present(top[q]) else At(m, q));
      assert At(c, a) == (if a in top then Present(top[a]) else At(m, a));
      if q in top { LeadsTo(top, a, q); } else { LeadsTo(m, a, q); }
    }
    assert At(c, []) == At(m, []);
  }

  /** The state of the merge over a consistent stack: kinds come from the layers. */
  ghost predicate MergeOf(m: Tree, layers: seq<Tree>) {
    && WellFormed(m)
    && (forall q :: At(m, q) == LookUp(Reverse(layers), q))
    && (forall t, p :: t in layers && p in t ==> p in m && SameKind(t[p], m[p]))
    && (forall p :: p in m ==> exists t :: t in layers && p in t && SameKind(t[p], m[p]))
  }

  lemma LookUpExtended(m: Tree, layers: seq<Tree>, top: Tree, q: Path)
    requires WellFormed(m) && At(m, q) == LookUp(Reverse(layers), q) && WellFormed(top) && NoClash(m, top)
    ensures At(CopyOver(m, top), q) == LookUp(Reverse(layers + [top]), q)
  {
    CopyConsistent(m, top);
    ReverseSnoc(layers, top);
    assert Reverse(layers + [top])[1..] == Reverse(layers);
    assert At(CopyOver(m, top), q) == if q in top then Present(top[q]) else At(m, q);
    if q in m { WayIsOpen(top, m, q); }
  }

  lemma KindsExtended(m: Tree, layers: seq<Tree>, top: Tree)
    requires MergeOf(m, layers) && WellFormed(top) && NoClash(m, top)
    ensures forall t, p :: t in layers + [top] && p in t ==>
              p in CopyOver(m, top) && SameKind(t[p], CopyOver(m, top)[p])
    ensures forall p :: p in CopyOver(m, top) ==>
              exists t :: t in layers + [top] && p in t && SameKind(t[p], CopyOver(m, top)[p])
  {
    CopyConsistent(m, top);
    var c, all := CopyOver(m, top), layers + [top];
    forall t, p | t in all && p in t ensures p in c && SameKind(t[p], c[p]) {
      assert At(c, p) == if p in top then Present(top[p]) else At(m, p);
      if t in layers { assert p in m; }
    }
    forall p | p in c ensures exists t :: t in all && p in t && SameKind(t[p], c[p]) {
      assert At(c, p) == if p in top then Present(top[p]) else At(m, p);
      if p in top {
        assert top in all;
      } else {
        var t :| t in layers && p in t && SameKind(t[p], m[p]);
        assert t in all;
      }
    }
  }

  lemma MergeExtended(m: Tree, layers: seq<Tree>, top: Tree)
    requires MergeOf(m, layers) && WellFormed(top)
    requires NoClash(m, top)
    ensures !CopyFails(m, top) && MergeOf(CopyOver(m, top), layers + [top])
  {
    CopyConsistent(m, top);
    forall q ensures At(CopyOver(m, top), q) == LookUp(Reverse(layers + [top]), q) {
      LookUpExtended(m, layers, top, q);
    }
    KindsExtended(m, layers, top);
  }

  lemma ConsistentPrefix(layers: seq<Tree>, top: Tree)
    requires KindConsistent(layers + [top])
    ensures KindConsistent(layers)
    ensures forall t, p :: t in layers && p in t && p in top ==> SameKind(t[p], top[p])
  {
    var all := layers + [top];
    forall i, j, p | 0 <= i < j < |layers| && p in layers[i] && p in layers[j]
      ensures SameKind(layers[i][p], layers[j][p])
    {
      assert all[i] == layers[i] && all[j] == layers[j];
    }
    forall t, p | t in layers && p in t && p in top ensures SameKind(t[p], top[p]) {
      var i :| 0 <= i < |layers| && layers[i] == t;
      assert all[i] == t && all[|layers|] == top;
    }
  }

  lemma MergeMeetsNoClash(below: seq<Tree>, top: Tree, m: Tree)
    requires MergeOf(m, below) && KindConsistent(below + [top])
    ensures NoClash(m, top)
  {
    ConsistentPrefix(below, top);
    forall p | p in m && p in top ensures SameKind(m[p], top[p]) {
      var t :| t in below && p in t && SameKind(t[p], m[p]);
      assert SameKind(t[p], top[p]);
    }
  }

  lemma MergeOneMore(below: seq<Tree>, top: Tree, m: Tree)
    requires CopyAll(map[], below) == Ok(m) && MergeOf(m, below)
    requires WellFormed(top) && KindConsistent(below + [top])
    ensures CopyAll(map[], below + [top]) == Ok(CopyOver(m, top)) && MergeOf(CopyOver(m, top), below + [top])
  {
    MergeMeetsNoClash(below, top, m);
    CopyAllSnoc(map[], below, top);
    MergeExtended(m, below, top);
  }

  lemma LayersPrefix(below: seq<Tree>, top: Tree)
    requires Layers(below + [top])
    ensures Layers(below) && WellFormed(top)
  {
    assert top in below + [top];
    assert forall t :: t in below ==> t in below + [top];
  }

  lemma {:induction false} ConsistentMerge(layers: seq<Tree>) returns (m: Tree)
    requires Layers(layers) && KindConsistent(layers)
    ensures CopyAll(map[], layers) == Ok(m) && MergeOf(m, layers)
    decreases |layers|
  {
    if layers == [] {
      m := map[];
      assert Reverse(layers) == [];
    } else {
      var below, top := layers[..|layers| - 1], layers[|layers| - 1];
      assert layers == below + [top];
      LayersPrefix(below, top);
      ConsistentPrefix(below, top);
      var m' := ConsistentMerge(below);
      MergeOneMore(below, top, m');
      m := CopyOver(m', top);
    }
  }

  /** A clash between a layer and the merge below it shows: the copy raises, or the drivers differ. */
  lemma ClashShows(m: Tree, below: seq<Tree>, top: Tree, p: Path)
    requires MergeOf(m, below) && WellFormed(top)
    requires p in m && p in top && !SameKind(m[p], top[p])
    requires CopyAll(map[], below) == Ok(m)
    ensures !DriversAgree(below + [top])
  {
    CopyAllSnoc(map[], below, top);
    ReverseSnoc(below, top);
    assert p != [];
    if top[p].File? && !CopyFails(m, top) {
      var c := CopyOver(m, top);
      assert !Blocked(m, p) by {
        forall a | a in Ancestors(p) ensures !IsFile(m, a) { LeadsTo(m, a, p); }
      }
      assert At(c, p) == CopyAt(m, top, p) == Present(Dir);
      assert LookUp(Reverse(below + [top]), p) == Present(top[p]);
    }
  }

  lemma {:induction false} ConsistentStacksAgree(layers: seq<Tree>, k: nat)
    requires Layers(layers) && KindConsistent(layers) && k <= |layers|
    ensures DriversAgree(layers[..k])
    decreases |layers|
  {
    if k == |layers| {
      assert layers[..k] == layers;
      var m := ConsistentMerge(layers);
    } else {
      var below, top := layers[..|layers| - 1], layers[|layers| - 1];
      assert layers == below + [top];
      LayersPrefix(below, top);
      ConsistentPrefix(below, top);
      ConsistentStacksAgree(below, k);
      assert below[..k] == layers[..k];
    }
  }

  /** A stack whose lower part is consistent and that is not consistent itself has a clash with its top. */
  lemma ClashWithTop(below: seq<Tree>, top: Tree, m: Tree) returns (p: Path)
    requires KindConsistent(below) && !KindConsistent(below + [top])
    requires forall t, q :: t in below && q in t ==> q in m && SameKind(t[q], m[q])
    ensures p in m && p in top && !SameKind(m[p], top[p])
  {
    var all := below + [top];
    assert forall n :: 0 <= n < |below| ==> below[n] == all[n];
    var i, j, q :| 0 <= i < j < |all| && q in all[i] && q in all[j] && !SameKind(all[i][q], all[j][q]);
    assert below[i] in below;
    p := q;
  }

  lemma {:induction false} AgreeingStacksConsistent(layers: seq<Tree>)
    requires Layers(layers)
    requires forall k: nat :: k <= |layers| ==> DriversAgree(layers[..k])
    ensures KindConsistent(layers)
    decreases |layers|
  {
    if layers != [] {
      var below, top := layers[..|layers| - 1], layers[|layers| - 1];
      assert layers == below + [top];
      LayersPrefix(below, top);
      forall k: nat | k <= |below| ensures DriversAgree(below[..k]) {
        assert below[..k] == layers[..k];
      }
      AgreeingStacksConsistent(below);
      var m := ConsistentMerge(below);
      if !KindConsistent(layers) {
        var p := ClashWithTop(below, top, m);
        ClashShows(m, below, top, p);
        assert layers[..|layers|] == below + [top];
      }
    }
  }

  /** For every stack: the copied tree and the kernel's lookup through the reversed list agree at every
  path, for the stack and each of its lower parts, if and only if no path changes its kind between layers. */
  lemma DriverAgreement(layers: seq<Tree>)
    requires Layers(layers)
    ensures (forall k: nat :: k <= |layers| ==> DriversAgree(layers[..k])) <==> KindConsistent(layers)
  {
    if KindConsistent(layers) {
      forall k: nat | k <= |layers| ensures DriversAgree(layers[..k]) { ConsistentStacksAgree(layers, k); }
    } else if forall k: nat :: k <= |layers| ==> DriversAgree(layers[..k]) {
      AgreeingStacksConsistent(layers);
    }
  }
}
