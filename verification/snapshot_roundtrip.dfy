/** Extracting a snapshot onto the lower tree against the overlay view of the upper directory. */
module SnapshotRoundTrip {
  import opened FileTrees
  import opened LayerExtraction
  import opened Snapshots

  /** Some directory on the way to `q` is a file, is deleted, or is opaque in the upper directory, so
  nothing of the lower tree shows at `q`. */
  ghost predicate Hidden(u: Upper, q: Path) {
    exists a :: a in Ancestors(q) && a in u && (u[a].UDir? ==> u[a].opaqueDir)
  }

  /** What the kernel's overlay shows at `q`. */
  ghost function ViewAt(lower: Tree, u: Upper, q: Path): Entry {
    if q in u then
      match u[q]
      case UFile(c) => Present(File(c))
      case UWhiteout => Absent
      case UDir(_) => Present(Dir)
    else if Hidden(u, q) then Absent
    else At(lower, q)
  }

  /** `t` is the overlay view of `u` over `lower`. */
  ghost predicate IsView(t: Tree, lower: Tree, u: Upper) {
    forall q :: At(t, q) == ViewAt(lower, u, q)
  }

  /** Exactly the upper directories whose snapshot can be extracted faithfully onto `lower`. */
  ghost predicate Faithful(lower: Tree, u: Upper) {
    // no opaque directory directly holds a regular file
    && (forall p :: p in u && u[p].UFile? && p != [] && Parent(p) != [] ==> !IsOpaque(u, Parent(p)))
    // every directory shows in the lower tree or has a regular file below it
    && (forall d :: d in u && u[d].UDir? ==>
          (At(lower, d) == Present(Dir) && !Hidden(u, d)) || exists p :: p in u && u[p].UFile? && Inside(d, p))
    // an entry that shows in the lower tree has the same kind there
    && (forall p :: p in u && p in lower && !Hidden(u, p) ==>
          (u[p].UFile? ==> lower[p].File?) && (u[p].UDir? ==> lower[p].Dir?))
  }

  // ---------------------------------------------------------------------------------------
  // What hits and fills a path

  lemma FillsOnlyUpper(u: Upper, actions: seq<Action>, q: Path)
    requires WellFormedUpper(u) && Encoding(u, actions)
    requires AnyFills(actions, q)
    ensures q in u && !u[q].UWhiteout?
    ensures exists p :: p in u && u[p].UFile? && Within(q, p) && (q == p || u[q].UDir?)
  {
    var i :| 0 <= i < |actions| && Fills(actions[i], q);
    assert actions[i] in actions;
    assert Encodes(u, actions[i]);
    if actions[i].path != q { assert Inside(q, actions[i].path); }
  }

  /** A path of the upper directory other than a whiteout is hit exactly when an opaque directory hides it. */
  lemma HitMeansHidden(u: Upper, actions: seq<Action>, q: Path)
    requires WellFormedUpper(u) && Encoding(u, actions)
    requires q in u && !u[q].UWhiteout?
    ensures AnyHits(actions, q) <==> Hidden(u, q)
  {
    if AnyHits(actions, q) {
      var i :| 0 <= i < |actions| && Hits(actions[i], q);
      assert actions[i] in actions;
      assert Encodes(u, actions[i]);
      if actions[i].Remove? {
        assert actions[i].target != q;
        assert Inside(actions[i].target, q);
      } else {
        assert actions[i].dir in Ancestors(q);
      }
    }
    if Hidden(u, q) {
      var a :| a in Ancestors(q) && a in u && (u[a].UDir? ==> u[a].opaqueDir);
      assert Clear(a) in actions;
      var i :| 0 <= i < |actions| && actions[i] == Clear(a);
      assert Hits(actions[i], q);
    }
  }

  lemma NeverFilled(u: Upper, actions: seq<Action>, q: Path)
    requires WellFormedUpper(u) && Encoding(u, actions)
    requires q !in u || u[q].UWhiteout? || (u[q].UDir? && !exists p :: p in u && u[p].UFile? && Inside(q, p))
    ensures !AnyFills(actions, q)
  {
    if AnyFills(actions, q) { FillsOnlyUpper(u, actions, q); }
  }

  // ---------------------------------------------------------------------------------------
  // Kinds agree along the whole extraction

  /** The part of an encoding still to be applied. */
  ghost predicate Remaining(u: Upper, rest: seq<Action>) {
    && WellFormedUpper(u)
    && (forall a :: a in rest ==> Encodes(u, a))
    && Ordered(rest)
  }

  /** Entries no later action deletes have the kind they have in the upper directory. */
  ghost predicate KindsAgree(u: Upper, t: Tree, rest: seq<Action>) {
    forall p :: p in u && !u[p].UWhiteout? && p in t && !AnyHits(rest, p) ==> (u[p].UFile? <==> t[p].File?)
  }

  lemma RemainingTail(u: Upper, rest: seq<Action>)
    requires Remaining(u, rest) && rest != []
    ensures Remaining(u, rest[1..]) && Encodes(u, rest[0])
    ensures forall y :: y in rest[1..] ==> InOrder(rest[0], y)
  {
    forall i, j | 0 <= i < j < |rest[1..]| ensures InOrder(rest[1..][i], rest[1..][j]) {
      assert InOrder(rest[i + 1], rest[j + 1]);
    }
    forall y | y in rest[1..] ensures InOrder(rest[0], y) {
      var j :| 0 <= j < |rest[1..]| && rest[1..][j] == y;
      assert InOrder(rest[0], rest[j + 1]);
    }
    assert rest[0] in rest;
  }

  lemma KindsStep(u: Upper, t: Tree, rest: seq<Action>)
    requires Remaining(u, rest) && rest != [] && WellFormed(t) && KindsAgree(u, t, rest)
    ensures WellFormed(Apply(t, rest[0])) && KindsAgree(u, Apply(t, rest[0]), rest[1..])
  {
    var a := rest[0];
    ApplyWellFormed(t, a);
    RemainingTail(u, rest);
    forall p | p in u && !u[p].UWhiteout? && p in Apply(t, a) && !AnyHits(rest[1..], p)
      ensures u[p].UFile? <==> Apply(t, a)[p].File?
    {
      TailUntouched(rest, p);
      assert !Hits(a, p);
      if a.Put? && p in Ancestors(a.path) {
        assert u[p].UDir?;
      }
    }
  }

  /** After an action on `x` nothing deletes a directory on the way to `x` any more. */
  lemma WayStays(u: Upper, rest: seq<Action>, x: Path, q: Path)
    requires Remaining(u, rest) && rest != []
    requires rest[0] == Clear(x) || (x != [] && rest[0].Put? && rest[0].path == x)
    requires q in u && !u[q].UWhiteout?
    requires if rest[0].Clear? then Within(q, x) else Inside(q, x)
    ensures !AnyHits(rest, q)
  {
    RemainingTail(u, rest);
    if AnyHits(rest[1..], q) {
      var i :| 0 <= i < |rest[1..]| && Hits(rest[1..][i], q);
      var y := rest[1..][i];
      assert y in rest[1..] && y in rest;
      assert Encodes(u, y) && InOrder(rest[0], y);
      if y.Remove? && y.target != q {
        assert Inside(y.target, q);
      }
    }
    TailUntouched(rest, q);
  }

  lemma {:induction false} NothingAborts(u: Upper, t: Tree, rest: seq<Action>)
    requires Remaining(u, rest) && WellFormed(t) && KindsAgree(u, t, rest)
    ensures Extract(t, rest).done
    decreases |rest|
  {
    if rest != [] {
      RemainingTail(u, rest);
      if rest[0].Clear? {
        WayStays(u, rest, rest[0].dir, rest[0].dir);
      }
      KindsStep(u, t, rest);
      NothingAborts(u, Apply(t, rest[0]), rest[1..]);
    }
  }

  // ---------------------------------------------------------------------------------------
  // Files and the directories leading to them arrive

  /** A file outside opaque directories is extracted when its turn comes, and stays. */
  lemma PutSucceeds(u: Upper, t: Tree, rest: seq<Action>, p: Path)
    requires Remaining(u, rest) && WellFormed(t) && KindsAgree(u, t, rest)
    requires rest != [] && rest[0].Put? && rest[0].path == p && p != []
    requires Parent(p) != [] ==> !IsOpaque(u, Parent(p))
    ensures Extractable(t, p, rest[0].node)
    ensures !AnyHits(rest[1..], p)
    ensures forall a :: a in Ancestors(p) ==> !AnyHits(rest[1..], a)
  {
    RemainingTail(u, rest);
    TailUntouched(rest, p);
    if AnyHits(rest[1..], p) {
      var i :| 0 <= i < |rest[1..]| && Hits(rest[1..][i], p);
      var y := rest[1..][i];
      assert y in rest[1..] && y in rest;
      assert Encodes(u, y) && InOrder(rest[0], y);
      if y.Remove? && y.target != p {
        assert Inside(y.target, p);
      } else if y.Clear? {
        assert Within(y.dir, Parent(p));
      }
    }
    forall a | a in Ancestors(p) ensures !AnyHits(rest, a) && !AnyHits(rest[1..], a) && !IsFile(t, a) {
      assert Inside(a, p) && u[a].UDir?;
      WayStays(u, rest, p, a);
      TailUntouched(rest, a);
    }
  }

  lemma {:induction false} FileArrives(u: Upper, t: Tree, rest: seq<Action>, p: Path)
    requires Remaining(u, rest) && WellFormed(t) && KindsAgree(u, t, rest)
    requires p in u && u[p].UFile? && p != [] && Put(p, File(u[p].content)) in rest
    requires Parent(p) != [] ==> !IsOpaque(u, Parent(p))
    ensures At(Extract(t, rest).tree, p) == Present(File(u[p].content))
    ensures forall a :: a in Ancestors(p) ==> At(Extract(t, rest).tree, a) == Present(Dir)
    decreases |rest|
  {
    RemainingTail(u, rest);
    KindsStep(u, t, rest);
    NothingAborts(u, t, rest);
    var t' := Apply(t, rest[0]);
    if rest[0] == Put(p, File(u[p].content)) {
      PutSucceeds(u, t, rest, p);
      forall a | a in rest[1..] && a.Put? && a.path == p ensures a.node == File(u[p].content) {
        assert Encodes(u, a);
      }
      UnhitFileKept(t', rest[1..], p, u[p].content);
      forall a | a in Ancestors(p) ensures At(Extract(t, rest).tree, a) == Present(Dir) {
        assert !IsFile(t, a);
        UnhitDirectoryKept(t', rest[1..], a);
      }
    } else {
      FileArrives(u, t', rest[1..], p);
    }
  }

  lemma FaithfulStart(lower: Tree, u: Upper, actions: seq<Action>)
    requires WellFormed(lower) && WellFormedUpper(u) && Encoding(u, actions)
    requires Faithful(lower, u)
    ensures Remaining(u, actions) && KindsAgree(u, lower, actions)
  {
    forall p | p in u && !u[p].UWhiteout? && p in lower && !AnyHits(actions, p)
      ensures u[p].UFile? <==> lower[p].File?
    {
      HitMeansHidden(u, actions, p);
    }
  }

  /** A deletion or an opaque ancestor hits every path it hides; a file ancestor leaves none. */
  lemma HiddenIsAbsent(lower: Tree, u: Upper, actions: seq<Action>, q: Path)
    requires WellFormed(lower) && WellFormedUpper(u) && Encoding(u, actions)
    requires Faithful(lower, u) && q !in u && Hidden(u, q)
    ensures q !in Extract(lower, actions).tree
  {
    FaithfulStart(lower, u, actions);
    NothingAborts(u, lower, actions);
    ExtractWellFormed(lower, actions);
    var a :| a in Ancestors(q) && a in u && (u[a].UDir? ==> u[a].opaqueDir);
    if u[a].UFile? {
      FileArrives(u, lower, actions, a);
    } else {
      var act := if u[a].UDir? then Clear(a) else Remove(a);
      assert act in actions;
      var i :| 0 <= i < |actions| && actions[i] == act;
      assert Hits(actions[i], q);
      NeverFilled(u, actions, q);
      UnfilledPath(lower, actions, q);
    }
  }

  lemma FaithfulGivesView(lower: Tree, u: Upper, actions: seq<Action>, q: Path)
    requires WellFormed(lower) && WellFormedUpper(u) && Encoding(u, actions)
    requires Faithful(lower, u)
    ensures At(Extract(lower, actions).tree, q) == ViewAt(lower, u, q)
  {
    FaithfulStart(lower, u, actions);
    NothingAborts(u, lower, actions);
    if q in u && u[q].UFile? {
      FileArrives(u, lower, actions, q);
    } else if q in u && u[q].UDir? && exists p :: p in u && u[p].UFile? && Inside(q, p) {
      var p :| p in u && u[p].UFile? && Inside(q, p);
      FileArrives(u, lower, actions, p);
      assert q in Ancestors(p);
    } else {
      NeverFilled(u, actions, q);
      UnfilledPath(lower, actions, q);
      if q in u && u[q].UDir? {
        HitMeansHidden(u, actions, q);
      } else if q in u {
        assert Remove(q) in actions;
        var i :| 0 <= i < |actions| && actions[i] == Remove(q);
        assert Hits(actions[i], q);
      } else if Hidden(u, q) {
        HiddenIsAbsent(lower, u, actions, q);
      } else {
        HitElsewhereIsHidden(u, actions, q);
      }
    }
  }

  /** Only what the upper directory hides is hit. */
  lemma HitElsewhereIsHidden(u: Upper, actions: seq<Action>, q: Path)
    requires WellFormedUpper(u) && Encoding(u, actions) && q !in u
    ensures AnyHits(actions, q) ==> Hidden(u, q)
  {
    if AnyHits(actions, q) {
      var i :| 0 <= i < |actions| && Hits(actions[i], q);
      assert actions[i] in actions;
      assert Encodes(u, actions[i]);
      var a := if actions[i].Clear? then actions[i].dir else actions[i].target;
      assert a in u && a != q && a in Ancestors(q);
    }
  }

  // ---------------------------------------------------------------------------------------
  // Every other snapshot goes wrong

  lemma SplitAt(t: Tree, actions: seq<Action>, k: nat)
    requires k < |actions| && Extract(t, actions).done
    ensures Extract(t, actions[..k]).done
    ensures !Aborts(Extract(t, actions[..k]).tree, actions[k])
    ensures Extract(t, actions) == Extract(Apply(Extract(t, actions[..k]).tree, actions[k]), actions[k + 1..])
  {
    assert actions == actions[..k] + actions[k..];
    ExtractConcat(t, actions[..k], actions[k..]);
    assert actions[k..][0] == actions[k] && actions[k..][1..] == actions[k + 1..];
  }

  /** A regular file directly in an opaque directory is deleted by the marker written after it. */
  lemma OpaqueLosesFile(lower: Tree, u: Upper, actions: seq<Action>, p: Path)
    requires WellFormed(lower) && WellFormedUpper(u) && Encoding(u, actions)
    requires Extract(lower, actions).done
    requires p in u && u[p].UFile? && p != [] && Parent(p) != [] && IsOpaque(u, Parent(p))
    ensures p !in Extract(lower, actions).tree
  {
    assert Clear(Parent(p)) in actions;
    var k :| 0 <= k < |actions| && actions[k] == Clear(Parent(p));
    SplitAt(lower, actions, k);
    var later := actions[k + 1..];
    if AnyFills(later, p) {
      var i :| 0 <= i < |later| && Fills(later[i], p);
      assert later[i] == actions[k + 1 + i];
      assert Encodes(u, actions[k + 1 + i]) && InOrder(actions[k], actions[k + 1 + i]);
      if later[i].path != p { assert Inside(p, later[i].path); }
    }
    assert Inside(Parent(p), p);
    UnfilledPathStaysAbsent(Apply(Extract(lower, actions[..k]).tree, actions[k]), later, p);
  }

  /** No member is written for a directory, so one without files below it depends on the lower tree. */
  lemma EmptyDirectoryLost(lower: Tree, u: Upper, actions: seq<Action>, d: Path)
    requires WellFormed(lower) && WellFormedUpper(u) && Encoding(u, actions)
    requires Extract(lower, actions).done
    requires d in u && u[d].UDir? && !exists p :: p in u && u[p].UFile? && Inside(d, p)
    requires At(lower, d) != Present(Dir) || Hidden(u, d)
    ensures At(Extract(lower, actions).tree, d) != Present(Dir)
  {
    NeverFilled(u, actions, d);
    UnfilledPath(lower, actions, d);
    HitMeansHidden(u, actions, d);
  }

  /** An entry that shows with another kind in the lower tree keeps that kind. */
  lemma {:induction false} OtherKindStays(lower: Tree, u: Upper, actions: seq<Action>, p: Path)
    requires WellFormed(lower) && WellFormedUpper(u) && Encoding(u, actions)
    requires Extract(lower, actions).done
    requires p in u && p in lower && !Hidden(u, p)
    requires (u[p].UFile? && lower[p].Dir?) || (u[p].UDir? && lower[p].File?)
    ensures At(Extract(lower, actions).tree, p) == Present(lower[p])
  {
    HitMeansHidden(u, actions, p);
    if lower[p].Dir? {
      UnhitDirectoryKept(lower, actions, p);
    } else {
      forall a | a in actions ensures !(a.Put? && a.path == p) {
        assert Encodes(u, a);
      }
      UnhitFileKept(lower, actions, p, lower[p].content);
    }
  }

  lemma ViewNeedsFaithful(lower: Tree, u: Upper, actions: seq<Action>)
    requires WellFormed(lower) && WellFormedUpper(u) && Encoding(u, actions)
    requires Extract(lower, actions).done && IsView(Extract(lower, actions).tree, lower, u)
    ensures Faithful(lower, u)
  {
    var t := Extract(lower, actions).tree;
    forall p | p in u && u[p].UFile? && p != [] && Parent(p) != [] ensures !IsOpaque(u, Parent(p)) {
      assert At(t, p) == ViewAt(lower, u, p);
      if IsOpaque(u, Parent(p)) { OpaqueLosesFile(lower, u, actions, p); }
    }
    forall d | d in u && u[d].UDir?
      ensures (At(lower, d) == Present(Dir) && !Hidden(u, d)) || exists p :: p in u && u[p].UFile? && Inside(d, p)
    {
      assert At(t, d) == ViewAt(lower, u, d);
      if !exists p :: p in u && u[p].UFile? && Inside(d, p) {
        if At(lower, d) != Present(Dir) || Hidden(u, d) { EmptyDirectoryLost(lower, u, actions, d); }
      }
    }
    forall p | p in u && p in lower && !Hidden(u, p)
      ensures (u[p].UFile? ==> lower[p].File?) && (u[p].UDir? ==> lower[p].Dir?)
    {
      assert At(t, p) == ViewAt(lower, u, p);
      if (u[p].UFile? && lower[p].Dir?) || (u[p].UDir? && lower[p].File?) {
        OtherKindStays(lower, u, actions, p);
      }
    }
  }

  /** For every lower tree, upper directory and listing order: extracting the snapshot onto the lower
  tree completes and gives exactly the overlay view if and only if the upper directory is faithful. */
  lemma SnapshotExtractIsOverlayView(
      lower: Tree, u: Upper, listing: Path -> seq<Name>, roots: seq<Path>)
    requires WellFormed(lower) && WellFormedUpper(u) && PlainNames(u)
    requires Lists(u, listing) && TopDown(u, roots)
    ensures var e := Extract(lower, Actions(Walk(u, listing, roots)));
            (e.done && IsView(e.tree, lower, u)) <==> Faithful(lower, u)
  {
    var actions := Actions(Walk(u, listing, roots));
    var e := Extract(lower, actions);
    WalkIsEncoding(u, listing, roots);
    if e.done && IsView(e.tree, lower, u) {
      ViewNeedsFaithful(lower, u, actions);
    }
    if Faithful(lower, u) {
      FaithfulStart(lower, u, actions);
      NothingAborts(u, lower, actions);
      forall q ensures At(e.tree, q) == ViewAt(lower, u, q) {
        FaithfulGivesView(lower, u, actions, q);
      }
    }
  }

  /** The order matters: one opaque directory over a lower directory of the same name, holding one new
  file, is extracted as an empty directory. */
  lemma OpaqueMarkerWrittenLate(d: Name, f: Name, c: Content)
    requires PlainName(d) && PlainName(f)
    ensures var u: Upper := map[[d] := UDir(true), [d, f] := UFile(c)];
            var lower: Tree := map[[d] := Dir];
            && !Faithful(lower, u)
            && ViewAt(lower, u, [d, f]) == Present(File(c))
            && forall listing, roots :: Lists(u, listing) && TopDown(u, roots) ==>
                 [d, f] !in Extract(lower, Actions(Walk(u, listing, roots))).tree
  {
    var u: Upper := map[[d] := UDir(true), [d, f] := UFile(c)];
    var lower: Tree := map[[d] := Dir];
    assert Parent([d, f]) == [d];
    forall listing, roots | Lists(u, listing) && TopDown(u, roots)
      ensures [d, f] !in Extract(lower, Actions(Walk(u, listing, roots))).tree
    {
      forall p | p in u && !u[p].UDir? && p != [] ensures PlainName(BaseName(p)) {
        assert p == [d, f];
      }
      assert WellFormedUpper(u) by {
        forall a, q | q in u && Inside(a, q) && a != [] ensures a in u && u[a].UDir? {
          assert q == [d, f] && a == [d];
        }
      }
      WalkIsEncoding(u, listing, roots);
      var actions := Actions(Walk(u, listing, roots));
      forall i | 0 <= i < |actions| && actions[i].Clear? ensures actions[i] == Clear([d]) {
        assert actions[i] in actions;
        assert Encodes(u, actions[i]);
      }
      OneDirectoryNeverAborts(lower, actions, d);
      OpaqueLosesFile(lower, u, actions, [d, f]);
    }
  }

  lemma {:induction false} OneDirectoryNeverAborts(t: Tree, actions: seq<Action>, d: Name)
    requires WellFormed(t) && At(t, [d]) == Present(Dir)
    requires forall a :: a in actions ==> (a.Clear? ==> a.dir == [d]) && !Hits(a, [d])
    ensures Extract(t, actions).done
    decreases |actions|
  {
    if actions != [] {
      assert actions[0] in actions;
      ApplyWellFormed(t, actions[0]);
      OneDirectoryNeverAborts(Apply(t, actions[0]), actions[1..], d);
    }
  }
}
