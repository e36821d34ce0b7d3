/** Extracting every layer into a directory of its own and merging the directories, against extracting
all layers in order into one directory. */
module Flattening {
  import opened Outcomes
  import opened FileTrees
  import opened LayerExtraction
  import opened LayerRestart
  import opened LayerStores
  import opened OverlayDrivers

  // ---------------------------------------------------------------------------------------
  // One layer over a tree

  /** `s` is `e` written over `f`. */
  ghost predicate Over(s: Tree, f: Tree, e: Tree) {
    forall q :: At(s, q) == if q in e then Present(e[q]) else At(f, q)
  }

  /** What is left of `f` once the whiteouts among `actions` have been applied. */
  ghost function Survivors(f: Tree, actions: seq<Action>): Tree {
    map q | q in f && !AnyHits(actions, q) :: f[q]
  }

  /** Extracting a layer over a tree writes its clean tree over what its whiteouts leave of that tree,
  wherever the two agree on kinds; how the layer gets there does not matter. */
  lemma {:induction false} ExtractOver(f: Tree, layer: seq<Action>)
    requires WellFormed(f) && Extract(f, layer).done && Extract(map[], layer).done
    requires NoClash(Survivors(f, layer), Clean(layer))
    ensures Over(Extract(f, layer).tree, Survivors(f, layer), Clean(layer))
  {
    var s, e, under := Extract(f, layer).tree, Clean(layer), Survivors(f, layer);
    ExtractWellFormed(map[], layer);
    assert Kinds(f, layer, e, under);
    assert layer + [] == layer;
    CatchingAfter(map[], f, layer, [], e, under);
    forall q ensures At(s, q) == if q in e then Present(e[q]) else At(under, q) {
      if q in under { KeptKind(f, layer, q); }
    }
  }

  // ---------------------------------------------------------------------------------------
  // Stacks of layers

  type Stack = seq<seq<Action>>

  /** The tree one clean extraction of a layer leaves. */
  function Clean(layer: seq<Action>): Tree {
    Extract(map[], layer).tree
  }

  /** All layers extracted in order into one directory. */
  function Flat(layers: Stack): Tree {
    if layers == [] then map[]
    else Extract(Flat(layers[..|layers| - 1]), layers[|layers| - 1]).tree
  }

  /** The directories `apply_layers` leaves, each with its sentinel. */
  function Separate(layers: Stack): seq<Tree> {
    if layers == [] then [] else Separate(layers[..|layers| - 1]) + [Touch(Clean(layers[|layers| - 1]))]
  }

  /** A layer that can be extracted, alone and onto `f`, and leaves the sentinel's name alone. */
  ghost predicate Stackable(f: Tree, layer: seq<Action>) {
    && Extract(map[], layer).done
    && Extract(f, layer).done
    && !AnyFills(layer, SENTINEL)
  }

  ghost predicate StackableAll(layers: Stack) {
    forall k :: 0 <= k < |layers| ==> Stackable(Flat(layers[..k]), layers[k])
  }

  /** Merging the separate directories gives the flat tree, apart from the sentinel. */
  ghost predicate MergesToFlat(layers: Stack) {
    var merged := CopyAll(map[], Separate(layers));
    merged.Ok? && forall q :: q != SENTINEL ==> At(merged.value, q) == At(Flat(layers), q)
  }

  /** Whatever the layer's whiteouts hit in `f`, the layer itself puts back. */
  ghost predicate ReachesNothing(f: Tree, layer: seq<Action>) {
    forall q :: q in f && AnyHits(layer, q) ==> q in Clean(layer)
  }

  ghost predicate ReachNothing(layers: Stack) {
    forall k :: 0 <= k < |layers| ==> ReachesNothing(Flat(layers[..k]), layers[k])
  }

  /** A merge of separate directories next to the flat tree of the same layers. */
  ghost predicate BesideFlat(m: Tree, f: Tree) {
    && WellFormed(m) && WellFormed(f) && SENTINEL !in f
    && (SENTINEL in m ==> m[SENTINEL].File?)
    && forall q :: q != SENTINEL ==> At(m, q) == At(f, q)
  }

  lemma FlatStep(f: Tree, layer: seq<Action>)
    requires WellFormed(f) && SENTINEL !in f && Stackable(f, layer) && NoClash(f, Clean(layer))
    ensures Over(Extract(f, layer).tree, Survivors(f, layer), Clean(layer))
    ensures WellFormed(Extract(f, layer).tree) && SENTINEL !in Extract(f, layer).tree
    ensures WellFormed(Touch(Clean(layer))) && SENTINEL !in Clean(layer)
  {
    ExtractOver(f, layer);
    ExtractWellFormed(f, layer);
    UnfilledPathStaysAbsent(f, layer, SENTINEL);
    LayerDirectoryWellFormed(layer);
  }

  lemma LayerDirectoryWellFormed(layer: seq<Action>)
    requires !AnyFills(layer, SENTINEL)
    ensures WellFormed(Touch(Clean(layer))) && SENTINEL !in Clean(layer)
  {
    ExtractWellFormed(map[], layer);
    UnfilledPathStaysAbsent(map[], layer, SENTINEL);
    TouchWellFormed(Clean(layer));
  }

  /** One more layer whose kinds agree: the merge stays beside the flat tree exactly when the layer's
  whiteouts reach nothing that it does not put back. */
  lemma {:induction false} MergeStep(m: Tree, f: Tree, layer: seq<Action>)
    requires BesideFlat(m, f) && Stackable(f, layer) && NoClash(m, Touch(Clean(layer)))
    ensures !CopyFails(m, Touch(Clean(layer)))
    ensures BesideFlat(CopyOver(m, Touch(Clean(layer))), Extract(f, layer).tree) <==> ReachesNothing(f, layer)
    ensures (forall q :: q != SENTINEL ==>
               At(CopyOver(m, Touch(Clean(layer))), q) == At(Extract(f, layer).tree, q)) ==> ReachesNothing(f, layer)
  {
    var e, d, s := Clean(layer), Touch(Clean(layer)), Extract(f, layer).tree;
    LayerDirectoryWellFormed(layer);
    forall p | p in f && p in e ensures SameKind(f[p], e[p]) {
      assert p != SENTINEL && At(m, p) == At(f, p);
    }
    FlatStep(f, layer);
    CopyConsistent(m, d);
    var c := CopyOver(m, d);
    forall q | q != SENTINEL
      ensures At(c, q) == At(s, q) <==> !(q in f && AnyHits(layer, q) && q !in e)
    {
      assert At(c, q) == if q in d then Present(d[q]) else At(m, q);
      assert At(m, q) == At(f, q);
      assert At(s, q) == if q in e then Present(e[q]) else At(Survivors(f, layer), q);
    }
    assert At(c, SENTINEL) == Present(d[SENTINEL]);
    if ReachesNothing(f, layer) {
      forall q | q != SENTINEL ensures At(c, q) == At(s, q) {
        assert q in f && AnyHits(layer, q) ==> q in e;
      }
    }
    if forall q :: q != SENTINEL ==> At(c, q) == At(s, q) {
      forall q | q in f && AnyHits(layer, q) ensures q in e {
        assert q != SENTINEL && At(c, q) == At(s, q);
      }
    }
  }

  lemma StackSnoc(below: Stack, layer: seq<Action>)
    ensures Flat(below + [layer]) == Extract(Flat(below), layer).tree
    ensures Separate(below + [layer]) == Separate(below) + [Touch(Clean(layer))]
    ensures forall k :: 0 <= k <= |below| ==> (below + [layer])[..k] == below[..k]
    ensures StackableAll(below + [layer]) <==> StackableAll(below) && Stackable(Flat(below), layer)
  {
    var all := below + [layer];
    assert all[..|below|] == below && all[|below|] == layer && below[..|below|] == below;
    forall k | 0 <= k <= |below| ensures all[..k] == below[..k] {}
    if StackableAll(all) {
      assert Stackable(Flat(all[..|below|]), all[|below|]);
      forall k | 0 <= k < |below| ensures Stackable(Flat(below[..k]), below[k]) {
        assert Stackable(Flat(all[..k]), all[k]);
      }
    }
  }

  lemma {:induction false} SeparateLayers(layers: Stack)
    requires StackableAll(layers)
    ensures |Separate(layers)| == |layers| && Layers(Separate(layers))
    decreases |layers|
  {
    if layers != [] {
      var below, layer := layers[..|layers| - 1], layers[|layers| - 1];
      assert layers == below + [layer];
      StackSnoc(below, layer);
      SeparateLayers(below);
      LayerDirectoryWellFormed(layer);
    }
  }

  lemma {:induction false} SeparatePrefix(layers: Stack, k: nat)
    requires k <= |layers|
    ensures |Separate(layers)| == |layers| && Separate(layers[..k]) == Separate(layers)[..k]
    decreases |layers|
  {
    if k == |layers| {
      assert layers[..k] == layers;
      if layers != [] { SeparatePrefix(layers[..k - 1], 0); }
    } else {
      var below := layers[..|layers| - 1];
      SeparatePrefix(below, k);
      assert below[..k] == layers[..k];
    }
  }

  lemma ReachNothingSnoc(below: Stack, layer: seq<Action>)
    ensures ReachNothing(below + [layer]) <==> ReachNothing(below) && ReachesNothing(Flat(below), layer)
  {
    var all := below + [layer];
    assert all[..|below|] == below && all[|below|] == layer;
    forall k | 0 <= k < |below| ensures all[..k] == below[..k] && all[k] == below[k] {}
    if ReachNothing(all) {
      assert ReachesNothing(Flat(all[..|below|]), all[|below|]);
      forall k | 0 <= k < |below| ensures ReachesNothing(Flat(below[..k]), below[k]) {
        assert ReachesNothing(Flat(all[..k]), all[k]);
      }
    }
  }

  lemma {:induction false} QuietStackMerges(layers: Stack) returns (m: Tree)
    requires StackableAll(layers) && KindConsistent(Separate(layers)) && ReachNothing(layers)
    ensures CopyAll(map[], Separate(layers)) == Ok(m) && MergeOf(m, Separate(layers)) && BesideFlat(m, Flat(layers))
    decreases |layers|
  {
    if layers == [] {
      m := map[];
      assert Reverse(Separate(layers)) == [];
    } else {
      var below, layer := layers[..|layers| - 1], layers[|layers| - 1];
      assert layers == below + [layer];
      StackSnoc(below, layer);
      ReachNothingSnoc(below, layer);
      ConsistentPrefix(Separate(below), Touch(Clean(layer)));
      var m' := QuietStackMerges(below);
      MergeMeetsNoClash(Separate(below), Touch(Clean(layer)), m');
      MergeStep(m', Flat(below), layer);
      LayerDirectoryWellFormed(layer);
      MergeOneMore(Separate(below), Touch(Clean(layer)), m');
      m := CopyOver(m', Touch(Clean(layer)));
    }
  }

  lemma {:induction false} MergingStackIsQuiet(layers: Stack)
    requires StackableAll(layers) && KindConsistent(Separate(layers))
    requires forall k :: 0 <= k <= |layers| ==> MergesToFlat(layers[..k])
    ensures ReachNothing(layers)
    decreases |layers|
  {
    if layers != [] {
      var below, layer := layers[..|layers| - 1], layers[|layers| - 1];
      assert layers == below + [layer] && layers[..|layers|] == layers;
      StackSnoc(below, layer);
      ConsistentPrefix(Separate(below), Touch(Clean(layer)));
      forall k | 0 <= k <= |below| ensures MergesToFlat(below[..k]) {
        assert MergesToFlat(layers[..k]);
      }
      MergingStackIsQuiet(below);
      var m := QuietStackMerges(below);
      MergeMeetsNoClash(Separate(below), Touch(Clean(layer)), m);
      assert MergesToFlat(layers[..|layers|]);
      CopyAllSnoc(map[], Separate(below), Touch(Clean(layer)));
      MergeStep(m, Flat(below), layer);
      ReachNothingSnoc(below, layer);
    }
  }

  lemma PrefixQuiet(layers: Stack, n: nat)
    requires n <= |layers| && StackableAll(layers) && ReachNothing(layers)
    ensures StackableAll(layers[..n]) && ReachNothing(layers[..n])
  {
    forall k | 0 <= k < n
      ensures Stackable(Flat(layers[..n][..k]), layers[..n][k])
      ensures ReachesNothing(Flat(layers[..n][..k]), layers[..n][k])
    {
      assert layers[..n][..k] == layers[..k];
      assert Stackable(Flat(layers[..k]), layers[k]) && ReachesNothing(Flat(layers[..k]), layers[k]);
    }
  }

  lemma KindConsistentPrefix(dirs: seq<Tree>, n: nat)
    requires n <= |dirs| && KindConsistent(dirs)
    ensures KindConsistent(dirs[..n])
  {
  }

  /** The two mount drivers agree on the separate directories, and what they serve is the flat tree. */
  ghost predicate ServesFlat(layers: Stack) {
    DriversAgree(Separate(layers)) && MergesToFlat(layers)
  }

  /** For every stack that can be extracted: both mount drivers serve, from one directory for each layer, the
  tree of extracting all layers in order into one directory, for the stack and each of its lower parts, if
  and only if no path changes its kind between the directories and every layer puts back whatever its
  whiteouts hit in the layers below. */
  lemma {:induction false} FlatteningAgrees(layers: Stack)
    requires StackableAll(layers)
    ensures (forall k :: 0 <= k <= |layers| ==> ServesFlat(layers[..k]))
            <==> KindConsistent(Separate(layers)) && ReachNothing(layers)
  {
    SeparateLayers(layers);
    DriverAgreement(Separate(layers));
    if KindConsistent(Separate(layers)) && ReachNothing(layers) {
      forall n | 0 <= n <= |layers| ensures ServesFlat(layers[..n]) {
        PrefixQuiet(layers, n);
        SeparatePrefix(layers, n);
        KindConsistentPrefix(Separate(layers), n);
        assert DriversAgree(Separate(layers)[..n]);
        var m := QuietStackMerges(layers[..n]);
      }
    }
    if forall k :: 0 <= k <= |layers| ==> ServesFlat(layers[..k]) {
      forall k: nat | k <= |layers| ensures DriversAgree(Separate(layers)[..k]) && MergesToFlat(layers[..k]) {
        assert ServesFlat(layers[..k]);
        SeparatePrefix(layers, k);
      }
      MergingStackIsQuiet(layers);
    }
  }

  /** A layer that replaces a file by a directory puts back what it hits, and can be extracted alone and in
  order; but the copying driver raises. Kinds must agree as well. */
  lemma TypeChangeRaises(p: Name, x: Name, c: Content)
    requires p != ".extracted"
    ensures var l1, l2 := [Put([p], File(c))], [Remove([p]), Put([p, x], File(c))];
            && StackableAll([l1, l2]) && ReachNothing([l1, l2])
            && Flat([l1, l2]) == Clean(l2) == map[[p] := Dir, [p, x] := File(c)]
            && CopyAll(map[], Separate([l1, l2])).Err?
            && !KindConsistent(Separate([l1, l2]))
  {
    TypeChangeStackable(p, x, c);
    TypeChangeClashes(p, x, c);
  }

  lemma TypeChangeStackable(p: Name, x: Name, c: Content)
    requires p != ".extracted"
    ensures var l1, l2 := [Put([p], File(c))], [Remove([p]), Put([p, x], File(c))];
            && StackableAll([l1, l2]) && ReachNothing([l1, l2])
            && Flat([l1, l2]) == Clean(l2) == map[[p] := Dir, [p, x] := File(c)]
  {
    var l1, l2 := [Put([p], File(c))], [Remove([p]), Put([p, x], File(c))];
    var none: Stack := [];
    assert [l1] + [l2] == [l1, l2] && none + [l1] == [l1];
    OneFileMerged(p, c);
    OneFile(p, c);
    ReplacedByDirectory(p, x, c);
    StackSnoc([l1], l2);
    ReachNothingSnoc(none, l1);
    ReachNothingSnoc([l1], l2);
  }

  lemma TypeChangeClashes(p: Name, x: Name, c: Content)
    requires p != ".extracted"
    ensures var l1, l2 := [Put([p], File(c))], [Remove([p]), Put([p, x], File(c))];
            CopyAll(map[], Separate([l1, l2])).Err? && !KindConsistent(Separate([l1, l2]))
  {
    var l1, l2 := [Put([p], File(c))], [Remove([p]), Put([p, x], File(c))];
    var f, e: Tree := map[[p] := File(c)], map[[p] := Dir, [p, x] := File(c)];
    OneFileMerged(p, c);
    OneFile(p, c);
    ReplacedByDirectory(p, x, c);
    assert [l1] + [l2] == [l1, l2];
    StackSnoc([l1], l2);
    CopyAllSnoc(map[], Separate([l1]), Touch(e));
    var m := CopyOver(map[], Touch(Clean(l1)));
    assert At(m, [p]) == At(f, [p]);
    assert CopyFails(m, Touch(e)) by { assert [p] in Touch(e) && Touch(e)[[p]] == Dir; }
    SeparatePrefix([l1], 1);
    var dirs := Separate([l1, l2]);
    assert dirs == Separate([l1]) + [Touch(e)] && Separate([l1])[0] == Touch(f);
    assert dirs[0][[p]] == File(c) && dirs[1][[p]] == Dir;
  }

  lemma ReplacedByDirectory(p: Name, x: Name, c: Content)
    requires p != ".extracted"
    ensures var f, l2 := map[[p] := File(c)], [Remove([p]), Put([p, x], File(c))];
            var e := map[[p] := Dir, [p, x] := File(c)];
            && Extract(f, l2) == Extract(map[], l2) == Extraction(true, e)
            && Stackable(f, l2) && ReachesNothing(f, l2)
  {
    var f: Tree := map[[p] := File(c)];
    var l2 := [Remove([p]), Put([p, x], File(c))];
    assert Ancestors([p, x]) == {[p]} by {
      forall a ensures a in Ancestors([p, x]) <==> a == [p] {
        if a != [] && Inside(a, [p, x]) { assert |a| == 1 && a[0] == p; }
      }
    }
    assert RemoveSubtree(f, [p]) == RemoveSubtree(map[], [p]) == map[];
    assert l2[1..] == [Put([p, x], File(c))];
    ExtractOne(map[], l2[1]);
    assert Create(map[], [p, x], File(c)) == map[[p] := Dir, [p, x] := File(c)];
    assert [p, x][..1] == [p] && [p] != SENTINEL;
    forall i | 0 <= i < |l2| ensures !Fills(l2[i], SENTINEL) {}
  }

  /** A whiteout cannot reach the directory of a lower layer: the file it deletes is still there after
  the merge. */
  lemma WhiteoutStaysInItsLayer(name: Name, c: Content)
    requires name != ".extracted"
    ensures var layers := [[Put([name], File(c))], [Remove([name])]];
            && StackableAll(layers)
            && [name] !in Flat(layers)
            && CopyAll(map[], Separate(layers)).Ok?
            && At(CopyAll(map[], Separate(layers)).value, [name]) == Present(File(c))
            && !ReachesNothing(Flat(layers[..1]), layers[1])
  {
    var l1, l2 := [Put([name], File(c))], [Remove([name])];
    var f: Tree := map[[name] := File(c)];
    var m := CopyOver(map[], Touch(Clean(l1)));
    assert [l1] + [l2] == [l1, l2] && [l1, l2][..1] == [l1];
    OneFileMerged(name, c);
    RemovalOf(name, c);
    StackSnoc([l1], l2);
    CopyAllSnoc(map[], Separate([l1]), Touch(Clean(l2)));
    MergeStep(m, f, l2);
    FlatStep(f, l2);
    CopyConsistent(m, Touch(Clean(l2)));
    assert At(m, [name]) == At(f, [name]);
    assert [name] !in Touch(Clean(l2));
    assert Hits(l2[0], [name]);
  }

  lemma ExtractOne(t: Tree, a: Action)
    requires !Aborts(t, a)
    ensures Extract(t, [a]) == Extraction(true, Apply(t, a))
  {
    assert [a][1..] == [];
    assert Extract(t, [a]) == Extract(Apply(t, a), []);
  }

  lemma CreateFirst(name: Name, c: Content)
    ensures Apply(map[], Put([name], File(c))) == map[[name] := File(c)]
  {
    assert Ancestors([name]) == {};
  }

  lemma OneFile(name: Name, c: Content)
    requires name != ".extracted"
    ensures var l1 := [Put([name], File(c))];
            && Clean(l1) == map[[name] := File(c)] && Flat([l1]) == Clean(l1)
            && Stackable(map[], l1) && ReachesNothing(map[], l1)
  {
    var l1 := [Put([name], File(c))];
    var none: Stack := [];
    assert [l1][..0] == none && Flat(none) == map[];
    ExtractOne(map[], l1[0]);
    CreateFirst(name, c);
    assert [name] != SENTINEL;
    forall a | Fills(l1[0], a) ensures a == [name] {}
  }

  lemma OneFileMerged(name: Name, c: Content)
    requires name != ".extracted"
    ensures var l1 := [Put([name], File(c))];
            var m := CopyOver(map[], Touch(Clean(l1)));
            && StackableAll([l1])
            && Flat([l1]) == map[[name] := File(c)]
            && CopyAll(map[], Separate([l1])) == Ok(m)
            && BesideFlat(m, Flat([l1]))
  {
    var l1 := [Put([name], File(c))];
    OneFile(name, c);
    var none: Stack := [];
    assert [l1][..0] == none && Flat(none) == map[] && Separate(none) == [];
    MergeStep(map[], map[], l1);
    CopyAllSnoc(map[], [], Touch(Clean(l1)));
    assert Separate([l1]) == [] + [Touch(Clean(l1))];
    assert CopyAll(map[], []) == Ok(map[]);
  }

  lemma RemovalOf(name: Name, c: Content)
    ensures var f, l2 := map[[name] := File(c)], [Remove([name])];
            Clean(l2) == map[] && Extract(f, l2).tree == RemoveSubtree(f, [name]) && [name] !in Extract(f, l2).tree
  {
    ExtractOne(map[], Remove([name]));
    ExtractOne(map[[name] := File(c)], Remove([name]));
    assert RemoveSubtree(map[], [name]) == map[];
  }
}
