/** The store of extracted layers: `apply_layers` in `pybox/image/layer.py` and the cached and fresh
branches of `pybox/image/puller.py`. */
module LayerStores {
  import opened Outcomes
  import opened FileTrees
  import opened LayerExtraction
  import opened LayerRestart
  import opened LayerDirectories

  /** The file that marks a layer directory as fully extracted. */
  const SENTINEL: Path := [".extracted"]

  type Store = map<Name, Tree>

  /** What each layer directory is extracted from. */
  type Blobs = Name -> seq<Member>

  function TreeOf(dirs: Store, n: Name): Tree {
    if n in dirs then dirs[n] else map[]
  }

  function Touch(t: Tree): Tree {
    if SENTINEL in t then t else t[SENTINEL := File([])]
  }

  /** The directory a clean extraction leaves, with its sentinel. */
  function Complete(members: seq<Member>): Tree {
    Touch(Extract(map[], Actions(members)).tree)
  }

  /** The layer can be extracted and does not itself store anything under the sentinel's name. */
  ghost predicate Ordinary(members: seq<Member>) {
    && Extract(map[], Actions(members)).done
    && !AnyFills(Actions(members), SENTINEL)
  }

  /** What every run keeps: a directory with a sentinel is complete, one without holds leftovers only. */
  ghost predicate Sound(dirs: Store, blobs: Blobs) {
    forall n :: n in dirs ==>
      && WellFormed(dirs[n])
      && (Ordinary(blobs(n)) ==>
            if SENTINEL in dirs[n] then dirs[n] == Complete(blobs(n))
            else Leftover(dirs[n], Actions(blobs(n)), Extract(map[], Actions(blobs(n))).tree))
  }

  // ---------------------------------------------------------------------------------------
  // apply_layers

  /** One turn of the loop: whether it got through, and the store after it. */
  function ApplyLayer(dirs: Store, n: Name, members: seq<Member>, w: LayerWorld): (bool, Store) {
    var t := TreeOf(dirs, n);
    if SENTINEL in t then (true, dirs)
    else
      var e := ExtractUnder(t, Actions(members), w.errors);
      (e.done && w.touches, dirs[n := if e.done && w.touches then Touch(e.tree) else e.tree])
  }

  /** The errors the extraction of one layer meets, and whether its sentinel can be written. */
  datatype LayerWorld = LayerWorld(errors: Errors, touches: bool)

  /** What each layer of a call meets; layers past the end of the list meet no errors. */
  type World = seq<LayerWorld>

  function FirstLayer(world: World): LayerWorld {
    if world == [] then LayerWorld([], true) else world[0]
  }

  function LaterLayers(world: World): World {
    if world == [] then [] else world[1..]
  }

  function AllApplied(dirs: Store, names: seq<Name>, blobs: Blobs, world: World): (bool, Store)
    decreases |names|
  {
    if names == [] then (true, dirs)
    else
      var (ok, dirs') := ApplyLayer(dirs, names[0], blobs(names[0]), FirstLayer(world));
      if ok then AllApplied(dirs', names[1..], blobs, LaterLayers(world)) else (false, dirs')
  }

  ghost predicate LayerPossible(dirs: Store, n: Name, members: seq<Member>, w: LayerWorld) {
    SENTINEL !in TreeOf(dirs, n) ==> Possible(TreeOf(dirs, n), Actions(members), w.errors)
  }

  ghost predicate CallPossible(dirs: Store, names: seq<Name>, blobs: Blobs, world: World)
    decreases |names|
  {
    names != [] ==>
      && LayerPossible(dirs, names[0], blobs(names[0]), FirstLayer(world))
      && var (ok, dirs') := ApplyLayer(dirs, names[0], blobs(names[0]), FirstLayer(world));
         ok ==> CallPossible(dirs', names[1..], blobs, LaterLayers(world))
  }

  predicate CallUnrefused(names: seq<Name>, blobs: Blobs, world: World)
    decreases |names|
  {
    names != [] ==>
      && NoneRefused(Actions(blobs(names[0])), FirstLayer(world).errors)
      && CallUnrefused(names[1..], blobs, LaterLayers(world))
  }

  ghost predicate AllWellFormed(dirs: Store) {
    forall n :: n in dirs ==> WellFormed(dirs[n])
  }

  lemma TouchWellFormed(t: Tree)
    requires WellFormed(t) && SENTINEL !in t
    ensures WellFormed(Touch(t))
  {
    forall a, q | q in Touch(t) && Inside(a, q) && a != [] ensures a in Touch(t) && Touch(t)[a] == Dir {
      if a == SENTINEL {
        LeadsTo(t, a, q);
      }
    }
  }

  lemma ApplyLayerWellFormed(dirs: Store, n: Name, members: seq<Member>, w: LayerWorld)
    requires AllWellFormed(dirs) && LayerPossible(dirs, n, members, w)
    ensures AllWellFormed(ApplyLayer(dirs, n, members, w).1)
  {
    var t := TreeOf(dirs, n);
    if SENTINEL !in t {
      UnderWellFormed(t, Actions(members), w.errors);
      var e := ExtractUnder(t, Actions(members), w.errors);
      if SENTINEL !in e.tree { TouchWellFormed(e.tree); }
    }
  }

  /** An extraction of an ordinary layer that refuses no member leaves the complete tree, or, when it does not
  get through, leftovers and no sentinel. */
  lemma UnrefusedOutcome(t: Tree, members: seq<Member>, errors: Errors)
    requires Ordinary(members) && SENTINEL !in t
    requires Leftover(t, Actions(members), Extract(map[], Actions(members)).tree)
    requires Possible(t, Actions(members), errors) && NoneRefused(Actions(members), errors)
    ensures var r, final := ExtractUnder(t, Actions(members), errors), Extract(map[], Actions(members)).tree;
            if r.done then r.tree == final && SENTINEL !in final
            else Leftover(r.tree, Actions(members), final) && SENTINEL !in r.tree
  {
    var actions := Actions(members);
    var r, final := ExtractUnder(t, actions, errors), Extract(map[], actions).tree;
    UnrefusedOrCutOff(t, actions, errors);
    UnfilledPathStaysAbsent(t, actions, SENTINEL);
    if r.done {
      LeftoverRepaired(t, actions, final);
    } else if r == Extract(t, actions) {
      AbortLeavesLeftover(t, actions, final);
    } else {
      CutOffLeavesLeftover(t, actions, final, r.tree);
      CutOffKeepsSentinelOut(t, actions, r.tree);
    }
  }

  lemma ApplyLayerSound(dirs: Store, n: Name, blobs: Blobs, w: LayerWorld)
    requires Sound(dirs, blobs)
    requires LayerPossible(dirs, n, blobs(n), w) && NoneRefused(Actions(blobs(n)), w.errors)
    ensures Sound(ApplyLayer(dirs, n, blobs(n), w).1, blobs)
    ensures ApplyLayer(dirs, n, blobs(n), w).0 && Ordinary(blobs(n)) ==>
              TreeOf(ApplyLayer(dirs, n, blobs(n), w).1, n) == Complete(blobs(n))
  {
    var t := TreeOf(dirs, n);
    ApplyLayerWellFormed(dirs, n, blobs(n), w);
    if SENTINEL !in t && Ordinary(blobs(n)) {
      ExtractWellFormed(map[], Actions(blobs(n)));
      UnrefusedOutcome(t, blobs(n), w.errors);
    }
  }

  /** An extraction that fails half-way is one more interruption. */
  lemma AbortLeavesLeftover(t: Tree, actions: seq<Action>, final: Tree)
    requires Extract(map[], actions) == Extraction(true, final)
    requires Leftover(t, actions, final) && !Extract(t, actions).done
    ensures Leftover(Extract(t, actions).tree, actions, final)
  {
    var k := AbortPoint(t, actions);
    assert CutOffAt(t, actions, k, Extract(t, actions).tree);
    CutOffLeavesLeftover(t, actions, final, Extract(t, actions).tree);
  }

  lemma {:induction false} AbortPoint(t: Tree, actions: seq<Action>) returns (k: nat)
    requires !Extract(t, actions).done
    ensures k < |actions|
    ensures Extract(t, actions[..k]) == Extraction(true, Extract(t, actions).tree)
    decreases |actions|
  {
    if Aborts(t, actions[0]) {
      k := 0;
    } else {
      var j := AbortPoint(Apply(t, actions[0]), actions[1..]);
      k := j + 1;
      assert actions[..k][0] == actions[0] && actions[..k][1..] == actions[1..][..j];
    }
  }

  /** Whatever happens, a directory with a sentinel is not touched again, and one that got through has it. */
  lemma {:induction false} MarkedStay(dirs: Store, names: seq<Name>, blobs: Blobs, world: World)
    ensures var (ok, dirs') := AllApplied(dirs, names, blobs, world);
            && (forall k :: k in dirs && SENTINEL in dirs[k] ==> k in dirs' && dirs'[k] == dirs[k])
            && (ok ==> forall n :: n in names ==> SENTINEL in TreeOf(dirs', n))
    decreases |names|
  {
    if names != [] {
      var (ok, dirs') := ApplyLayer(dirs, names[0], blobs(names[0]), FirstLayer(world));
      if ok {
        MarkedStay(dirs', names[1..], blobs, LaterLayers(world));
        assert SENTINEL in TreeOf(dirs', names[0]);
      }
    }
  }

  function LayerWorldAt(world: World, i: nat): LayerWorld {
    if i < |world| then world[i] else LayerWorld([], true)
  }

  /** The layer is marked already, or its extraction gets through and its sentinel can be written. */
  predicate GetsThrough(dirs: Store, n: Name, members: seq<Member>, w: LayerWorld) {
    SENTINEL in TreeOf(dirs, n) || (ExtractUnder(TreeOf(dirs, n), Actions(members), w.errors).done && w.touches)
  }

  predicate ThroughAt(dirs: Store, names: seq<Name>, blobs: Blobs, world: World, i: nat)
    requires i < |names|
  {
    GetsThrough(dirs, names[i], blobs(names[i]), LayerWorldAt(world, i))
  }

  /** What a call that stops at layer number `k` leaves of layer number `i`: its tree and sentinel before `k`, its
  tree at `k`, and nothing new after; a marked directory stays. */
  predicate LeftAt(dirs: Store, after: Store, names: seq<Name>, blobs: Blobs, world: World, k: nat, i: nat)
    requires i < |names|
  {
    var t := TreeOf(dirs, names[i]);
    var tree := ExtractUnder(t, Actions(blobs(names[i])), LayerWorldAt(world, i).errors).tree;
    TreeOf(after, names[i]) == if i > k || SENTINEL in t then t else if i == k then tree else Touch(tree)
  }

  lemma LaterAt(dirs: Store, dirs': Store, after: Store, names: seq<Name>, blobs: Blobs, world: World, k: nat, i: nat)
    requires 0 < i < |names| && TreeOf(dirs', names[i]) == TreeOf(dirs, names[i])
    ensures ThroughAt(dirs, names, blobs, world, i) == ThroughAt(dirs', names[1..], blobs, LaterLayers(world), i - 1)
    ensures LeftAt(dirs, after, names, blobs, world, k + 1, i)
            == LeftAt(dirs', after, names[1..], blobs, LaterLayers(world), k, i - 1)
  {
    assert names[1..][i - 1] == names[i];
    assert LayerWorldAt(LaterLayers(world), i - 1) == LayerWorldAt(world, i);
  }

  lemma OneApplied(dirs: Store, n: Name, members: seq<Member>, w: LayerWorld)
    ensures var (ok, dirs') := ApplyLayer(dirs, n, members, w);
            && (ok <==> GetsThrough(dirs, n, members, w))
            && forall m :: m != n ==> TreeOf(dirs', m) == TreeOf(dirs, m)
  {
  }

  /** A call on different layers returns exactly when every layer gets through; otherwise it stops at the first
  one that does not. */
  lemma AppliedExactly(dirs: Store, names: seq<Name>, blobs: Blobs, world: World) returns (k: nat)
    requires forall i, j :: 0 <= i < j < |names| ==> names[i] != names[j]
    ensures k <= |names| && (AllApplied(dirs, names, blobs, world).0 <==> k == |names|)
    ensures forall i: nat :: i < k ==> ThroughAt(dirs, names, blobs, world, i)
    ensures k < |names| ==> !ThroughAt(dirs, names, blobs, world, k)
    ensures forall i: nat :: i < |names| ==>
              LeftAt(dirs, AllApplied(dirs, names, blobs, world).1, names, blobs, world, k, i)
    ensures forall n :: n !in names ==> TreeOf(AllApplied(dirs, names, blobs, world).1, n) == TreeOf(dirs, n)
    decreases |names|
  {
    if names == [] {
      k := 0;
    } else {
      k := AppliedFirst(dirs, names, blobs, world);
      forall i: nat | i < |names|
        ensures LeftAt(dirs, AllApplied(dirs, names, blobs, world).1, names, blobs, world, k, i)
      {
        AppliedLeaves(dirs, names, blobs, world, k, i);
      }
      forall n | n !in names ensures TreeOf(AllApplied(dirs, names, blobs, world).1, n) == TreeOf(dirs, n) {
        OthersStay(dirs, names, blobs, world, n);
      }
    }
  }

  lemma {:induction false} AppliedFirst(dirs: Store, names: seq<Name>, blobs: Blobs, world: World) returns (k: nat)
    requires forall i, j :: 0 <= i < j < |names| ==> names[i] != names[j]
    ensures k <= |names| && (AllApplied(dirs, names, blobs, world).0 <==> k == |names|)
    ensures forall i: nat :: i < k ==> ThroughAt(dirs, names, blobs, world, i)
    ensures k < |names| ==> !ThroughAt(dirs, names, blobs, world, k)
    decreases |names|
  {
    k := 0;
    if names != [] {
      var n, rest := names[0], names[1..];
      var (ok, dirs') := ApplyLayer(dirs, n, blobs(n), FirstLayer(world));
      OneApplied(dirs, n, blobs(n), FirstLayer(world));
      assert FirstLayer(world) == LayerWorldAt(world, 0) && ok == ThroughAt(dirs, names, blobs, world, 0);
      if ok {
        var j := AppliedFirst(dirs', rest, blobs, LaterLayers(world));
        k := j + 1;
        forall i: nat | 0 < i < |names|
          ensures ThroughAt(dirs, names, blobs, world, i) == ThroughAt(dirs', rest, blobs, LaterLayers(world), i - 1)
        {
          LaterAt(dirs, dirs', dirs, names, blobs, world, j, i);
        }
      }
    }
  }

  lemma {:induction false} OthersStay(dirs: Store, names: seq<Name>, blobs: Blobs, world: World, n: Name)
    requires n !in names
    ensures TreeOf(AllApplied(dirs, names, blobs, world).1, n) == TreeOf(dirs, n)
    decreases |names|
  {
    if names != [] {
      var (ok, dirs') := ApplyLayer(dirs, names[0], blobs(names[0]), FirstLayer(world));
      if ok { OthersStay(dirs', names[1..], blobs, LaterLayers(world), n); }
    }
  }

  lemma FirstLeft(dirs: Store, names: seq<Name>, blobs: Blobs, world: World, k: nat)
    requires names != [] && names[0] !in names[1..]
    requires ThroughAt(dirs, names, blobs, world, 0) <==> k > 0
    ensures LeftAt(dirs, AllApplied(dirs, names, blobs, world).1, names, blobs, world, k, 0)
  {
    var n := names[0];
    var (ok, dirs') := ApplyLayer(dirs, n, blobs(n), FirstLayer(world));
    OneApplied(dirs, n, blobs(n), FirstLayer(world));
    if ok { OthersStay(dirs', names[1..], blobs, LaterLayers(world), n); }
  }

  lemma ThroughLater(dirs: Store, names: seq<Name>, blobs: Blobs, world: World, k: nat)
    requires names != [] && names[0] !in names[1..] && 0 < k <= |names|
    requires forall i: nat :: i < k ==> ThroughAt(dirs, names, blobs, world, i)
    requires k < |names| ==> !ThroughAt(dirs, names, blobs, world, k)
    ensures var dirs' := ApplyLayer(dirs, names[0], blobs(names[0]), FirstLayer(world)).1;
            && (forall i: nat :: i < k - 1 ==> ThroughAt(dirs', names[1..], blobs, LaterLayers(world), i))
            && (k < |names| ==> !ThroughAt(dirs', names[1..], blobs, LaterLayers(world), k - 1))
  {
    var dirs' := ApplyLayer(dirs, names[0], blobs(names[0]), FirstLayer(world)).1;
    OneApplied(dirs, names[0], blobs(names[0]), FirstLayer(world));
    forall i: nat | i < |names| - 1
      ensures ThroughAt(dirs, names, blobs, world, i + 1)
              == ThroughAt(dirs', names[1..], blobs, LaterLayers(world), i)
    {
      assert names[1..][i] == names[i + 1];
      LaterAt(dirs, dirs', dirs, names, blobs, world, k, i + 1);
    }
  }

  lemma {:induction false} AppliedLeaves(
      dirs: Store, names: seq<Name>, blobs: Blobs, world: World, k: nat, i: nat)
    requires forall i, j :: 0 <= i < j < |names| ==> names[i] != names[j]
    requires k <= |names| && forall i: nat :: i < k ==> ThroughAt(dirs, names, blobs, world, i)
    requires k < |names| ==> !ThroughAt(dirs, names, blobs, world, k)
    requires i < |names|
    ensures LeftAt(dirs, AllApplied(dirs, names, blobs, world).1, names, blobs, world, k, i)
    decreases |names|
  {
    var n, rest := names[0], names[1..];
    var dirs' := ApplyLayer(dirs, n, blobs(n), FirstLayer(world)).1;
    var after := AllApplied(dirs, names, blobs, world).1;
    OneApplied(dirs, n, blobs(n), FirstLayer(world));
    if i == 0 {
      FirstLeft(dirs, names, blobs, world, k);
    } else if k > 0 {
      ThroughLater(dirs, names, blobs, world, k);
      AppliedLeaves(dirs', rest, blobs, LaterLayers(world), k - 1, i - 1);
      LaterAt(dirs, dirs', after, names, blobs, world, k - 1, i);
      assert ThroughAt(dirs, names, blobs, world, 0) && after == AllApplied(dirs', rest, blobs, LaterLayers(world)).1;
    } else {
      assert !ThroughAt(dirs, names, blobs, world, 0);
      assert after == dirs' && names[i] != n && TreeOf(after, names[i]) == TreeOf(dirs, names[i]);
    }
  }

  lemma {:induction false} ApplyLayersSound(dirs: Store, names: seq<Name>, blobs: Blobs, world: World)
    requires Sound(dirs, blobs)
    requires CallPossible(dirs, names, blobs, world) && CallUnrefused(names, blobs, world)
    ensures Sound(AllApplied(dirs, names, blobs, world).1, blobs)
    ensures AllApplied(dirs, names, blobs, world).0 ==>
              forall n :: n in names && Ordinary(blobs(n)) ==>
                TreeOf(AllApplied(dirs, names, blobs, world).1, n) == Complete(blobs(n))
    decreases |names|
  {
    if names != [] {
      var n := names[0];
      var (ok, dirs') := ApplyLayer(dirs, n, blobs(n), FirstLayer(world));
      ApplyLayerSound(dirs, n, blobs, FirstLayer(world));
      if ok {
        ApplyLayersSound(dirs', names[1..], blobs, LaterLayers(world));
        MarkedStay(dirs', names[1..], blobs, LaterLayers(world));
      }
    }
  }

  // ---------------------------------------------------------------------------------------
  // Whole histories of one store

  datatype Event =
    | Interrupted(dir: Name, left: Tree)                // an extraction of one layer cut off inside its tar
    | Applied(names: seq<Name>, world: World)           // a call of apply_layers that returned or raised

  /** What can happen to the store; `refusals` admits members refused by errors from outside. */
  ghost predicate PossibleEvent(dirs: Store, e: Event, blobs: Blobs, refusals: bool) {
    match e
    case Interrupted(n, left) =>
      SENTINEL !in TreeOf(dirs, n) && CutOff(TreeOf(dirs, n), Actions(blobs(n)), left)
    case Applied(names, world) =>
      CallPossible(dirs, names, blobs, world) && (refusals || CallUnrefused(names, blobs, world))
  }

  function Effect(dirs: Store, e: Event, blobs: Blobs): Store {
    match e
    case Interrupted(n, left) => dirs[n := left]
    case Applied(names, world) => AllApplied(dirs, names, blobs, world).1
  }

  function History(events: seq<Event>, blobs: Blobs): Store {
    if events == [] then map[]
    else Effect(History(events[..|events| - 1], blobs), events[|events| - 1], blobs)
  }

  ghost predicate PossibleHistory(events: seq<Event>, blobs: Blobs, refusals: bool) {
    forall i :: 0 <= i < |events| ==> PossibleEvent(History(events[..i], blobs), events[i], blobs, refusals)
  }

  lemma CutOffKeepsSentinelOut(t: Tree, actions: seq<Action>, t': Tree)
    requires SENTINEL !in t && !AnyFills(actions, SENTINEL) && CutOff(t, actions, t')
    ensures SENTINEL !in t'
  {
    var k: nat :| k <= |actions| && CutOffAt(t, actions, k, t');
    var s := Extract(t, actions[..k]).tree;
    UnfilledPathStaysAbsent(t, actions[..k], SENTINEL);
    if k < |actions| && t' != s {
      assert !Fills(actions[k], SENTINEL);
      assert At(s, SENTINEL) == Absent && At(Apply(s, actions[k]), SENTINEL) == Absent;
      assert At(t', SENTINEL) == Absent;
    }
  }

  lemma CutOffWellFormed(t: Tree, actions: seq<Action>, t': Tree)
    requires WellFormed(t) && CutOff(t, actions, t')
    ensures WellFormed(t')
  {
    var k: nat :| k <= |actions| && CutOffAt(t, actions, k, t');
    ExtractWellFormed(t, actions[..k]);
  }

  lemma {:induction false} HistorySound(events: seq<Event>, blobs: Blobs)
    requires PossibleHistory(events, blobs, false)
    ensures Sound(History(events, blobs), blobs)
    decreases |events|
  {
    if events != [] {
      var past, e := events[..|events| - 1], events[|events| - 1];
      forall i | 0 <= i < |past| ensures PossibleEvent(History(past[..i], blobs), past[i], blobs, false) {
        assert past[..i] == events[..i];
      }
      HistorySound(past, blobs);
      var dirs := History(past, blobs);
      assert PossibleEvent(dirs, e, blobs, false);
      match e
      case Applied(names, world) => ApplyLayersSound(dirs, names, blobs, world);
      case Interrupted(n, left) => InterruptedSound(dirs, n, left, blobs);
    }
  }

  lemma InterruptedSound(dirs: Store, n: Name, left: Tree, blobs: Blobs)
    requires Sound(dirs, blobs) && SENTINEL !in TreeOf(dirs, n) && CutOff(TreeOf(dirs, n), Actions(blobs(n)), left)
    ensures Sound(dirs[n := left], blobs)
  {
    var t, actions := TreeOf(dirs, n), Actions(blobs(n));
    CutOffWellFormed(t, actions, left);
    if Ordinary(blobs(n)) {
      var final := Extract(map[], actions).tree;
      ExtractWellFormed(map[], actions);
      assert Leftover(t, actions, final);
      CutOffLeavesLeftover(t, actions, final, left);
      CutOffKeepsSentinelOut(t, actions, left);
    }
  }

  /** Every ordinary layer's directory that has a sentinel is the tree of a clean extraction. */
  ghost predicate MarkedComplete(dirs: Store, blobs: Blobs) {
    forall n :: n in dirs && SENTINEL in dirs[n] && Ordinary(blobs(n)) ==> dirs[n] == Complete(blobs(n))
  }

  /** In every history that refuses no member a sentinel implies a complete tree, and a call of
  `apply_layers` that returns leaves every requested directory as one clean extraction would. */
  lemma StoreRestartSafety(events: seq<Event>, names: seq<Name>, blobs: Blobs, world: World)
    requires PossibleHistory(events, blobs, false)
    requires CallPossible(History(events, blobs), names, blobs, world) && CallUnrefused(names, blobs, world)
    ensures MarkedComplete(History(events, blobs), blobs)
    ensures AllApplied(History(events, blobs), names, blobs, world).0 ==>
              forall n :: n in names && Ordinary(blobs(n)) ==>
                TreeOf(AllApplied(History(events, blobs), names, blobs, world).1, n) == Complete(blobs(n))
  {
    HistorySound(events, blobs);
    ApplyLayersSound(History(events, blobs), names, blobs, world);
  }

  ghost predicate SentinelTells(refusals: bool) {
    forall events, blobs :: PossibleHistory(events, blobs, refusals) ==> MarkedComplete(History(events, blobs), blobs)
  }

  /** One member is refused: its layer is marked as extracted without its file, for good. */
  lemma RefusalIsMarked(name: Name, c: Content, names: seq<Name>, world: World)
    requires name != ".extracted" && name != OPAQUE_WHITEOUT && !(WHITEOUT_PREFIX <= name)
    ensures var blobs: Blobs := (_ => [Member([name], File(c))]);
            var events := [Applied(["layer"], [LayerWorld([Some(map[])], true)])];
            var dirs := History(events, blobs);
            && PossibleHistory(events, blobs, true)
            && Ordinary(blobs("layer"))
            && dirs == map["layer" := map[SENTINEL := File([])]]
            && [name] in Complete(blobs("layer"))
            && TreeOf(AllApplied(dirs, names, blobs, world).1, "layer") == dirs["layer"]
  {
    var blobs: Blobs := (_ => [Member([name], File(c))]);
    var world1: World := [LayerWorld([Some(map[])], true)];
    var events := [Applied(["layer"], world1)];
    var actions := Actions(blobs("layer"));
    assert actions == [Put([name], File(c))];
    RefusedMemberIsMissing(name, c);
    assert [name] != SENTINEL;
    assert ["layer"][1..] == [] && events[..0] == [];
    assert History([], blobs) == map[];
    assert ApplyLayer(map[], "layer", blobs("layer"), world1[0]) == (true, map["layer" := map[SENTINEL := File([])]]);
    assert PossibleEvent(map[], events[0], blobs, true);
    MarkedStay(History(events, blobs), names, blobs, world);
  }

  /** In every history a sentinel implies a complete tree if and only if no member is refused by an error
  from outside. */
  lemma SentinelTellsExactly(refusals: bool)
    ensures SentinelTells(refusals) <==> !refusals
  {
    if refusals {
      RefusalIsMarked("f", [], [], []);
      var blobs: Blobs := (_ => [Member(["f"], File([]))]);
      var events := [Applied(["layer"], [LayerWorld([Some(map[])], true)])];
      assert ["f"] !in History(events, blobs)["layer"];
      assert !MarkedComplete(History(events, blobs), blobs);
    } else {
      forall events, blobs | PossibleHistory(events, blobs, false)
        ensures MarkedComplete(History(events, blobs), blobs)
      {
        HistorySound(events, blobs);
      }
    }
  }

  lemma ActionsOfStored(name: Name)
    requires name != OPAQUE_WHITEOUT && !(WHITEOUT_PREFIX <= name)
    ensures Actions([Member(SENTINEL, File([])), Member([name], File([]))])
            == [Put(SENTINEL, File([])), Put([name], File([]))]
    ensures Ancestors(SENTINEL) == {} && Ancestors([name]) == {}
    ensures Create(map[], SENTINEL, File([])) == map[SENTINEL := File([])]
  {
    assert Ancestors(SENTINEL) == {} && Ancestors([name]) == {};
    assert ".extracted"[1] != WHITEOUT_PREFIX[1] && ".extracted"[1] != OPAQUE_WHITEOUT[1];
  }

  /** A layer that stores a file under the sentinel's name defeats the sentinel: cut off right after
  that file, it counts as extracted and its other members never arrive. */
  lemma SentinelInLayer(name: Name)
    requires name != ".extracted" && name != OPAQUE_WHITEOUT && !(WHITEOUT_PREFIX <= name)
    ensures var blobs: Blobs := (_ => [Member(SENTINEL, File([])), Member([name], File([]))]);
            var events := [Interrupted("layer", map[SENTINEL := File([])])];
            && PossibleHistory(events, blobs, false)
            && AllApplied(History(events, blobs), ["layer"], blobs, []).0
            && [name] !in TreeOf(AllApplied(History(events, blobs), ["layer"], blobs, []).1, "layer")
            && [name] in Complete(blobs("layer"))
  {
    var blobs: Blobs := (_ => [Member(SENTINEL, File([])), Member([name], File([]))]);
    var actions := Actions(blobs("layer"));
    var left: Tree := map[SENTINEL := File([])];
    var events := [Interrupted("layer", left)];
    ActionsOfStored(name);
    assert actions[1..] == [Put([name], File([]))] && actions[1..][1..] == [];
    assert actions[..1] == [Put(SENTINEL, File([]))] && actions[..1][1..] == [];
    assert Extract(map[], actions[..1]) == Extraction(true, left);
    assert CutOffAt(map[], actions, 1, left);
    assert events[..0] == [] && History([], blobs) == map[];
    var dirs := History(events, blobs);
    assert dirs == map["layer" := left];
    assert PossibleEvent(map[], events[0], blobs, false);
    MarkedStay(dirs, ["layer"], blobs, []);
    assert ["layer"][1..] == [];
    assert AllApplied(dirs, ["layer"], blobs, []) == AllApplied(dirs, [], blobs, []);
    assert [name] != SENTINEL;
    assert Extract(map[], actions) == Extract(left, actions[1..]) == Extraction(true, Create(left, [name], File([])));
  }

  // ---------------------------------------------------------------------------------------
  // Directory names

  function Underscored(s: string): (r: string)
    ensures |r| == |s|
    ensures forall i :: 0 <= i < |s| ==> r[i] == if s[i] == ':' then '_' else s[i]
  {
    seq(|s|, i requires 0 <= i < |s| => if s[i] == ':' then '_' else s[i])
  }

  /** The directory a layer's tarball is extracted into. Both branches of a pull derive it from the
  digest in the same way. */
  function DirectoryOf(digest: string): Name {
    Underscored(digest)
  }

  /** Two digests share a directory exactly when they differ at most in colons against underscores; without
  underscores they are the same digest. */
  lemma DirectoriesShared(d: string, e: string)
    ensures DirectoryOf(d) == DirectoryOf(e)
            <==> |d| == |e| && forall i :: 0 <= i < |d| ==> d[i] == e[i] || {d[i], e[i]} == {':', '_'}
    ensures DirectoryOf(d) == DirectoryOf(e) && '_' !in d && '_' !in e ==> d == e
    ensures DirectoryOf("sha256:" + d) == "sha256_" + DirectoryOf(d)
  {
    assert DirectoryOf("sha256:" + d) == "sha256_" + DirectoryOf(d);
    var x, y := DirectoryOf(d), DirectoryOf(e);
    if x == y {
      forall i | 0 <= i < |d| ensures d[i] == e[i] || {d[i], e[i]} == {':', '_'} {
        assert x[i] == y[i];
      }
    }
    if |d| == |e| && forall i :: 0 <= i < |d| ==> d[i] == e[i] || {d[i], e[i]} == {':', '_'} {
      forall i | 0 <= i < |d| ensures x[i] == y[i] {
        if d[i] != e[i] { assert d[i] in {d[i], e[i]} && e[i] in {d[i], e[i]}; }
      }
    }
    if x == y && '_' !in d && '_' !in e {
      forall i | 0 <= i < |d| ensures d[i] == e[i] {
        assert x[i] == y[i] && d[i] in d && e[i] in e;
      }
    }
  }

  function DirectoriesOf(digests: seq<string>): (r: seq<Name>)
    ensures |r| == |digests|
    ensures forall i :: 0 <= i < |digests| ==> r[i] == DirectoryOf(digests[i])
  {
    seq(|digests|, i requires 0 <= i < |digests| => DirectoryOf(digests[i]))
  }

  // ---------------------------------------------------------------------------------------
  // The store on disk

  /** The extracted directories, and the images whose manifest and whose config file are stored. */
  datatype Disk = Disk(dirs: Store, manifests: set<string>, configs: set<string>)

  predicate Cached(disk: Disk, id: string, digests: seq<string>) {
    id in disk.manifests && forall i :: 0 <= i < |digests| ==> SENTINEL in TreeOf(disk.dirs, DirectoryOf(digests[i]))
  }

  /** Writing the manifest succeeds, raises before the file is there, or raises after: a file that is cut off
  counts as stored. */
  datatype ManifestWrite = Saved | NotOpened | CutShort

  /** A pull: whether the layers can be downloaded, what their extraction meets, how the manifest is written,
  and whether the config can be downloaded and stored. */
  datatype PullWorld = PullWorld(downloads: bool, world: World, manifest: ManifestWrite, config: bool)

  function Pulled(disk: Disk, blobs: Blobs, id: string, digests: seq<string>, w: PullWorld)
    : (Option<seq<Name>>, Disk)
  {
    if Cached(disk, id, digests) then (Some(DirectoriesOf(digests)), disk)
    else if !w.downloads then (None, disk)
    else
      var (ok, dirs) := AllApplied(disk.dirs, DirectoriesOf(digests), blobs, w.world);
      if !ok || w.manifest == NotOpened then (None, disk.(dirs := dirs))
      else if w.manifest == CutShort || !w.config then (None, Disk(dirs, disk.manifests + {id}, disk.configs))
      else (Some(DirectoriesOf(digests)), Disk(dirs, disk.manifests + {id}, disk.configs + {id}))
  }

  class ImageStore {
    var dirs: Store
    var manifests: set<string>
    var configs: set<string>
    const blobs: Blobs

    constructor (blobs: Blobs)
      ensures OnDisk() == Disk(map[], {}, {}) && this.blobs == blobs
    {
      this.blobs := blobs;
      dirs, manifests, configs := map[], {}, {};
    }

    ghost function OnDisk(): Disk
      reads this
    {
      Disk(dirs, manifests, configs)
    }

    /** Extracts what is not marked yet, in order; `None` is a raised storage error. */
    method ApplyLayers(names: seq<Name>, world: World) returns (extracted: Option<seq<Name>>)
      requires AllWellFormed(dirs) && CallPossible(dirs, names, blobs, world)
      modifies this`dirs
      ensures AllWellFormed(dirs)
      ensures (extracted.Some?, dirs) == AllApplied(old(dirs), names, blobs, world)
      ensures extracted.Some? ==> extracted.value == names
    {
      var done: seq<Name> := [];
      var later := world;
      assert names[0..] == names;
      for i := 0 to |names|
        invariant AllWellFormed(dirs) && CallPossible(dirs, names[i..], blobs, later)
        invariant done == names[..i]
        invariant AllApplied(dirs, names[i..], blobs, later) == AllApplied(old(dirs), names, blobs, world)
      {
        var n, w := names[i], FirstLayer(later);
        later := LaterLayers(later);
        assert names[i..][0] == n && names[i..][1..] == names[i + 1..];
        ApplyLayerWellFormed(dirs, n, blobs(n), w);
        var tree := if n in dirs then dirs[n] else map[];
        if SENTINEL !in tree {
          var dest := new Destination(tree);
          var ok := dest.ExtractWithWhiteouts(blobs(n), w.errors);
          if !ok || !w.touches {
            dirs := dirs[n := dest.tree];
            return None;
          }
          dirs := dirs[n := if SENTINEL in dest.tree then dest.tree else dest.tree[SENTINEL := File([])]];
        }
        done := done + [n];
      }
      return Some(done);
    }

    method IsCached(id: string, digests: seq<string>) returns (cached: bool)
      ensures cached == Cached(OnDisk(), id, digests)
    {
      if id !in manifests { return false; }
      for i := 0 to |digests|
        invariant forall j :: 0 <= j < i ==> SENTINEL in TreeOf(dirs, DirectoryOf(digests[j]))
      {
        if SENTINEL !in TreeOf(dirs, DirectoryOf(digests[i])) { return false; }
      }
      return true;
    }

    /** `None` is a pull that raises. The manifest is stored before the config is downloaded. */
    method Pull(id: string, digests: seq<string>, w: PullWorld) returns (layers: Option<seq<Name>>)
      requires AllWellFormed(dirs) && CallPossible(dirs, DirectoriesOf(digests), blobs, w.world)
      modifies this
      ensures AllWellFormed(dirs)
      ensures (layers, OnDisk()) == Pulled(old(OnDisk()), blobs, id, digests, w)
    {
      var cached := IsCached(id, digests);
      if cached {
        return Some(DirectoriesOf(digests));
      }
      if !w.downloads {
        return None;
      }
      layers := ApplyLayers(DirectoriesOf(digests), w.world);
      if layers.None? {
        return None;
      }
      if w.manifest == NotOpened {
        return None;
      }
      manifests := manifests + {id};
      if w.manifest == CutShort || !w.config {
        return None;
      }
      configs := configs + {id};
    }
  }

  /** On a sound store, a pull that refuses no member and returns gives the same directories from both
  branches, each the complete tree of its layer, and leaves the store sound. */
  lemma PullComplete(disk: Disk, blobs: Blobs, id: string, digests: seq<string>, w: PullWorld)
    requires Sound(disk.dirs, blobs)
    requires CallPossible(disk.dirs, DirectoriesOf(digests), blobs, w.world)
    requires CallUnrefused(DirectoriesOf(digests), blobs, w.world)
    ensures var (layers, after) := Pulled(disk, blobs, id, digests, w);
            && Sound(after.dirs, blobs)
            && (layers.Some? ==>
                  && layers.value == DirectoriesOf(digests)
                  && forall n :: n in layers.value && Ordinary(blobs(n))
                                 ==> TreeOf(after.dirs, n) == Complete(blobs(n)))
  {
    ApplyLayersSound(disk.dirs, DirectoriesOf(digests), blobs, w.world);
    if Cached(disk, id, digests) {
      forall n | n in DirectoriesOf(digests) && Ordinary(blobs(n)) ensures TreeOf(disk.dirs, n) == Complete(blobs(n)) {
        var i :| 0 <= i < |digests| && DirectoriesOf(digests)[i] == n;
        assert SENTINEL in TreeOf(disk.dirs, DirectoryOf(digests[i]));
      }
    }
  }

  /** A pull that returns leaves the manifest stored and every layer marked, so the next one is answered from the
  store, whatever it would meet. One of an image whose manifest was not stored has downloaded it, written the
  manifest and stored the config, and one that gets through all this returns; without downloads it raises and
  changes nothing. Other images' files stay. */
  lemma PullStores(disk: Disk, blobs: Blobs, id: string, digests: seq<string>, w: PullWorld, later: PullWorld)
    ensures var (layers, after) := Pulled(disk, blobs, id, digests, w);
            && (layers.Some? ==>
                  && id in after.manifests
                  && (forall i :: 0 <= i < |digests| ==> [".extracted"] in TreeOf(after.dirs, DirectoryOf(digests[i])))
                  && Pulled(after, blobs, id, digests, later) == (layers, after))
            && (layers.Some? && id !in disk.manifests ==>
                  w.downloads && w.manifest == Saved && w.config && id in after.configs)
            && (id !in disk.manifests && !w.downloads ==> layers == None && after == disk)
            && (w.downloads && w.manifest == Saved && w.config ==>
                  AllApplied(disk.dirs, DirectoriesOf(digests), blobs, w.world).0 ==>
                    layers == Some(DirectoriesOf(digests)))
            && after.manifests - {id} == disk.manifests - {id} && disk.manifests <= after.manifests
            && after.configs - {id} == disk.configs - {id} && disk.configs <= after.configs
  {
    MarkedStay(disk.dirs, DirectoriesOf(digests), blobs, w.world);
    var (layers, after) := Pulled(disk, blobs, id, digests, w);
    if layers.Some? {
      forall i | 0 <= i < |digests| ensures SENTINEL in TreeOf(after.dirs, DirectoryOf(digests[i])) {
        assert DirectoriesOf(digests)[i] in DirectoriesOf(digests);
      }
    }
  }

  /** A pull that fails at its manifest's end or its config leaves an image that counts as cached: every later
  pull returns it, and its config is never stored. */
  lemma FailedConfigIsCached(disk: Disk, blobs: Blobs, id: string, digests: seq<string>, w: PullWorld, later: PullWorld)
    requires !Cached(disk, id, digests) && id !in disk.configs && w.downloads
    requires w.manifest == CutShort || (w.manifest == Saved && !w.config)
    requires AllApplied(disk.dirs, DirectoriesOf(digests), blobs, w.world).0
    ensures var (layers, after) := Pulled(disk, blobs, id, digests, w);
            && layers == None
            && Pulled(after, blobs, id, digests, later) == (Some(DirectoriesOf(digests)), after)
            && id !in after.configs
  {
    MarkedStay(disk.dirs, DirectoriesOf(digests), blobs, w.world);
    var after := Pulled(disk, blobs, id, digests, w).1;
    forall i | 0 <= i < |digests| ensures SENTINEL in TreeOf(after.dirs, DirectoryOf(digests[i])) {
      assert DirectoriesOf(digests)[i] in DirectoriesOf(digests);
    }
  }
}
