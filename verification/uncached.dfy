/** Builds that ignore the cache, builds whose put stops, and what a build without cache does for later ones:
`pybox/image/builder.py`. */
module UncachedBuilds {
  import opened Outcomes
  import opened BuildSpecs
  import opened LayerCaches
  import opened ImageBuilders
  import opened Invalidation

  // ---------------------------------------------------------------------------------------
  // What the kinds of steps do

  /** One specification with a step of each kind: commands run on the layers below them, copies take source and
  destination, directories and variables make no layer, and the python section comes last. */
  lemma OneOfEach(w: World, base: string, command: string, src: string, dst: string, dir: string,
                  env: seq<(string, string)>, python: PythonSpec)
    requires w.run(w.baseLayers(base), command).Some? && w.copy(src, dst).Some?
    ensures var steps := [WorkdirStep("", dir), RunStep("", command), EnvStep("", env), CopyStep("", src, dst)];
            var below := w.baseLayers(base) + [w.run(w.baseLayers(base), command).value, w.copy(src, dst).value];
            && PlainBuild(w, BuildSpec(base, steps, None)) == Some(below)
            && PlainBuild(w, BuildSpec(base, steps, Some(python)))
               == match w.python(below, python)
                  case None => None
                  case Some(layer) => Some(below + [layer])
  {
    var steps := [WorkdirStep("", dir), RunStep("", command), EnvStep("", env), CopyStep("", src, dst)];
    var low := w.baseLayers(base);
    var made, copied := w.run(low, command).value, w.copy(src, dst).value;
    assert steps[..4] == steps && steps[..3][..2] == steps[..2];
    assert steps[..2][..1] == steps[..1] && steps[..1][..0] == [];
    assert steps[..3][2] == steps[2] && steps[..2][1] == steps[1] && steps[..1][0] == steps[0];
    assert Accumulate(w, base, steps[..0]) == Some(low);
    assert Accumulate(w, base, steps[..1]) == Some(low);
    assert Accumulate(w, base, steps[..2]) == Some(low + [made]);
    assert Accumulate(w, base, steps[..3]) == Some(low + [made]);
    assert low + [made] + [copied] == low + [made, copied];
  }

  // ---------------------------------------------------------------------------------------
  // Builds without cache

  /** The step produces a layer and the build gets that far. */
  predicate Made(w: World, base: string, steps: seq<Step>, i: nat) {
    i < |steps| && !MetadataOnly(steps[i]) && Accumulate(w, base, steps[..i + 1]).Some?
  }

  predicate Ascending(s: seq<nat>) {
    forall i, j :: 0 <= i < j < |s| ==> s[i] < s[j]
  }

  /** The loop has executed exactly the layer-producing steps so far. */
  ghost predicate RanAll(w: World, base: string, steps: seq<Step>, i: nat, ran: seq<nat>) {
    Ascending(ran) && forall j: nat :: j in ran <==> j < i && Made(w, base, steps, j)
  }

  lemma {:induction false} NothingMadeAfter(w: World, base: string, steps: seq<Step>, i: nat, j: nat)
    requires i <= j <= |steps| && Accumulate(w, base, steps[..i]).None?
    ensures Accumulate(w, base, steps[..j]).None?
    decreases j
  {
    if i < j {
      assert steps[..j][..j - 1] == steps[..j - 1];
      NothingMadeAfter(w, base, steps, i, j - 1);
    }
  }

  lemma StepUncached(w: World, base: string, steps: seq<Step>, p: Progress, i: nat)
    requires i < |steps| && p.ok && Accumulate(w, base, steps[..i]) == Some(p.layers)
    requires RanAll(w, base, steps, i, p.ran)
    ensures var q := StepOnce(w, true, p, steps[i], i);
            && (q.ok <==> Accumulate(w, base, steps[..i + 1]).Some?)
            && (q.ok ==> Accumulate(w, base, steps[..i + 1]) == Some(q.layers))
            && RanAll(w, base, steps, i + 1, q.ran)
  {
    assert steps[..i + 1][..i] == steps[..i] && steps[..i + 1][i] == steps[i];
    var q := StepOnce(w, true, p, steps[i], i);
    assert q.ran == if Made(w, base, steps, i) then p.ran + [i] else p.ran;
    forall j: nat ensures j in q.ran <==> j < i + 1 && Made(w, base, steps, j) {
      assert j in q.ran <==> j in p.ran || (j == i && Made(w, base, steps, i));
    }
    assert forall k :: 0 <= k < |p.ran| ==> p.ran[k] in p.ran;
  }

  lemma {:induction false} LoopUncached(w: World, base: string, steps: seq<Step>, p: Progress, i: nat)
    requires i <= |steps| && p.ok && Accumulate(w, base, steps[..i]) == Some(p.layers)
    requires RanAll(w, base, steps, i, p.ran)
    ensures var q := StepsFrom(w, true, p, steps, i);
            && (q.ok <==> Accumulate(w, base, steps).Some?)
            && (q.ok ==> Accumulate(w, base, steps) == Some(q.layers))
            && RanAll(w, base, steps, |steps|, q.ran)
    decreases |steps| - i
  {
    if i == |steps| {
      assert steps[..i] == steps;
    } else {
      StepUncached(w, base, steps, p, i);
      var q := StepOnce(w, true, p, steps[i], i);
      if q.ok {
        LoopUncached(w, base, steps, q, i + 1);
      } else {
        forall j: nat | i < j <= |steps| ensures Accumulate(w, base, steps[..j]).None? {
          NothingMadeAfter(w, base, steps, i + 1, j);
        }
        assert steps[..|steps|] == steps;
      }
    }
  }

  /** Whatever the cache holds, a build without cache returns what executing every step returns, failures
  included, and executes exactly the steps that produce a layer, up to the first one that raises; and the
  python section exactly when everything before it got through and installing succeeds. */
  lemma UncachedIsPlain(w: World, entries: Entries, spec: BuildSpec)
    ensures var b := CachedBuild(w, entries, true, spec);
            && b.layers == PlainBuild(w, spec)
            && RanAll(w, spec.base, spec.steps, |spec.steps|, b.ran)
            && (b.pythonRan <==> spec.python.Some? && PlainBuild(w, spec).Some?)
  {
    var start := Progress(true, w.baseLayers(spec.base), spec.base, entries, []);
    assert spec.steps[..0] == [];
    LoopUncached(w, spec.base, spec.steps, start, 0);
  }

  // ---------------------------------------------------------------------------------------
  // Builds whose put stops

  lemma {:induction false} RanGrows(w: World, noCache: bool, p: Progress, steps: seq<Step>, i: nat, puts: Puts)
    requires i <= |steps|
    ensures var ran := StepsFrom(w, noCache, p, steps, i, puts).ran;
            forall j: nat :: j < i ==> (j in ran <==> j in p.ran)
    decreases |steps| - i
  {
    if i < |steps| && p.ok {
      var q := StepOnce(w, noCache, p, steps[i], i, puts);
      RanGrows(w, noCache, q, steps, i + 1, puts);
      assert forall j: nat :: j < i ==> (j in q.ran <==> j in p.ran);
    }
  }

  lemma {:induction false} LoopStopped(
      w: World, noCache: bool, p: Progress, steps: seq<Step>, i: nat, at: nat, stop: Stop)
    requires i <= |steps| && p.ok && forall j :: j in p.ran ==> j < i
    ensures var a := StepsFrom(w, noCache, p, steps, i);
            var b := StepsFrom(w, noCache, p, steps, i, StopAt(at, stop));
            if i <= at && at in a.ran then !b.ok && forall j: nat :: j in b.ran <==> j in a.ran && j < at
            else a == b
    ensures forall j :: j in StepsFrom(w, noCache, p, steps, i).ran ==> j < |steps|
    decreases |steps| - i
  {
    if i < |steps| {
      var puts := StopAt(at, stop);
      var a, b := StepOnce(w, noCache, p, steps[i], i), StepOnce(w, noCache, p, steps[i], i, puts);
      RanGrows(w, noCache, a, steps, i + 1, AllStored);
      if a.ok {
        LoopStopped(w, noCache, a, steps, i + 1, at, stop);
      }
    }
  }

  /** A put that stops makes the build raise, exactly when the build gets to it: when the step before it would
  have been executed. Nothing after it is executed. A build that does not get to it is as if all puts stored. */
  lemma StoppedPutRaises(w: World, entries: Entries, noCache: bool, spec: BuildSpec, at: nat, stop: Stop)
    ensures var all := CachedBuild(w, entries, noCache, spec);
            var cut := CachedBuild(w, entries, noCache, spec, StopAt(at, stop));
            if at in all.ran then cut.layers == None && forall j: nat :: j in cut.ran <==> j in all.ran && j < at
            else if at == |spec.steps| && all.pythonRan then cut.layers == None && cut.ran == all.ran
            else cut == all
  {
    var start := Progress(true, w.baseLayers(spec.base), spec.base, entries, []);
    LoopStopped(w, noCache, start, spec.steps, 0, at, stop);
  }

  // ---------------------------------------------------------------------------------------
  // A build without cache repairs the entries of its steps

  /** The entries of the layer-producing steps among the first `n` are what executing them makes. */
  ghost predicate Fresh(w: World, base: string, steps: seq<Step>, n: nat, entries: Entries)
    requires n <= |steps|
  {
    forall j: nat :: j < n && !MetadataOnly(steps[j]) ==> FreshAt(w, base, steps, j, entries)
  }

  ghost predicate FreshAt(w: World, base: string, steps: seq<Step>, j: nat, entries: Entries)
    requires j < |steps| && !MetadataOnly(steps[j])
  {
    var below := Accumulate(w, base, steps[..j]);
    && below.Some? && PositionKey(w, base, steps, j) in entries
    && Execute(w, below.value, steps[j]) == Some(entries[PositionKey(w, base, steps, j)])
  }

  lemma {:induction false} LoopRefreshes(w: World, base: string, steps: seq<Step>, p: Progress, i: nat)
    requires DistinctKeys(w, base, steps) && i <= |steps| && p.ok
    requires Accumulate(w, base, steps[..i]) == Some(p.layers) && p.parent == ChainKey(w.hash, base, steps[..i])
    requires Fresh(w, base, steps, i, p.entries)
    requires StepsFrom(w, true, p, steps, i).ok
    ensures var q := StepsFrom(w, true, p, steps, i);
            Fresh(w, base, steps, |steps|, q.entries) && q.parent == ChainKey(w.hash, base, steps)
    decreases |steps| - i
  {
    if i == |steps| {
      assert steps[..i] == steps;
    } else {
      var q := StepOnce(w, true, p, steps[i], i);
      assert steps[..i + 1][..i] == steps[..i] && steps[..i + 1][i] == steps[i];
      PositionKeyStep(w, base, steps, i);
      forall j: nat | j < i + 1 && !MetadataOnly(steps[j]) ensures FreshAt(w, base, steps, j, q.entries) {
        if j < i {
          assert FreshAt(w, base, steps, j, p.entries);
          assert !IsStepKey(w, base, steps, i, PositionKey(w, base, steps, i));
        }
      }
      LoopRefreshes(w, base, steps, q, i + 1);
    }
  }

  lemma {:induction false} LoopReadsFresh(w: World, base: string, steps: seq<Step>, p: Progress, i: nat)
    requires i <= |steps| && p.ok
    requires Accumulate(w, base, steps[..i]) == Some(p.layers) && p.parent == ChainKey(w.hash, base, steps[..i])
    requires Fresh(w, base, steps, |steps|, p.entries)
    ensures var q := StepsFrom(w, false, p, steps, i);
            && q.ok && q.ran == p.ran && q.entries == p.entries
            && Accumulate(w, base, steps) == Some(q.layers) && q.parent == ChainKey(w.hash, base, steps)
    decreases |steps| - i
  {
    if i == |steps| {
      assert steps[..i] == steps;
    } else {
      assert steps[..i + 1][..i] == steps[..i] && steps[..i + 1][i] == steps[i];
      PositionKeyStep(w, base, steps, i);
      if !MetadataOnly(steps[i]) {
        assert FreshAt(w, base, steps, i, p.entries);
      }
      LoopReadsFresh(w, base, steps, StepOnce(w, false, p, steps[i], i), i + 1);
    }
  }

  /** Whatever the cache held before: after a build without cache that got through, a cached build of the same
  specification executes nothing and returns what executing every step returns. */
  lemma UncachedRepairs(w: World, entries: Entries, spec: BuildSpec)
    requires Injective(w.hash) && NotADigest(w.hash, spec.base) && PlainBuild(w, spec).Some?
    ensures var again := CachedBuild(w, CachedBuild(w, entries, true, spec).entries, false, spec);
            again.layers == PlainBuild(w, spec) && again.ran == [] && !again.pythonRan
  {
    var base, steps := spec.base, spec.steps;
    forall i: nat | i < |steps| ensures !IsStepKey(w, base, steps, i, PositionKey(w, base, steps, i)) {
      KeysOfPositionsDiffer(w, base, steps, i);
    }
    var start := Progress(true, w.baseLayers(base), base, entries, []);
    assert steps[..0] == [];
    LoopUncached(w, base, steps, start, 0);
    LoopRefreshes(w, base, steps, start, 0);
    var first := StepsFrom(w, true, start, steps, 0);
    var after := CachedBuild(w, entries, true, spec).entries;
    if spec.python.Some? {
      var key := PythonKey(w.hash, spec.python.value, first.parent);
      PythonKeyIsNoStepKey(w, base, steps, spec.python.value, first.parent);
      forall j: nat | j < |steps| && !MetadataOnly(steps[j]) ensures FreshAt(w, base, steps, j, after) {
        assert FreshAt(w, base, steps, j, first.entries);
        assert PositionKey(w, base, steps, j) != key;
      }
    }
    LoopReadsFresh(w, base, steps, start.(entries := after), 0);
  }
}
