/** Which steps a second build executes, and why each condition on the cache is needed. */
module Invalidation {
  import opened Outcomes
  import opened BuildSpecs
  import opened LayerCaches
  import opened ImageBuilders

  // ---------------------------------------------------------------------------------------
  // A build executes exactly the steps whose keys the cache misses

  /** The cache key of the step at position `i`. */
  function PositionKey(w: World, base: string, steps: seq<Step>, i: nat): string
    requires i < |steps|
  {
    ChainKey(w.hash, base, steps[..i + 1])
  }

  predicate Missing(w: World, cached: Entries, base: string, steps: seq<Step>, i: nat)
    requires i < |steps|
  {
    !MetadataOnly(steps[i]) && PositionKey(w, base, steps, i) !in cached
  }

  function MissingFrom(w: World, cached: Entries, base: string, steps: seq<Step>, i: nat): seq<nat>
    requires i <= |steps|
    decreases |steps| - i
  {
    if i == |steps| then []
    else (if Missing(w, cached, base, steps, i) then [i] else []) + MissingFrom(w, cached, base, steps, i + 1)
  }

  /** `key` is the key of one of the first `n` steps that produce a layer. */
  ghost predicate IsStepKey(w: World, base: string, steps: seq<Step>, n: nat, key: string)
    requires n <= |steps|
  {
    exists j :: 0 <= j < n && !MetadataOnly(steps[j]) && key == PositionKey(w, base, steps, j)
  }

  /** The entries are those of `cached` and the keys of the first `n` layer-producing steps. */
  ghost predicate HasKeysOf(entries: Entries, cached: Entries, w: World, base: string, steps: seq<Step>, n: nat)
    requires n <= |steps|
  {
    forall k :: k in entries <==> k in cached || IsStepKey(w, base, steps, n, k)
  }

  lemma PositionKeyStep(w: World, base: string, steps: seq<Step>, i: nat)
    requires i < |steps|
    ensures PositionKey(w, base, steps, i) == CacheKey(w.hash, steps[i], ChainKey(w.hash, base, steps[..i]))
  {
    assert steps[..i + 1][..i] == steps[..i];
  }

  /** Keys of different positions of one list differ. */
  lemma KeysOfPositionsDiffer(w: World, base: string, steps: seq<Step>, i: nat)
    requires Injective(w.hash) && NotADigest(w.hash, base) && i < |steps|
    ensures !IsStepKey(w, base, steps, i, PositionKey(w, base, steps, i))
  {
    forall j: nat | j < i ensures PositionKey(w, base, steps, j) != PositionKey(w, base, steps, i) {
      ChainKeysAgree(w.hash, base, steps[..j + 1], base, steps[..i + 1]);
    }
  }

  ghost predicate DistinctKeys(w: World, base: string, steps: seq<Step>) {
    forall i: nat :: i < |steps| ==> !IsStepKey(w, base, steps, i, PositionKey(w, base, steps, i))
  }

  lemma PythonKeyIsNoStepKey(w: World, base: string, steps: seq<Step>, python: PythonSpec, parent: string)
    requires Injective(w.hash)
    ensures !IsStepKey(w, base, steps, |steps|, PythonKey(w.hash, python, parent))
  {
    forall j: nat | j < |steps| ensures PositionKey(w, base, steps, j) != PythonKey(w.hash, python, parent) {
      PositionKeyStep(w, base, steps, j);
      StepKeyIsNotPythonKey(w.hash, ChainKey(w.hash, base, steps[..j]), steps[j], python, parent);
    }
  }

  lemma StepRunsIfMissing(w: World, cached: Entries, base: string, steps: seq<Step>, p: Progress, i: nat)
    requires DistinctKeys(w, base, steps) && i < |steps|
    requires p.ok && p.parent == ChainKey(w.hash, base, steps[..i])
    requires HasKeysOf(p.entries, cached, w, base, steps, i)
    requires StepOnce(w, false, p, steps[i], i).ok
    ensures var q := StepOnce(w, false, p, steps[i], i);
            && q.parent == ChainKey(w.hash, base, steps[..i + 1])
            && q.ran == p.ran + (if Missing(w, cached, base, steps, i) then [i] else [])
            && HasKeysOf(q.entries, cached, w, base, steps, i + 1)
  {
    PositionKeyStep(w, base, steps, i);
    var key := PositionKey(w, base, steps, i);
    forall k ensures IsStepKey(w, base, steps, i + 1, k) <==>
                     IsStepKey(w, base, steps, i, k) || (!MetadataOnly(steps[i]) && k == key)
    {}
  }

  lemma LoopUnfolds(w: World, p: Progress, steps: seq<Step>, i: nat)
    requires i < |steps| && p.ok && StepsFrom(w, false, p, steps, i).ok
    ensures StepOnce(w, false, p, steps[i], i).ok
    ensures StepsFrom(w, false, p, steps, i) == StepsFrom(w, false, StepOnce(w, false, p, steps[i], i), steps, i + 1)
  {
  }

  lemma JoinedInOrder(a: seq<nat>, b: seq<nat>, c: seq<nat>)
    ensures (a + b) + c == a + (b + c)
  {
  }

  lemma MissingUnfolds(w: World, cached: Entries, base: string, steps: seq<Step>, i: nat)
    requires i < |steps|
    ensures MissingFrom(w, cached, base, steps, i)
            == (if Missing(w, cached, base, steps, i) then [i] else []) + MissingFrom(w, cached, base, steps, i + 1)
  {
  }

  lemma {:induction false} LoopRunsMissing(
      w: World, cached: Entries, base: string, steps: seq<Step>, p: Progress, i: nat)
    requires DistinctKeys(w, base, steps) && i <= |steps|
    requires p.ok && p.parent == ChainKey(w.hash, base, steps[..i])
    requires HasKeysOf(p.entries, cached, w, base, steps, i)
    requires StepsFrom(w, false, p, steps, i).ok
    ensures StepsFrom(w, false, p, steps, i).ran == p.ran + MissingFrom(w, cached, base, steps, i)
    ensures StepsFrom(w, false, p, steps, i).parent == ChainKey(w.hash, base, steps)
    ensures HasKeysOf(StepsFrom(w, false, p, steps, i).entries, cached, w, base, steps, |steps|)
    decreases |steps| - i
  {
    if i == |steps| {
      assert steps[..i] == steps;
    } else {
      LoopUnfolds(w, p, steps, i);
      StepRunsIfMissing(w, cached, base, steps, p, i);
      var q := StepOnce(w, false, p, steps[i], i);
      LoopRunsMissing(w, cached, base, steps, q, i + 1);
      MissingUnfolds(w, cached, base, steps, i);
      JoinedInOrder(p.ran, if Missing(w, cached, base, steps, i) then [i] else [],
                    MissingFrom(w, cached, base, steps, i + 1));
    }
  }

  lemma BuildRunsMissing(w: World, cached: Entries, spec: BuildSpec)
    requires Injective(w.hash) && NotADigest(w.hash, spec.base)
    requires CachedBuild(w, cached, false, spec).layers.Some?
    ensures CachedBuild(w, cached, false, spec).ran == MissingFrom(w, cached, spec.base, spec.steps, 0)
    ensures CachedBuild(w, cached, false, spec).pythonRan <==>
            (spec.python.Some? && SpecPythonKey(w, spec) !in cached)
    ensures forall k :: k in CachedBuild(w, cached, false, spec).entries <==>
              || k in cached
              || IsStepKey(w, spec.base, spec.steps, |spec.steps|, k)
              || (spec.python.Some? && k == SpecPythonKey(w, spec))
  {
    var start := Progress(true, w.baseLayers(spec.base), spec.base, cached, []);
    assert spec.steps[..0] == [];
    forall i: nat | i < |spec.steps|
      ensures !IsStepKey(w, spec.base, spec.steps, i, PositionKey(w, spec.base, spec.steps, i))
    {
      KeysOfPositionsDiffer(w, spec.base, spec.steps, i);
    }
    LoopRunsMissing(w, cached, spec.base, spec.steps, start, 0);
    if spec.python.Some? {
      PythonKeyIsNoStepKey(w, spec.base, spec.steps, spec.python.value, ChainKey(w.hash, spec.base, spec.steps));
    }
  }

  function SpecPythonKey(w: World, spec: BuildSpec): string
    requires spec.python.Some?
  {
    PythonKey(w.hash, spec.python.value, ChainKey(w.hash, spec.base, spec.steps))
  }

  // ---------------------------------------------------------------------------------------
  // Exact invalidation

  function CommonPrefix(s: seq<Step>, t: seq<Step>): (n: nat)
    ensures n <= |s| && n <= |t|
  {
    if s != [] && t != [] && SameStep(s[0], t[0]) then 1 + CommonPrefix(s[1..], t[1..]) else 0
  }

  lemma {:induction false} CommonPrefixIsLongest(s: seq<Step>, t: seq<Step>, n: nat)
    requires n <= |s| && n <= |t|
    ensures SameSteps(s[..n], t[..n]) <==> n <= CommonPrefix(s, t)
    decreases n
  {
    if n > 0 {
      CommonPrefixIsLongest(s[1..], t[1..], n - 1);
      assert s[..n][1..] == s[1..][..n - 1] && t[..n][1..] == t[1..][..n - 1];
      if SameSteps(s[..n], t[..n]) {
        assert SameStep(s[..n][0], t[..n][0]);
        var s', t' := s[1..][..n - 1], t[1..][..n - 1];
        forall i | 0 <= i < n - 1 ensures SameStep(s'[i], t'[i]) {
          assert SameStep(s[..n][i + 1], t[..n][i + 1]);
        }
      }
      if n <= CommonPrefix(s, t) {
        forall i | 0 <= i < n ensures SameStep(s[..n][i], t[..n][i]) {
          if i > 0 { assert SameStep(s[1..][..n - 1][i - 1], t[1..][..n - 1][i - 1]); }
        }
      }
    }
  }

  /** The positions from `i` on, past the first `shared`, whose steps produce a layer. */
  function LayerStepsPast(steps: seq<Step>, shared: nat, i: nat): seq<nat>
    requires i <= |steps|
    decreases |steps| - i
  {
    if i == |steps| then []
    else (if shared <= i && !MetadataOnly(steps[i]) then [i] else []) + LayerStepsPast(steps, shared, i + 1)
  }

  function Shared(first: BuildSpec, second: BuildSpec): nat {
    if first.base == second.base then CommonPrefix(first.steps, second.steps) else 0
  }

  lemma KeysOfSpecsAgree(w: World, base: string, s: seq<Step>, j: nat, base': string, t: seq<Step>, i: nat)
    requires Injective(w.hash) && NotADigest(w.hash, base) && NotADigest(w.hash, base')
    requires j < |s| && i < |t|
    ensures PositionKey(w, base, s, j) == PositionKey(w, base', t, i) <==>
            (base == base' && j == i && i < CommonPrefix(s, t))
  {
    ChainKeysAgree(w.hash, base, s[..j + 1], base', t[..i + 1]);
    if i == j {
      CommonPrefixIsLongest(s, t, i + 1);
    }
  }

  /** After building `first` on an empty cache, the key of a layer-producing step of `second` is cached
  exactly when the step lies in the common prefix. */
  lemma CachedIffShared(w: World, first: BuildSpec, second: BuildSpec, i: nat)
    requires Injective(w.hash) && NotADigest(w.hash, first.base) && NotADigest(w.hash, second.base)
    requires CachedBuild(w, map[], false, first).layers.Some?
    requires i < |second.steps| && !MetadataOnly(second.steps[i])
    ensures PositionKey(w, second.base, second.steps, i) in CachedBuild(w, map[], false, first).entries
            <==> i < Shared(first, second)
  {
    BuildRunsMissing(w, map[], first);
    var s, t := first.steps, second.steps;
    var key := PositionKey(w, second.base, t, i);
    if first.python.Some? {
      PythonKeyIsNoStepKey(w, second.base, t, first.python.value, ChainKey(w.hash, first.base, s));
    }
    forall j: nat | j < |s|
      ensures key == PositionKey(w, first.base, s, j) <==> (j == i && i < Shared(first, second))
    {
      KeysOfSpecsAgree(w, first.base, s, j, second.base, t, i);
    }
    if i < Shared(first, second) {
      CommonPrefixIsLongest(s, t, i + 1);
      assert SameStep(s[..i + 1][i], t[..i + 1][i]);
      assert !MetadataOnly(s[i]) && key == PositionKey(w, first.base, s, i);
    }
  }

  lemma {:induction false} MissingIsPastShared(w: World, first: BuildSpec, second: BuildSpec, i: nat)
    requires Injective(w.hash) && NotADigest(w.hash, first.base) && NotADigest(w.hash, second.base)
    requires CachedBuild(w, map[], false, first).layers.Some?
    requires i <= |second.steps|
    ensures MissingFrom(w, CachedBuild(w, map[], false, first).entries, second.base, second.steps, i)
            == LayerStepsPast(second.steps, Shared(first, second), i)
    decreases |second.steps| - i
  {
    if i < |second.steps| {
      MissingIsPastShared(w, first, second, i + 1);
      if !MetadataOnly(second.steps[i]) {
        CachedIffShared(w, first, second, i);
      }
    }
  }

  /** The Python sections install the same packages on the same layers. */
  ghost predicate SamePython(first: BuildSpec, second: BuildSpec) {
    && first.python.Some? && second.python.Some?
    && first.base == second.base && SameSteps(first.steps, second.steps)
    && first.python.value.version == second.python.value.version
    && multiset(first.python.value.packages) == multiset(second.python.value.packages)
  }

  lemma PythonCachedIffSame(w: World, first: BuildSpec, second: BuildSpec)
    requires Injective(w.hash) && NotADigest(w.hash, first.base) && NotADigest(w.hash, second.base)
    requires CachedBuild(w, map[], false, first).layers.Some? && second.python.Some?
    ensures SpecPythonKey(w, second) in CachedBuild(w, map[], false, first).entries <==> SamePython(first, second)
  {
    BuildRunsMissing(w, map[], first);
    PythonKeyIsNoStepKey(w, first.base, first.steps, second.python.value,
                         ChainKey(w.hash, second.base, second.steps));
    if first.python.Some? {
      PythonKeysAgree(w.hash, first.base, first.steps, first.python.value,
                      second.base, second.steps, second.python.value);
    }
  }

  /** After building one specification on an empty cache, building a second executes exactly its
  layer-producing steps past the longest common prefix, and its Python step exactly when the version,
  the packages or anything before them differs. */
  lemma ExactInvalidation(w: World, first: BuildSpec, second: BuildSpec)
    requires Injective(w.hash) && NotADigest(w.hash, first.base) && NotADigest(w.hash, second.base)
    requires CachedBuild(w, map[], false, first).layers.Some?
    requires CachedBuild(w, CachedBuild(w, map[], false, first).entries, false, second).layers.Some?
    ensures var b := CachedBuild(w, CachedBuild(w, map[], false, first).entries, false, second);
            && b.ran == LayerStepsPast(second.steps, Shared(first, second), 0)
            && (b.pythonRan <==> (second.python.Some? && !SamePython(first, second)))
  {
    BuildRunsMissing(w, CachedBuild(w, map[], false, first).entries, second);
    MissingIsPastShared(w, first, second, 0);
    if second.python.Some? {
      PythonCachedIffSame(w, first, second);
    }
  }

  // ---------------------------------------------------------------------------------------
  // The conditions are needed

  /** A base reference that is a digest stands for the steps it was computed from: a build on it returns the
  layer that another build made on other layers. */
  lemma DigestBaseIsStale(w: World, base: string, dir: string, command: string)
    requires var key := ChainKey(w.hash, base, [WorkdirStep("", dir)]);
             && w.run(w.baseLayers(base), command).Some? && w.run(w.baseLayers(key), command).Some?
             && w.run(w.baseLayers(base), command) != w.run(w.baseLayers(key), command)
    ensures var workdir, run := WorkdirStep("", dir), RunStep("", command);
            var first := BuildSpec(base, [workdir, run], None);
            var second := BuildSpec(ChainKey(w.hash, base, [workdir]), [run], None);
            CachedBuild(w, CachedBuild(w, map[], false, first).entries, false, second).layers != PlainBuild(w, second)
  {
    var workdir, run := WorkdirStep("", dir), RunStep("", command);
    DigestAsBase(w.hash, base, workdir);
    var key := ChainKey(w.hash, base, [workdir]);
    var low, high := w.baseLayers(base), w.baseLayers(key);
    var made := w.run(low, command).value;
    var runKey := CacheKey(w.hash, run, key);
    assert [workdir][..0] == [] && key == CacheKey(w.hash, workdir, base);
    var p0 := Progress(true, low, base, map[], []);
    var p1 := Progress(true, low, key, map[], []);
    assert StepOnce(w, false, p0, workdir, 0) == p1;
    var p2 := StepOnce(w, false, p1, run, 1);
    assert p2.entries == map[runKey := made];
    assert StepsFrom(w, false, p0, [workdir, run], 0) == StepsFrom(w, false, p1, [workdir, run], 1)
                                                      == StepsFrom(w, false, p2, [workdir, run], 2) == p2;
    OneStepCached(w, map[runKey := made], key, run);
    OneStepPlain(w, key, run);
    assert (high + [made])[|high|] != (high + [w.run(high, command).value])[|high|];
  }

  /** The Python key holds neither the path of the virtual environment nor the order of the packages:
  a specification that differs in those alone gets the layer of the other. */
  lemma SameKeyOtherPython(w: World, base: string, p: PythonSpec, q: PythonSpec)
    requires p.version == q.version && multiset(p.packages) == multiset(q.packages)
    requires w.python(w.baseLayers(base), p).Some? && w.python(w.baseLayers(base), q).Some?
    requires w.python(w.baseLayers(base), p) != w.python(w.baseLayers(base), q)
    ensures var cached := CachedBuild(w, map[], false, BuildSpec(base, [], Some(p))).entries;
            CachedBuild(w, cached, false, BuildSpec(base, [], Some(q))).layers
            != PlainBuild(w, BuildSpec(base, [], Some(q)))
  {
    var low := w.baseLayers(base);
    var cached := CachedBuild(w, map[], false, BuildSpec(base, [], Some(p))).entries;
    var l, m := w.python(low, p).value, w.python(low, q).value;
    assert cached == map[PythonKey(w.hash, p, base) := l];
    assert CachedBuild(w, cached, false, BuildSpec(base, [], Some(q))).layers == Some(low + [l]);
    assert (low + [l])[|low|] != (low + [m])[|low|];
  }
}
