/** The build loop with its cache decisions: `pybox/image/builder.py`. */
module ImageBuilders {
  import opened Outcomes
  import opened BuildSpecs
  import opened LayerCaches

  /** Everything outside the builder: the digest function, the base images, and what executing a step
  on the layers below it produces. `None` is a step that raises. */
  datatype World = World(
    hash: Hash,
    baseLayers: string -> seq<Layer>,
    run: (seq<Layer>, string) -> Option<Layer>,
    copy: (string, string) -> Option<Layer>,
    python: (seq<Layer>, PythonSpec) -> Option<Layer>)

  predicate MetadataOnly(step: Step) {
    step.WorkdirStep? || step.EnvStep?
  }

  function Execute(w: World, layers: seq<Layer>, step: Step): Option<Layer>
    requires !MetadataOnly(step)
  {
    if step.RunStep? then w.run(layers, step.run) else w.copy(step.src, step.dst)
  }

  // ---------------------------------------------------------------------------------------
  // Building without a cache

  /** The layers after the given steps, every step executed. */
  function Accumulate(w: World, base: string, steps: seq<Step>): Option<seq<Layer>> {
    if steps == [] then Some(w.baseLayers(base))
    else
      var step := steps[|steps| - 1];
      match Accumulate(w, base, steps[..|steps| - 1])
      case None => None
      case Some(layers) =>
        if MetadataOnly(step) then Some(layers)
        else match Execute(w, layers, step)
          case None => None
          case Some(layer) => Some(layers + [layer])
  }

  function PlainBuild(w: World, spec: BuildSpec): Option<seq<Layer>> {
    match Accumulate(w, spec.base, spec.steps)
    case None => None
    case Some(layers) =>
      match spec.python
      case None => Some(layers)
      case Some(python) =>
        match w.python(layers, python)
        case None => None
        case Some(layer) => Some(layers + [layer])
  }

  // ---------------------------------------------------------------------------------------
  // Building with a cache

  /** The state of the build loop. `ran` lists the positions of the steps that were executed. */
  datatype Progress = Progress(ok: bool, layers: seq<Layer>, parent: string, entries: Entries, ran: seq<nat>)

  /** What one step does: it may raise, produce a layer or none, and is executed or not. */
  datatype StepOutcome =
    | Raised(entries: Entries)
    | Stepped(layer: Option<Layer>, key: string, entries: Entries, ran: bool)

  /** How the puts of one build end: all of them store, or the one after step number `at` stops, which ends
  the build. The Python section counts as the step after the last. */
  datatype Puts = AllStored | StopAt(at: nat, stop: Stop)

  function PutOf(puts: Puts, i: nat): Putting {
    if puts.StopAt? && puts.at == i then Stopped(puts.stop) else Stored
  }

  /** Skip the step, take it from the cache, or execute and store it. */
  function StepResult(
      w: World, noCache: bool, entries: Entries, layers: seq<Layer>, parent: string, step: Step,
      put: Putting := Stored): StepOutcome
  {
    var key := CacheKey(w.hash, step, parent);
    if MetadataOnly(step) then Stepped(None, key, entries, false)
    else if !noCache && key in entries then Stepped(Some(entries[key]), key, entries, false)
    else match Execute(w, layers, step)
      case None => Raised(entries)
      case Some(layer) =>
        var after := AfterPut(entries, key, layer, put);
        if put.Stored? then Stepped(Some(layer), key, after, true) else Raised(after)
  }

  /** The loop state after step number `i`. */
  function StepOnce(w: World, noCache: bool, p: Progress, step: Step, i: nat, puts: Puts := AllStored): Progress {
    match StepResult(w, noCache, p.entries, p.layers, p.parent, step, PutOf(puts, i))
    case Raised(entries) => p.(ok := false, entries := entries)
    case Stepped(layer, key, entries, ran) =>
      Progress(p.ok, if layer.Some? then p.layers + [layer.value] else p.layers, key, entries,
               if ran then p.ran + [i] else p.ran)
  }

  function StepsFrom(
      w: World, noCache: bool, p: Progress, steps: seq<Step>, i: nat, puts: Puts := AllStored): Progress
    requires i <= |steps|
    decreases |steps| - i
  {
    if i == |steps| || !p.ok then p
    else StepsFrom(w, noCache, StepOnce(w, noCache, p, steps[i], i, puts), steps, i + 1, puts)
  }

  datatype Built = Built(layers: Option<seq<Layer>>, entries: Entries, ran: seq<nat>, pythonRan: bool)

  function CachedBuild(
      w: World, entries: Entries, noCache: bool, spec: BuildSpec, puts: Puts := AllStored): Built
  {
    var p := StepsFrom(w, noCache, Progress(true, w.baseLayers(spec.base), spec.base, entries, []), spec.steps, 0,
                       puts);
    if !p.ok then Built(None, p.entries, p.ran, false)
    else match spec.python
      case None => Built(Some(p.layers), p.entries, p.ran, false)
      case Some(python) =>
        var key := PythonKey(w.hash, python, p.parent);
        if !noCache && key in p.entries then Built(Some(p.layers + [p.entries[key]]), p.entries, p.ran, false)
        else match w.python(p.layers, python)
          case None => Built(None, p.entries, p.ran, false)
          case Some(layer) =>
            var put := PutOf(puts, |spec.steps|);
            Built(if put.Stored? then Some(p.layers + [layer]) else None, AfterPut(p.entries, key, layer, put),
                  p.ran, true)
  }

  class ImageBuilder {
    const w: World
    const noCache: bool
    const cache: LayerCache

    constructor (w: World, noCache: bool, cache: LayerCache)
      ensures this.w == w && this.noCache == noCache && this.cache == cache
    {
      this.w := w;
      this.noCache := noCache;
      this.cache := cache;
    }

    /** Executes one step, using the cache if allowed. */
    method ExecuteStep(step: Step, layers: seq<Layer>, parent: string, put: Putting) returns (r: StepOutcome)
      modifies cache
      ensures r == StepResult(w, noCache, old(cache.entries), layers, parent, step, put)
      ensures cache.entries == r.entries
    {
      var key := CacheKey(w.hash, step, parent);
      if MetadataOnly(step) {
        return Stepped(None, key, cache.entries, false);
      }
      var cached := cache.Has(key);
      if !noCache && cached {
        var hit := cache.Get(key);
        return Stepped(Some(hit.value), key, cache.entries, false);
      }
      var built := Execute(w, layers, step);
      if built.None? {
        return Raised(cache.entries);
      }
      var stored := cache.Put(key, built.value, put);
      if !stored {
        return Raised(cache.entries);
      }
      return Stepped(Some(built.value), key, cache.entries, true);
    }

    /** `layer` is `None` when installing or storing raises. */
    method PythonStep(python: PythonSpec, layers: seq<Layer>, parent: string, put: Putting)
      returns (layer: Option<Layer>, ran: bool)
      modifies cache
      ensures var key := PythonKey(w.hash, python, parent);
              if !noCache && key in old(cache.entries)
              then layer == Some(old(cache.entries)[key]) && !ran && cache.entries == old(cache.entries)
              else match w.python(layers, python)
                case None => layer == None && !ran && cache.entries == old(cache.entries)
                case Some(made) =>
                  && layer == (if put.Stored? then Some(made) else None) && ran
                  && cache.entries == AfterPut(old(cache.entries), key, made, put)
    {
      var key := PythonKey(w.hash, python, parent);
      var cached := cache.Has(key);
      if !noCache && cached {
        var hit := cache.Get(key);
        return Some(hit.value), false;
      }
      layer := w.python(layers, python);
      ran := layer.Some?;
      if ran {
        var stored := cache.Put(key, layer.value, put);
        if !stored {
          layer := None;
        }
      }
    }

    /** Builds a specification; `None` when a step or a put raises. */
    method Build(spec: BuildSpec, puts: Puts) returns (layers: Option<seq<Layer>>, ran: seq<nat>, pythonRan: bool)
      modifies cache
      ensures Built(layers, cache.entries, ran, pythonRan) == CachedBuild(w, old(cache.entries), noCache, spec, puts)
    {
      var accumulated, parent := w.baseLayers(spec.base), spec.base;
      ran := [];
      ghost var all := StepsFrom(w, noCache, Progress(true, accumulated, parent, cache.entries, []), spec.steps, 0,
                                 puts);
      for i := 0 to |spec.steps|
        invariant all ==
                  StepsFrom(w, noCache, Progress(true, accumulated, parent, cache.entries, ran), spec.steps, i, puts)
      {
        var step := ExecuteStep(spec.steps[i], accumulated, parent, PutOf(puts, i));
        if step.Raised? {
          return None, ran, false;
        }
        if step.layer.Some? {
          accumulated := accumulated + [step.layer.value];
        }
        parent := step.key;
        if step.ran {
          ran := ran + [i];
        }
      }
      if spec.python.None? {
        return Some(accumulated), ran, false;
      }
      var layer, executed := PythonStep(spec.python.value, accumulated, parent, PutOf(puts, |spec.steps|));
      if layer.None? {
        return None, ran, executed;
      }
      return Some(accumulated + [layer.value]), ran, executed;
    }
  }

  // ---------------------------------------------------------------------------------------
  // What the cache holds

  /** The conditions under which keys stand for results: digests do not collide, and installing
  packages does not depend on the order in which they are listed. */
  ghost predicate Predictable(w: World) {
    && Injective(w.hash)
    && forall layers, p: PythonSpec, q: PythonSpec ::
         p.version == q.version && multiset(p.packages) == multiset(q.packages) && p.venvPath == q.venvPath
         ==> w.python(layers, p) == w.python(layers, q)
  }

  /** Every entry is what executing its step, on the layers its key stands for, produces. */
  ghost predicate Sound(w: World, venv: string, entries: Entries) {
    && (forall base, steps :: NotADigest(w.hash, base) && steps != []
          && !MetadataOnly(steps[|steps| - 1]) && ChainKey(w.hash, base, steps) in entries
          ==> EntryIsStep(w, entries, base, steps))
    && (forall base, steps, python: PythonSpec :: NotADigest(w.hash, base) && python.venvPath == venv
          && PythonKey(w.hash, python, ChainKey(w.hash, base, steps)) in entries
          ==> EntryIsPython(w, entries, base, steps, python))
  }

  ghost predicate EntryIsStep(w: World, entries: Entries, base: string, steps: seq<Step>)
    requires steps != [] && !MetadataOnly(steps[|steps| - 1]) && ChainKey(w.hash, base, steps) in entries
  {
    var below := Accumulate(w, base, steps[..|steps| - 1]);
    below.Some? && Execute(w, below.value, steps[|steps| - 1]) == Some(entries[ChainKey(w.hash, base, steps)])
  }

  ghost predicate EntryIsPython(w: World, entries: Entries, base: string, steps: seq<Step>, python: PythonSpec)
    requires PythonKey(w.hash, python, ChainKey(w.hash, base, steps)) in entries
  {
    var below := Accumulate(w, base, steps);
    && below.Some?
    && w.python(below.value, python) == Some(entries[PythonKey(w.hash, python, ChainKey(w.hash, base, steps))])
  }

  /** Steps that differ only in names and in the order of variables produce the same layers. */
  lemma {:induction false} SameStepsSameLayers(w: World, base: string, s: seq<Step>, t: seq<Step>)
    requires SameSteps(s, t)
    ensures Accumulate(w, base, s) == Accumulate(w, base, t)
    decreases |s|
  {
    if s != [] {
      var n := |s| - 1;
      assert SameStep(s[n], t[n]);
      SameStepsSameLayers(w, base, s[..n], t[..n]);
    }
  }

  lemma PutStepSound(w: World, venv: string, entries: Entries, base: string, steps: seq<Step>, layer: Layer)
    requires Predictable(w) && NotADigest(w.hash, base) && Sound(w, venv, entries)
    requires steps != [] && !MetadataOnly(steps[|steps| - 1])
    requires Accumulate(w, base, steps[..|steps| - 1]).Some?
    requires Execute(w, Accumulate(w, base, steps[..|steps| - 1]).value, steps[|steps| - 1]) == Some(layer)
    ensures Sound(w, venv, entries[ChainKey(w.hash, base, steps) := layer])
  {
    var key := ChainKey(w.hash, base, steps);
    var entries' := entries[key := layer];
    forall b, s: seq<Step> | NotADigest(w.hash, b) && s != [] && !MetadataOnly(s[|s| - 1])
                             && ChainKey(w.hash, b, s) in entries'
      ensures EntryIsStep(w, entries', b, s)
    {
      ChainKeysAgree(w.hash, b, s, base, steps);
      if ChainKey(w.hash, b, s) == key {
        assert SameStep(s[|s| - 1], steps[|steps| - 1]);
        SameStepsSameLayers(w, base, s[..|s| - 1], steps[..|steps| - 1]);
      } else {
        assert EntryIsStep(w, entries, b, s);
      }
    }
    forall b, s, q: PythonSpec | NotADigest(w.hash, b) && q.venvPath == venv
                                 && PythonKey(w.hash, q, ChainKey(w.hash, b, s)) in entries'
      ensures EntryIsPython(w, entries', b, s, q)
    {
      StepKeyIsNotPythonKey(w.hash, ChainKey(w.hash, base, steps[..|steps| - 1]), steps[|steps| - 1], q,
                            ChainKey(w.hash, b, s));
      assert EntryIsPython(w, entries, b, s, q);
    }
  }

  lemma PutPythonSound(
      w: World, venv: string, entries: Entries, base: string, steps: seq<Step>, python: PythonSpec, layer: Layer)
    requires Predictable(w) && NotADigest(w.hash, base) && Sound(w, venv, entries)
    requires python.venvPath == venv && Accumulate(w, base, steps).Some?
    requires w.python(Accumulate(w, base, steps).value, python) == Some(layer)
    ensures Sound(w, venv, entries[PythonKey(w.hash, python, ChainKey(w.hash, base, steps)) := layer])
  {
    var key := PythonKey(w.hash, python, ChainKey(w.hash, base, steps));
    var entries' := entries[key := layer];
    forall b, s: seq<Step> | NotADigest(w.hash, b) && s != [] && !MetadataOnly(s[|s| - 1])
                             && ChainKey(w.hash, b, s) in entries'
      ensures EntryIsStep(w, entries', b, s)
    {
      StepKeyIsNotPythonKey(w.hash, ChainKey(w.hash, b, s[..|s| - 1]), s[|s| - 1], python,
                            ChainKey(w.hash, base, steps));
      assert EntryIsStep(w, entries, b, s);
    }
    forall b, s, q: PythonSpec | NotADigest(w.hash, b) && q.venvPath == venv
                                 && PythonKey(w.hash, q, ChainKey(w.hash, b, s)) in entries'
      ensures EntryIsPython(w, entries', b, s, q)
    {
      PythonKeysAgree(w.hash, b, s, q, base, steps, python);
      if PythonKey(w.hash, q, ChainKey(w.hash, b, s)) == key {
        SameStepsSameLayers(w, base, s, steps);
      } else {
        assert EntryIsPython(w, entries, b, s, q);
      }
    }
  }

  lemma FewerEntriesSound(w: World, venv: string, entries: Entries, fewer: Entries)
    requires Sound(w, venv, entries)
    requires forall k :: k in fewer ==> k in entries && fewer[k] == entries[k]
    ensures Sound(w, venv, fewer)
  {
    forall b, s: seq<Step> | NotADigest(w.hash, b) && s != [] && !MetadataOnly(s[|s| - 1])
                             && ChainKey(w.hash, b, s) in fewer
      ensures EntryIsStep(w, fewer, b, s)
    {
      assert EntryIsStep(w, entries, b, s);
    }
    forall b, s, q: PythonSpec | NotADigest(w.hash, b) && q.venvPath == venv
                                 && PythonKey(w.hash, q, ChainKey(w.hash, b, s)) in fewer
      ensures EntryIsPython(w, fewer, b, s, q)
    {
      assert EntryIsPython(w, entries, b, s, q);
    }
  }

  // ---------------------------------------------------------------------------------------
  // The cached loop follows the uncached one

  /** No put stops within its copy. */
  predicate Harmless(puts: Puts) {
    puts.StopAt? ==> !puts.stop.Within?
  }

  /** The loop stands where the uncached build of `steps` stands. */
  ghost predicate Follows(w: World, venv: string, base: string, steps: seq<Step>, p: Progress) {
    && p.ok
    && Accumulate(w, base, steps) == Some(p.layers)
    && p.parent == ChainKey(w.hash, base, steps)
    && Sound(w, venv, p.entries)
  }

  lemma StepFollows(
      w: World, venv: string, noCache: bool, base: string, steps: seq<Step>, p: Progress, i: nat, puts: Puts)
    requires Predictable(w) && NotADigest(w.hash, base) && i < |steps|
    requires Follows(w, venv, base, steps[..i], p) && Harmless(puts)
    ensures var q := StepOnce(w, noCache, p, steps[i], i, puts);
            && (q.ok ==> Follows(w, venv, base, steps[..i + 1], q))
            && (!q.ok ==> Sound(w, venv, q.entries))
            && (puts.AllStored? ==> (q.ok <==> Accumulate(w, base, steps[..i + 1]).Some?))
  {
    var upTo := steps[..i + 1];
    assert upTo[..i] == steps[..i] && upTo[i] == steps[i];
    var key := CacheKey(w.hash, steps[i], p.parent);
    assert key == ChainKey(w.hash, base, upTo);
    if !MetadataOnly(steps[i]) {
      if !noCache && key in p.entries {
        assert EntryIsStep(w, p.entries, base, upTo);
      } else if Execute(w, p.layers, steps[i]).Some? {
        PutStepSound(w, venv, p.entries, base, upTo, Execute(w, p.layers, steps[i]).value);
      }
    }
  }

  lemma {:induction false} FailureIsFinal(w: World, base: string, steps: seq<Step>, i: nat)
    requires i <= |steps| && Accumulate(w, base, steps[..i]).None?
    ensures Accumulate(w, base, steps).None?
    decreases |steps| - i
  {
    if i == |steps| {
      assert steps[..i] == steps;
    } else {
      assert steps[..i + 1][..i] == steps[..i];
      FailureIsFinal(w, base, steps, i + 1);
    }
  }

  lemma {:induction false} LoopFollows(
      w: World, venv: string, noCache: bool, base: string, steps: seq<Step>, p: Progress, i: nat, puts: Puts)
    requires Predictable(w) && NotADigest(w.hash, base) && i <= |steps|
    requires Follows(w, venv, base, steps[..i], p) && Harmless(puts)
    ensures var q := StepsFrom(w, noCache, p, steps, i, puts);
            && (q.ok ==> Follows(w, venv, base, steps, q))
            && (!q.ok ==> Sound(w, venv, q.entries))
            && (puts.AllStored? ==> (q.ok <==> Accumulate(w, base, steps).Some?))
    decreases |steps| - i
  {
    if i == |steps| {
      assert steps[..i] == steps;
    } else {
      StepFollows(w, venv, noCache, base, steps, p, i, puts);
      var q := StepOnce(w, noCache, p, steps[i], i, puts);
      if q.ok {
        LoopFollows(w, venv, noCache, base, steps, q, i + 1, puts);
      } else if puts.AllStored? {
        FailureIsFinal(w, base, steps, i + 1);
      }
    }
  }

  ghost predicate Admissible(w: World, venv: string, spec: BuildSpec) {
    && NotADigest(w.hash, spec.base)
    && (spec.python.Some? ==> spec.python.value.venvPath == venv)
  }

  /** With a sound cache a build returns what executing every step returns. It leaves the cache sound, also
  when a put stops before its copy or after it. */
  lemma CachedBuildIsPlain(
      w: World, venv: string, entries: Entries, noCache: bool, spec: BuildSpec, puts: Puts)
    requires Predictable(w) && Admissible(w, venv, spec) && Sound(w, venv, entries) && Harmless(puts)
    ensures puts.AllStored? ==> CachedBuild(w, entries, noCache, spec, puts).layers == PlainBuild(w, spec)
    ensures Sound(w, venv, CachedBuild(w, entries, noCache, spec, puts).entries)
  {
    var start := Progress(true, w.baseLayers(spec.base), spec.base, entries, []);
    assert spec.steps[..0] == [];
    LoopFollows(w, venv, noCache, spec.base, spec.steps, start, 0, puts);
    var p := StepsFrom(w, noCache, start, spec.steps, 0, puts);
    if p.ok && spec.python.Some? {
      var python := spec.python.value;
      if !noCache && PythonKey(w.hash, python, p.parent) in p.entries {
        assert EntryIsPython(w, p.entries, spec.base, spec.steps, python);
      } else if w.python(p.layers, python).Some? {
        PutPythonSound(w, venv, p.entries, spec.base, spec.steps, python, w.python(p.layers, python).value);
      }
    }
  }

  // ---------------------------------------------------------------------------------------
  // Whole histories of one shared cache

  /** A build, with the world as it is at that time. */
  datatype Event =
    | BuiltWith(world: World, spec: BuildSpec, noCache: bool, puts: Puts)
    | Evicted(stepHash: string)
    | Cleared

  function After(events: seq<Event>): Entries {
    if events == [] then map[]
    else
      var entries := After(events[..|events| - 1]);
      match events[|events| - 1]
      case BuiltWith(w, spec, noCache, puts) => CachedBuild(w, entries, noCache, spec, puts).entries
      case Evicted(key) => entries - {key}
      case Cleared => map[]
  }

  /** What may differ in earlier builds: puts stop within their copies, base references name other layers,
  the build context holds other files, and commands or installations give other results. */
  datatype Conditions = Conditions(cutPuts: bool, movedBases: bool, changedContext: bool, otherResults: bool)

  const FROZEN := Conditions(false, false, false, false)

  /** Builds are admissible, and their worlds differ from `w` only as the conditions admit. */
  ghost predicate Allowed(w: World, venv: string, events: seq<Event>, c: Conditions) {
    forall e :: e in events && e.BuiltWith? ==>
      && Admissible(w, venv, e.spec)
      && (c.cutPuts || Harmless(e.puts))
      && e.world.hash == w.hash
      && (c.movedBases || e.world.baseLayers == w.baseLayers)
      && (c.changedContext || e.world.copy == w.copy)
      && (c.otherResults || (e.world.run == w.run && e.world.python == w.python))
  }

  lemma {:induction false} HistorySound(w: World, venv: string, events: seq<Event>)
    requires Predictable(w) && Allowed(w, venv, events, FROZEN)
    ensures Sound(w, venv, After(events))
    decreases |events|
  {
    if events != [] {
      var past, e := events[..|events| - 1], events[|events| - 1];
      HistorySound(w, venv, past);
      if e.BuiltWith? {
        assert e in events;
        CachedBuildIsPlain(w, venv, After(past), e.noCache, e.spec, e.puts);
      } else {
        FewerEntriesSound(w, venv, After(past), After(events));
      }
    }
  }

  /** After any sequence of builds in one world, evictions and clears on a shared cache, with puts that may stop
  before or after their copies, a cached build returns the same layers as a build that ignores the cache,
  which are those of executing every step. */
  lemma CacheTransparency(w: World, venv: string, events: seq<Event>, spec: BuildSpec)
    requires Predictable(w) && Admissible(w, venv, spec) && Allowed(w, venv, events, FROZEN)
    ensures CachedBuild(w, After(events), false, spec).layers
            == CachedBuild(w, After(events), true, spec).layers
            == PlainBuild(w, spec)
  {
    HistorySound(w, venv, events);
    CachedBuildIsPlain(w, venv, After(events), false, spec, AllStored);
    CachedBuildIsPlain(w, venv, After(events), true, spec, AllStored);
  }

  ghost predicate Transparent(w: World, events: seq<Event>, spec: BuildSpec) {
    CachedBuild(w, After(events), false, spec).layers == PlainBuild(w, spec)
  }

  ghost predicate AlwaysTransparent(w: World, venv: string, c: Conditions) {
    forall events, spec :: Allowed(w, venv, events, c) && Admissible(w, venv, spec) ==> Transparent(w, events, spec)
  }

  // ---------------------------------------------------------------------------------------
  // Exactly when cached builds are plain

  function OneStep(base: string, step: Step): BuildSpec {
    BuildSpec(base, [step], None)
  }

  function LayerOf(entry: Layer, put: Putting): Layer {
    if put.Stopped? && put.stop.Within? && put.stop.kept <= |entry| then entry[..put.stop.kept] else entry
  }

  /** Building one step on an empty cache: what a build in another world leaves for its key. */
  lemma OneStepStored(v: World, base: string, step: Step, puts: Puts)
    requires !MetadataOnly(step) && Execute(v, v.baseLayers(base), step).Some?
    requires puts == AllStored || (puts.StopAt? && puts.at == 0 && puts.stop.Within?)
    ensures After([BuiltWith(v, OneStep(base, step), false, puts)])
            == map[CacheKey(v.hash, step, base) := LayerOf(Execute(v, v.baseLayers(base), step).value, PutOf(puts, 0))]
  {
    var spec, events := OneStep(base, step), [BuiltWith(v, OneStep(base, step), false, puts)];
    var start := Progress(true, v.baseLayers(base), base, map[], []);
    assert events[..0] == [] && After([]) == map[];
    assert StepsFrom(v, false, start, spec.steps, 0, puts) == StepOnce(v, false, start, step, 0, puts);
  }

  lemma OneStepCached(w: World, cached: Entries, base: string, step: Step)
    requires !MetadataOnly(step) && CacheKey(w.hash, step, base) in cached
    ensures CachedBuild(w, cached, false, OneStep(base, step)).layers
            == Some(w.baseLayers(base) + [cached[CacheKey(w.hash, step, base)]])
  {
    var p := Progress(true, w.baseLayers(base), base, cached, []);
    assert StepsFrom(w, false, p, [step], 0) == StepOnce(w, false, p, step, 0);
  }

  lemma OneStepPlain(w: World, base: string, step: Step)
    requires !MetadataOnly(step)
    ensures PlainBuild(w, OneStep(base, step))
            == match Execute(w, w.baseLayers(base), step)
               case None => None
               case Some(layer) => Some(w.baseLayers(base) + [layer])
  {
    assert [step][..0] == [] && Accumulate(w, base, []) == Some(w.baseLayers(base));
  }

  /** A build in another world, or one whose put stops within its copy, leaves another layer for the key of
  this world's step: the next build returns that layer. */
  lemma StaleStep(w: World, v: World, base: string, step: Step, puts: Puts)
    requires v.hash == w.hash && !MetadataOnly(step) && Execute(v, v.baseLayers(base), step).Some?
    requires puts == AllStored || (puts.StopAt? && puts.at == 0 && puts.stop.Within?)
    requires Execute(w, w.baseLayers(base), step)
             != Some(LayerOf(Execute(v, v.baseLayers(base), step).value, PutOf(puts, 0)))
    ensures !Transparent(w, [BuiltWith(v, OneStep(base, step), false, puts)], OneStep(base, step))
  {
    var events, low := [BuiltWith(v, OneStep(base, step), false, puts)], w.baseLayers(base);
    OneStepStored(v, base, step, puts);
    var stale := LayerOf(Execute(v, v.baseLayers(base), step).value, PutOf(puts, 0));
    OneStepCached(w, After(events), base, step);
    OneStepPlain(w, base, step);
    if Execute(w, low, step).Some? {
      assert (low + [stale])[|low|] != (low + [Execute(w, low, step).value])[|low|];
    }
  }

  /** A put that stops within its copy leaves a part of the tarball that the next build returns. */
  lemma CutPutIsStale(w: World, base: string, command: string)
    requires var made := w.run(w.baseLayers(base), command); made.Some? && made.value != []
    ensures var spec := OneStep(base, RunStep("", command));
            !Transparent(w, [BuiltWith(w, spec, false, StopAt(0, Within(0)))], spec)
  {
    StaleStep(w, w, base, RunStep("", command), StopAt(0, Within(0)));
  }

  /** Keys hold the base reference only: when it names other layers later, a step made on the old ones is put on
  top of the new ones. */
  lemma MovedBaseIsStale(w: World, base: string, command: string, before: seq<Layer>)
    requires w.run(before, command).Some? && w.run(before, command) != w.run(w.baseLayers(base), command)
    ensures var spec, v := OneStep(base, RunStep("", command)), w.(baseLayers := (_ => before));
            !Transparent(w, [BuiltWith(v, spec, false, AllStored)], spec)
  {
    StaleStep(w, w.(baseLayers := (_ => before)), base, RunStep("", command), AllStored);
  }

  /** A copy key holds paths only: when the build context changes between two builds, the second one returns
  the files of the first. */
  lemma ChangedContextIsStale(w: World, base: string, src: string, dst: string, before: Layer)
    requires w.copy(src, dst) != Some(before)
    ensures var spec, v := OneStep(base, CopyStep("", src, dst)), w.(copy := (_, _) => Some(before));
            !Transparent(w, [BuiltWith(v, spec, false, AllStored)], spec)
  {
    StaleStep(w, w.(copy := (_, _) => Some(before)), base, CopyStep("", src, dst), AllStored);
  }

  /** A command that does not give the same result every time keeps its first one. */
  lemma OtherResultIsStale(w: World, base: string, command: string, before: Layer)
    requires w.run(w.baseLayers(base), command) != Some(before)
    ensures var spec, v := OneStep(base, RunStep("", command)), w.(run := (_, _) => Some(before));
            !Transparent(w, [BuiltWith(v, spec, false, AllStored)], spec)
  {
    StaleStep(w, w.(run := (_, _) => Some(before)), base, RunStep("", command), AllStored);
  }

  lemma NotTransparent(w: World, venv: string, c: Conditions, v: World, spec: BuildSpec, puts: Puts)
    requires Admissible(w, venv, spec) && Allowed(w, venv, [BuiltWith(v, spec, false, puts)], c)
    requires !Transparent(w, [BuiltWith(v, spec, false, puts)], spec)
    ensures !AlwaysTransparent(w, venv, c)
  {
  }

  /** Some layer other than this result. */
  function Another(made: Option<Layer>): (l: Layer)
    ensures made != Some(l)
  {
    if made == Some([]) then [0] else []
  }

  /** Where some command gives a layer that is not empty, and another one on the layers `before`: in every
  history, for every specification, a cached build returns what executing every step returns if and only if
  no put stops within its copy, base references name the same layers in all builds, the build context holds
  the same files, and commands and installations give the same results. */
  lemma TransparentExactly(
      w: World, venv: string, c: Conditions, base: string, command: string, before: seq<Layer>)
    requires Predictable(w) && NotADigest(w.hash, base)
    requires var made := w.run(w.baseLayers(base), command); made.Some? && made.value != []
    requires w.run(before, command).Some? && w.run(before, command) != w.run(w.baseLayers(base), command)
    ensures AlwaysTransparent(w, venv, c)
            <==> !c.cutPuts && !c.movedBases && !c.changedContext && !c.otherResults
  {
    var made := w.run(w.baseLayers(base), command);
    var run, copy := OneStep(base, RunStep("", command)), OneStep(base, CopyStep("", "", ""));
    if c.cutPuts {
      CutPutIsStale(w, base, command);
      NotTransparent(w, venv, c, w, run, StopAt(0, Within(0)));
    } else if c.movedBases {
      MovedBaseIsStale(w, base, command, before);
      NotTransparent(w, venv, c, w.(baseLayers := (_ => before)), run, AllStored);
    } else if c.changedContext {
      var other := Another(w.copy("", ""));
      ChangedContextIsStale(w, base, "", "", other);
      NotTransparent(w, venv, c, w.(copy := (_, _) => Some(other)), copy, AllStored);
    } else if c.otherResults {
      var other := Another(made);
      OtherResultIsStale(w, base, command, other);
      NotTransparent(w, venv, c, w.(run := (_, _) => Some(other)), run, AllStored);
    } else {
      assert c == FROZEN;
      forall events, spec | Allowed(w, venv, events, FROZEN) && Admissible(w, venv, spec)
        ensures Transparent(w, events, spec)
      {
        CacheTransparency(w, venv, events, spec);
      }
    }
  }
}
