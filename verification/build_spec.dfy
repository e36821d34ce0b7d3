/** Build steps and their chained cache keys: `pybox/image/build_spec.py`. */
module BuildSpecs {
  import opened Outcomes

  datatype Step =
    | RunStep(name: string, run: string)
    | CopyStep(name: string, src: string, dst: string)
    | WorkdirStep(name: string, workdir: string)
    | EnvStep(name: string, env: seq<(string, string)>)   // a dictionary, in insertion order

  datatype PythonSpec = PythonSpec(version: string, packages: seq<string>, venvPath: string)

  datatype BuildSpec = BuildSpec(base: string, steps: seq<Step>, python: Option<PythonSpec>)

  /** The JSON document a key is the digest of. Its fields are sorted, so a dictionary counts as a map
  and a sorted package list as a multiset. */
  datatype Payload =
    | RunPayload(run: string, parent: string)
    | CopyPayload(src: string, dst: string, parent: string)
    | WorkdirPayload(workdir: string, parent: string)
    | EnvPayload(env: map<string, string>, parent: string)
    | PythonPayload(version: string, packages: multiset<string>, parent: string)

  type Hash = Payload -> string

  ghost predicate Injective(hash: Hash) {
    forall p, q :: hash(p) == hash(q) ==> p == q
  }

  /** A base reference that is not itself a digest. */
  ghost predicate NotADigest(hash: Hash, base: string) {
    forall p :: hash(p) != base
  }

  function EnvMap(env: seq<(string, string)>): map<string, string> {
    if env == [] then map[]
    else EnvMap(env[..|env| - 1])[env[|env| - 1].0 := env[|env| - 1].1]
  }

  /** The pair at this position is the last one with its name. */
  predicate LastOf(env: seq<(string, string)>, i: int) {
    0 <= i < |env| && forall j :: i < j < |env| ==> env[j].0 != env[i].0
  }

  ghost predicate Assigned(env: seq<(string, string)>, name: string, value: string) {
    exists i :: LastOf(env, i) && env[i] == (name, value)
  }

  /** A variable has the value of its last assignment, and there are no others. */
  lemma {:induction false} EnvMapExactly(env: seq<(string, string)>, name: string, value: string)
    ensures name in EnvMap(env) && EnvMap(env)[name] == value
            <==> Assigned(env, name, value)
    decreases |env|
  {
    if env != [] {
      var init, n := env[..|env| - 1], |env| - 1;
      EnvMapExactly(init, name, value);
      assert LastOf(env, n);
      if env[n].0 != name {
        forall i | 0 <= i < n && env[i].0 == name ensures LastOf(env, i) <==> LastOf(init, i) {
          assert forall j :: i < j < n ==> init[j] == env[j];
        }
        if i :| LastOf(init, i) && init[i] == (name, value) { assert LastOf(env, i); }
        if i :| LastOf(env, i) && env[i] == (name, value) { assert LastOf(init, i); }
      }
    }
  }

  function CacheKey(hash: Hash, step: Step, parent: string): string {
    match step
    case RunStep(_, run) => hash(RunPayload(run, parent))
    case CopyStep(_, src, dst) => hash(CopyPayload(src, dst, parent))
    case WorkdirStep(_, workdir) => hash(WorkdirPayload(workdir, parent))
    case EnvStep(_, env) => hash(EnvPayload(EnvMap(env), parent))
  }

  function PythonKey(hash: Hash, python: PythonSpec, parent: string): string {
    hash(PythonPayload(python.version, multiset(python.packages), parent))
  }

  /** The digest chain over a list of steps, starting from the base reference. */
  function ChainKey(hash: Hash, base: string, steps: seq<Step>): string {
    if steps == [] then base
    else CacheKey(hash, steps[|steps| - 1], ChainKey(hash, base, steps[..|steps| - 1]))
  }

  /** The steps differ at most in their names and in the order of environment variables. */
  predicate SameStep(s: Step, t: Step) {
    match (s, t)
    case (RunStep(_, a), RunStep(_, b)) => a == b
    case (CopyStep(_, a, c), CopyStep(_, b, d)) => a == b && c == d
    case (WorkdirStep(_, a), WorkdirStep(_, b)) => a == b
    case (EnvStep(_, a), EnvStep(_, b)) => EnvMap(a) == EnvMap(b)
    case _ => false
  }

  ghost predicate SameAssignments(a: seq<(string, string)>, b: seq<(string, string)>) {
    forall k, v :: Assigned(a, k, v) <==> Assigned(b, k, v)
  }

  lemma EnvMapsAgree(a: seq<(string, string)>, b: seq<(string, string)>)
    ensures EnvMap(a) == EnvMap(b) <==> SameAssignments(a, b)
  {
    var m, n := EnvMap(a), EnvMap(b);
    forall k, v ensures (k in m && m[k] == v) <==> Assigned(a, k, v) { EnvMapExactly(a, k, v); }
    forall k, v ensures (k in n && n[k] == v) <==> Assigned(b, k, v) { EnvMapExactly(b, k, v); }
    if SameAssignments(a, b) {
      forall k ensures (k in m <==> k in n) && (k in m ==> m[k] == n[k]) {
        if k in m { assert Assigned(a, k, m[k]); }
        if k in n { assert Assigned(b, k, n[k]); }
      }
      assert m == n;
    }
  }

  /** Environments agree exactly when every variable has the same last value in both; other steps when they are
  equal up to their names. */
  lemma SameStepExactly(s: Step, t: Step)
    ensures SameStep(s, t) <==>
              if s.EnvStep? && t.EnvStep? then SameAssignments(s.env, t.env) else s.(name := "") == t.(name := "")
  {
    if s.EnvStep? && t.EnvStep? { EnvMapsAgree(s.env, t.env); }
  }

  ghost predicate SameSteps(s: seq<Step>, t: seq<Step>) {
    |s| == |t| && forall i :: 0 <= i < |s| ==> SameStep(s[i], t[i])
  }

  lemma CacheKeysAgree(hash: Hash, s: Step, parent: string, t: Step, parent': string)
    requires Injective(hash)
    ensures CacheKey(hash, s, parent) == CacheKey(hash, t, parent') <==> SameStep(s, t) && parent == parent'
  {
  }

  lemma SameStepsSnoc(s: seq<Step>, t: seq<Step>)
    requires s != [] && t != []
    ensures SameSteps(s, t)
            <==> SameSteps(s[..|s| - 1], t[..|t| - 1]) && SameStep(s[|s| - 1], t[|t| - 1])
  {
    var n, m := |s| - 1, |t| - 1;
    if SameSteps(s[..n], t[..m]) && SameStep(s[n], t[m]) {
      forall i | 0 <= i < |s| ensures SameStep(s[i], t[i]) {
        if i < n { assert s[i] == s[..n][i] && t[i] == t[..m][i]; }
      }
    }
  }

  lemma KeyIsNotBase(hash: Hash, base: string, step: Step, parent: string)
    requires NotADigest(hash, base)
    ensures CacheKey(hash, step, parent) != base
  {
  }

  /** Chained keys agree exactly when bases and steps agree up to step names and the order of
  environment variables. */
  lemma {:induction false} ChainKeysAgree(hash: Hash, base: string, s: seq<Step>, base': string, t: seq<Step>)
    requires Injective(hash) && NotADigest(hash, base) && NotADigest(hash, base')
    ensures ChainKey(hash, base, s) == ChainKey(hash, base', t) <==> base == base' && SameSteps(s, t)
    decreases |s| + |t|
  {
    var n, m := |s| - 1, |t| - 1;
    if s == [] && t == [] {
    } else if s == [] {
      KeyIsNotBase(hash, base, t[m], ChainKey(hash, base', t[..m]));
    } else if t == [] {
      KeyIsNotBase(hash, base', s[n], ChainKey(hash, base, s[..n]));
    } else {
      ChainKeysAgree(hash, base, s[..n], base', t[..m]);
      CacheKeysAgree(hash, s[n], ChainKey(hash, base, s[..n]), t[m], ChainKey(hash, base', t[..m]));
      SameStepsSnoc(s, t);
    }
  }

  lemma {:induction false} PythonKeysAgree(
      hash: Hash, base: string, s: seq<Step>, p: PythonSpec, base': string, t: seq<Step>, q: PythonSpec)
    requires Injective(hash) && NotADigest(hash, base) && NotADigest(hash, base')
    ensures PythonKey(hash, p, ChainKey(hash, base, s)) == PythonKey(hash, q, ChainKey(hash, base', t)) <==>
            && p.version == q.version && multiset(p.packages) == multiset(q.packages)
            && base == base' && SameSteps(s, t)
  {
    ChainKeysAgree(hash, base, s, base', t);
  }

  /** No chained key of a non-empty step list is a Python key. */
  lemma StepKeyIsNotPythonKey(
      hash: Hash, parent: string, step: Step, python: PythonSpec, parent': string)
    requires Injective(hash)
    ensures CacheKey(hash, step, parent) != PythonKey(hash, python, parent')
  {
  }

  /** Without the condition on bases the chain is ambiguous: a digest used as a base reference stands
  for the steps it was computed from. */
  lemma DigestAsBase(hash: Hash, base: string, step: Step)
    ensures ChainKey(hash, ChainKey(hash, base, [step]), []) == ChainKey(hash, base, [step])
    ensures !SameSteps([], [step])
  {
  }
}
