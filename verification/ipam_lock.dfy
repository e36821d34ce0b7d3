/** Any number of processes working on one `ipam.json` under one lock file: `pybox/network/ipam.py`. */
module AddressLocking {
  import opened Outcomes
  import opened AddressPools

  /** A successful allocation; what its caller holds until it calls release. */
  type Grant = nat

  /** `Drop` is a release of an address without holding it. */
  datatype Op = Allocate | Release(grant: Grant) | Drop(ip: Address)

  /** Where a process is in `allocate` or `release`. `Writing` has truncated the state file; `released` and
  `granted` are the address to give up and the address to return. */
  datatype Process =
    | Idle
    | Locking(op: Op, attempts: nat)
    | Loading(released: Option<Address>)
    | Opening(inUse: set<Address>, granted: Option<Address>)
    | Writing(inUse: set<Address>, granted: Option<Address>)
    | Unlocking(granted: Option<Address>)
    | Dead(holding: bool)

  /** Process k manages `pools[k]`; all share the state file and the lock file. */
  datatype State = State(pools: seq<Pool>, procs: seq<Process>, lock: bool, file: StateFile,
                         held: map<Grant, Address>, next: Grant)

  /** What may go wrong besides crashes and timeouts: reads that raise and count as an empty pool, saves that
  raise, releases of addresses not held. */
  datatype Conditions = Conditions(loadsMayFail: bool, savesMayFail: bool, looseReleases: bool)

  datatype Event = Call(k: nat, op: Op) | Advance(k: nat) | LoadFails(k: nat) | SaveFails(k: nat) | Crash(k: nat)

  // ---------------------------------------------------------------------------------------
  // Steps

  predicate Critical(p: Process) {
    p.Loading? || p.Opening? || p.Writing? || p.Unlocking? || (p.Dead? && p.holding)
  }

  predicate IsReleasing(p: Process, g: Grant) {
    p.Locking? && p.op == Release(g)
  }

  /** A caller releases a grant it holds, once. */
  predicate MayCall(c: Conditions, s: State, op: Op) {
    match op
    case Allocate => true
    case Release(g) => g in s.held && forall j :: 0 <= j < |s.procs| ==> !IsReleasing(s.procs[j], g)
    case Drop(ip) => c.looseReleases
  }

  function Put(s: State, k: nat, p: Process): State
    requires k < |s.procs|
  {
    s.(procs := s.procs[k := p])
  }

  /** The lock file is created exclusively; after the fiftieth failure the call raises. */
  function TryLock(s: State, k: nat, op: Op, attempts: nat): State
    requires k < |s.procs|
  {
    if s.lock then
      Put(s, k, if attempts + 1 >= ATTEMPTS then Idle else Locking(op, attempts + 1))
    else match op
      case Allocate => Put(s, k, Loading(None)).(lock := true)
      case Release(g) =>
        if g in s.held then Put(s, k, Loading(Some(s.held[g]))).(lock := true, held := s.held - {g}) else s
      case Drop(ip) => Put(s, k, Loading(Some(ip))).(lock := true)
  }

  /** What `allocate` or `release` makes of the addresses it has read. */
  function Loaded(s: State, k: nat, released: Option<Address>, inUse: set<Address>): State
    requires k < |s.procs| == |s.pools|
  {
    match released
    case Some(ip) => Put(s, k, Opening(inUse - {ip}, None))
    case None =>
      match Next(s.pools[k], inUse)
      case None => Put(s, k, Unlocking(None))
      case Some(h) => Put(s, k, Opening(inUse + {h}, Some(h)))
  }

  function Proceed(s: State, k: nat): State
    requires k < |s.procs| == |s.pools|
  {
    match s.procs[k]
    case Idle => s
    case Locking(op, attempts) => TryLock(s, k, op, attempts)
    case Loading(released) => Loaded(s, k, released, Load(s.file))
    case Opening(inUse, granted) => Put(s, k, Writing(inUse, granted)).(file := Torn)
    case Writing(inUse, granted) => Put(s, k, Unlocking(granted)).(file := Good(inUse))
    case Unlocking(granted) => (
      var t := Put(s, k, Idle).(lock := false);
      match granted
      case None => t
      case Some(h) => t.(held := s.held[s.next := h], next := s.next + 1))
    case Dead(_) => s
  }

  /** An event that is not possible changes nothing. */
  function Step(c: Conditions, s: State, e: Event): (r: State)
    requires |s.pools| == |s.procs|
    ensures |r.pools| == |r.procs|
  {
    if e.k >= |s.procs| then s
    else match e
      case Call(k, op) =>
        if s.procs[k].Idle? && MayCall(c, s, op) then Put(s, k, Locking(op, 0)) else s
      case Advance(k) => Proceed(s, k)
      case LoadFails(k) =>
        if c.loadsMayFail && s.procs[k].Loading? then Loaded(s, k, s.procs[k].released, {}) else s
      case SaveFails(k) =>
        if c.savesMayFail && (s.procs[k].Opening? || s.procs[k].Writing?) then Put(s, k, Unlocking(None)) else s
      case Crash(k) => Put(s, k, Dead(Critical(s.procs[k])))
  }

  function Run(c: Conditions, s: State, events: seq<Event>): (r: State)
    requires |s.pools| == |s.procs|
    ensures |r.pools| == |r.procs|
    decreases |events|
  {
    if events == [] then s else Run(c, Step(c, s, events[0]), events[1..])
  }

  /** No lock file, nobody inside, a readable state file holding every address handed out. */
  ghost predicate Initial(s: State) {
    && |s.pools| == |s.procs|
    && !s.lock && !s.file.Torn?
    && (forall k :: 0 <= k < |s.procs| ==> s.procs[k] == Idle)
    && Injective(s.held)
    && (forall g :: g in s.held ==> s.held[g] in Load(s.file) && g < s.next)
  }

  ghost predicate Injective(held: map<Grant, Address>) {
    forall g, h :: g in held && h in held && held[g] == held[h] ==> g == h
  }

  // ---------------------------------------------------------------------------------------
  // Mutual exclusion: under all conditions

  ghost predicate Exclusive(s: State) {
    forall i, j :: 0 <= i < |s.procs| && 0 <= j < |s.procs| && Critical(s.procs[i]) && Critical(s.procs[j]) ==> i == j
  }

  ghost predicate Guarded(s: State) {
    && |s.pools| == |s.procs|
    && Exclusive(s)
    && forall i :: 0 <= i < |s.procs| && Critical(s.procs[i]) ==> s.lock
  }

  lemma StepGuarded(c: Conditions, s: State, e: Event)
    requires Guarded(s)
    ensures Guarded(Step(c, s, e))
  {
    if e.k < |s.procs| {
      assert Critical(s.procs[e.k]) ==> s.lock;
    }
  }

  /** In every run at most one process is between taking the lock and giving it back, dead ones included. */
  lemma {:induction false} MutualExclusion(c: Conditions, s: State, events: seq<Event>)
    requires Guarded(s)
    ensures Guarded(Run(c, s, events))
    decreases |events|
  {
    if events != [] {
      StepGuarded(c, s, events[0]);
      MutualExclusion(c, Step(c, s, events[0]), events[1..]);
    }
  }

  /** A lock left behind by a crash is never removed: from then on the state file and the grants in force stay
  as they are, and every call ends in a timeout. */
  lemma {:induction false} StaleLock(c: Conditions, s: State, dead: nat, events: seq<Event>)
    requires Guarded(s) && dead < |s.procs| && s.procs[dead] == Dead(true)
    ensures var r := Run(c, s, events);
            && r.lock && r.file == s.file && r.held == s.held
            && forall k :: 0 <= k < |r.procs| && k != dead ==> !Critical(r.procs[k])
    decreases |events|
  {
    if events != [] {
      var t := Step(c, s, events[0]);
      StepGuarded(c, s, events[0]);
      assert Critical(s.procs[dead]);
      assert t.lock && t.file == s.file && t.held == s.held && t.procs[dead] == Dead(true);
      StaleLock(c, t, dead, events[1..]);
    } else {
      assert Critical(s.procs[dead]);
    }
  }

  function Advances(k: nat, n: nat): seq<Event> {
    seq(n, _ => Advance(k))
  }

  /** While the lock file stays, a call gives up after exactly fifty attempts and has changed nothing. */
  lemma {:induction false} GivesUp(c: Conditions, s: State, k: nat, op: Op, attempts: nat, n: nat)
    requires |s.pools| == |s.procs| && k < |s.procs| && s.lock
    requires s.procs[k] == Locking(op, attempts) && attempts < 50
    ensures Run(c, s, Advances(k, n))
            == Put(s, k, if attempts + n < 50 then Locking(op, attempts + n) else Idle)
    decreases n
  {
    assert s.procs[k := s.procs[k]] == s.procs;
    if n > 0 {
      assert Advances(k, n)[1..] == Advances(k, n - 1);
      var t := Step(c, s, Advance(k));
      if attempts + 1 < ATTEMPTS {
        GivesUp(c, t, k, op, attempts + 1, n - 1);
      } else {
        StaysIdle(c, t, k, n - 1);
      }
    }
  }

  lemma {:induction false} StaysIdle(c: Conditions, s: State, k: nat, n: nat)
    requires |s.pools| == |s.procs| && k < |s.procs| && s.procs[k].Idle?
    ensures Run(c, s, Advances(k, n)) == s
    decreases n
  {
    if n > 0 {
      assert Advances(k, n)[1..] == Advances(k, n - 1);
      StaysIdle(c, s, k, n - 1);
    }
  }

  // ---------------------------------------------------------------------------------------
  // Distinct addresses: without failing reads and saves and loose releases

  predicate NotHeld(s: State, ip: Option<Address>) {
    ip.Some? ==> forall g :: g in s.held ==> s.held[g] != ip.value
  }

  predicate Records(s: State, inUse: set<Address>) {
    forall g :: g in s.held ==> s.held[g] in inUse
  }

  /** What process p may rely on. */
  predicate Agrees(s: State, p: Process) {
    match p
    case Idle => true
    case Locking(op, _) => !op.Drop? && (op.Release? ==> op.grant in s.held)
    case Loading(released) => !s.file.Torn? && NotHeld(s, released)
    case Opening(inUse, granted) =>
      !s.file.Torn? && Records(s, inUse) && NotHeld(s, granted) && (granted.Some? ==> granted.value in inUse)
    case Writing(inUse, granted) =>
      Records(s, inUse) && NotHeld(s, granted) && (granted.Some? ==> granted.value in inUse)
    case Unlocking(granted) =>
      !s.file.Torn? && NotHeld(s, granted) && (granted.Some? ==> granted.value in Load(s.file))
    case Dead(_) => true
  }

  ghost predicate OneReleaser(s: State) {
    forall i, j, g :: (0 <= i < |s.procs| && 0 <= j < |s.procs|
                       && IsReleasing(s.procs[i], g) && IsReleasing(s.procs[j], g)) ==> i == j
  }

  ghost predicate Accounted(s: State) {
    && Guarded(s)
    && Injective(s.held)
    && OneReleaser(s)
    && (forall g :: g in s.held ==> g < s.next)
    && (s.file.Torn? ==> s.lock)
    && (!s.file.Torn? ==> Records(s, Load(s.file)))
    && forall i :: 0 <= i < |s.procs| ==> Agrees(s, s.procs[i])
  }

  const SOUND := Conditions(false, false, false)

  lemma CallAccounted(s: State, k: nat, op: Op)
    requires Accounted(s) && k < |s.procs|
    ensures Accounted(Step(SOUND, s, Call(k, op)))
  {
    var t := Step(SOUND, s, Call(k, op));
    StepGuarded(SOUND, s, Call(k, op));
    assert Agrees(t, t.procs[k]);
    forall i | 0 <= i < |t.procs| ensures Agrees(t, t.procs[i]) { assert Agrees(s, s.procs[i]); }
  }

  lemma CrashAccounted(s: State, k: nat)
    requires Accounted(s) && k < |s.procs|
    ensures Accounted(Step(SOUND, s, Crash(k)))
  {
    var t := Step(SOUND, s, Crash(k));
    StepGuarded(SOUND, s, Crash(k));
    forall i | 0 <= i < |t.procs| ensures Agrees(t, t.procs[i]) { assert Agrees(s, s.procs[i]); }
  }

  lemma LockAccounted(s: State, k: nat)
    requires Accounted(s) && k < |s.procs| && s.procs[k].Locking?
    ensures Accounted(Step(SOUND, s, Advance(k)))
  {
    var t := Step(SOUND, s, Advance(k));
    StepGuarded(SOUND, s, Advance(k));
    assert Agrees(s, s.procs[k]);
    forall i | 0 <= i < |t.procs| ensures Agrees(t, t.procs[i]) {
      assert Agrees(s, s.procs[i]);
      if i != k && !s.lock { assert !Critical(s.procs[i]); }
      if s.procs[i].Locking? && s.procs[i].op.Release? {
        assert IsReleasing(s.procs[i], s.procs[i].op.grant);
        assert i != k ==> !IsReleasing(s.procs[k], s.procs[i].op.grant);
      }
    }
  }

  lemma LoadAccounted(s: State, k: nat)
    requires Accounted(s) && k < |s.procs| && s.procs[k].Loading?
    ensures Accounted(Step(SOUND, s, Advance(k)))
  {
    var t := Step(SOUND, s, Advance(k));
    StepGuarded(SOUND, s, Advance(k));
    assert Agrees(s, s.procs[k]);
    NextIsLeastFree(s.pools[k], Load(s.file));
    forall i | 0 <= i < |t.procs| ensures Agrees(t, t.procs[i]) { assert Agrees(s, s.procs[i]); }
  }

  lemma SaveAccounted(s: State, k: nat)
    requires Accounted(s) && k < |s.procs| && (s.procs[k].Opening? || s.procs[k].Writing?)
    ensures Accounted(Step(SOUND, s, Advance(k)))
  {
    var t := Step(SOUND, s, Advance(k));
    StepGuarded(SOUND, s, Advance(k));
    assert Agrees(s, s.procs[k]);
    assert Critical(s.procs[k]);
    forall i | 0 <= i < |t.procs| ensures Agrees(t, t.procs[i]) {
      assert Agrees(s, s.procs[i]);
      assert i != k ==> !Critical(s.procs[i]);
    }
  }

  lemma UnlockAccounted(s: State, k: nat)
    requires Accounted(s) && k < |s.procs| && s.procs[k].Unlocking?
    ensures Accounted(Step(SOUND, s, Advance(k)))
  {
    var t := Step(SOUND, s, Advance(k));
    StepGuarded(SOUND, s, Advance(k));
    assert Agrees(s, s.procs[k]);
    assert Critical(s.procs[k]);
    forall i | 0 <= i < |t.procs| ensures Agrees(t, t.procs[i]) {
      assert Agrees(s, s.procs[i]);
      assert i != k ==> !Critical(s.procs[i]);
    }
  }

  lemma StepAccounted(s: State, e: Event)
    requires Accounted(s)
    ensures Accounted(Step(SOUND, s, e))
  {
    if e.k < |s.procs| {
      match e
      case Call(k, op) => CallAccounted(s, k, op);
      case LoadFails(k) =>
      case SaveFails(k) =>
      case Crash(k) => CrashAccounted(s, k);
      case Advance(k) =>
        match s.procs[k]
        case Idle =>
        case Locking(_, _) => LockAccounted(s, k);
        case Loading(_) => LoadAccounted(s, k);
        case Opening(_, _) => SaveAccounted(s, k);
        case Writing(_, _) => SaveAccounted(s, k);
        case Unlocking(_) => UnlockAccounted(s, k);
        case Dead(_) =>
    }
  }

  lemma {:induction false} RunAccounted(s: State, events: seq<Event>)
    requires Accounted(s)
    ensures Accounted(Run(SOUND, s, events))
    decreases |events|
  {
    if events != [] {
      StepAccounted(s, events[0]);
      RunAccounted(Step(SOUND, s, events[0]), events[1..]);
    }
  }

  lemma InitiallyAccounted(s: State)
    requires Initial(s)
    ensures Accounted(s)
  {
  }

  // ---------------------------------------------------------------------------------------
  // Calls without contention

  /** The events of one call that nobody disturbs: lock, load, open, write, unlock. */
  function Alone(k: nat, op: Op): seq<Event> {
    [Call(k, op), Advance(k), Advance(k), Advance(k), Advance(k), Advance(k)]
  }

  lemma {:induction false} RunConcat(c: Conditions, s: State, a: seq<Event>, b: seq<Event>)
    requires |s.pools| == |s.procs|
    ensures Run(c, s, a + b) == Run(c, Run(c, s, a), b)
    decreases |a|
  {
    if a == [] {
      assert a + b == b;
    } else {
      assert (a + b)[0] == a[0] && (a + b)[1..] == a[1..] + b;
      RunConcat(c, Step(c, s, a[0]), a[1..], b);
    }
  }

  function SixSteps(c: Conditions, s: State, e: seq<Event>): State
    requires |s.pools| == |s.procs| && |e| == 6
  {
    Step(c, Step(c, Step(c, Step(c, Step(c, Step(c, s, e[0]), e[1]), e[2]), e[3]), e[4]), e[5])
  }

  lemma RunSix(c: Conditions, s: State, e: seq<Event>)
    requires |s.pools| == |s.procs| && |e| == 6
    ensures Run(c, s, e) == SixSteps(c, s, e)
  {
    var s1 := Step(c, s, e[0]);
    var s2 := Step(c, s1, e[1]);
    var s3 := Step(c, s2, e[2]);
    var s4 := Step(c, s3, e[3]);
    var s5 := Step(c, s4, e[4]);
    assert Run(c, s, e) == Run(c, s1, e[1..]);
    assert e[1..][1..] == e[2..];
    assert Run(c, s1, e[1..]) == Run(c, s2, e[2..]);
    assert e[2..][1..] == e[3..];
    assert Run(c, s2, e[2..]) == Run(c, s3, e[3..]);
    assert e[3..][1..] == e[4..];
    assert Run(c, s3, e[3..]) == Run(c, s4, e[4..]);
    assert e[4..][1..] == e[5..];
    assert Run(c, s4, e[4..]) == Run(c, s5, e[5..]);
    assert e[5..][1..] == [];
    assert Run(c, s5, e[5..]) == Run(c, Step(c, s5, e[5]), []);
  }

  /** An undisturbed `allocate` does to the state file what `IpamManager.Allocate` does. */
  lemma AllocateAlone(c: Conditions, s: State, k: nat)
    requires |s.pools| == |s.procs| && k < |s.procs| && s.procs[k].Idle? && !s.lock
    requires Next(s.pools[k], Load(s.file)).Some?
    ensures var h := Next(s.pools[k], Load(s.file)).value;
            Run(c, s, Alone(k, Allocate))
            == s.(file := Good(Load(s.file) + {h}), held := s.held[s.next := h], next := s.next + 1)
    ensures var (r, file) := AllocateEffect(s.pools[k], s.file, false, FINE);
            r == Ok(Next(s.pools[k], Load(s.file)).value) && file == Good(Load(s.file) + {r.value})
  {
    var h := Next(s.pools[k], Load(s.file)).value;
    var events := Alone(k, Allocate);
    RunSix(c, s, events);
    var s2 := Step(c, Step(c, s, events[0]), events[1]);
    assert s2 == Put(s, k, Loading(None)).(lock := true);
    var s4 := Step(c, Step(c, s2, events[2]), events[3]);
    assert s4 == Put(s, k, Writing(Load(s.file) + {h}, Some(h))).(lock := true, file := Torn);
    assert s.procs[k := Idle] == s.procs;
  }

  /** An undisturbed `release` of a grant does to the state file what `IpamManager.Release` does, and an
  allocation that finds no address nothing. */
  lemma ReleaseAlone(c: Conditions, s: State, k: nat, g: Grant)
    requires |s.pools| == |s.procs| && k < |s.procs| && s.procs[k].Idle? && !s.lock
    requires MayCall(c, s, Release(g))
    ensures Run(c, s, Alone(k, Release(g)))
            == s.(file := Good(Load(s.file) - {s.held[g]}), held := s.held - {g})
    ensures ReleaseEffect(s.file, s.held[g], false, FINE).1 == Good(Load(s.file) - {s.held[g]})
  {
    var events := Alone(k, Release(g));
    RunSix(c, s, events);
    var s2 := Step(c, Step(c, s, events[0]), events[1]);
    assert s2 == Put(s, k, Loading(Some(s.held[g]))).(lock := true, held := s.held - {g});
    var s4 := Step(c, Step(c, s2, events[2]), events[3]);
    assert s4 == Put(s, k, Writing(Load(s.file) - {s.held[g]}, None))
                 .(lock := true, held := s.held - {g}, file := Torn);
    assert s.procs[k := Idle] == s.procs;
  }

  // ---------------------------------------------------------------------------------------
  // Exactly when addresses stay distinct

  /** In every run from every initial state, no two grants in force have the same address. */
  ghost predicate AlwaysDistinct(c: Conditions) {
    forall s, events :: Initial(s) ==> Injective(Run(c, s, events).held)
  }

  const EXAMPLE: Pool := Block(0, 29, 1)

  lemma ExampleAddresses()
    ensures Next(EXAMPLE, {}) == Some(2)
    ensures Next(EXAMPLE, {2}) == Some(3)
  {
    assert Pow2(3) == 8 by { assert Pow2(2) == 4 by { assert Pow2(1) == 2; } }
    assert Size(EXAMPLE) == 8;
    NextIsLeastFree(EXAMPLE, {});
    NextIsLeastFree(EXAMPLE, {2});
    assert IsUsable(EXAMPLE, 2) && IsUsable(EXAMPLE, 3);
  }

  function Fresh(): State {
    State([EXAMPLE, EXAMPLE], [Idle, Idle], false, Missing, map[], 0)
  }

  /** One address is granted, a save fails halfway, and the emptied file grants the same address again. */
  function FailedSave(): seq<Event> {
    [Call(1, Allocate), Advance(1), Advance(1), Advance(1), SaveFails(1), Advance(1)]
  }

  /** A read that raises counts as an empty pool. */
  function FailedLoad(): seq<Event> {
    [Call(1, Allocate), Advance(1), LoadFails(1), Advance(1), Advance(1), Advance(1)]
  }

  /** The first grant: address 2. */
  function Granted(): State {
    Fresh().(file := Good({2}), held := map[0 := 2], next := 1)
  }

  lemma FirstGrant(c: Conditions)
    ensures Run(c, Fresh(), Alone(0, Allocate)) == Granted()
  {
    ExampleAddresses();
    AllocateAlone(c, Fresh(), 0);
    assert Load(Missing) + {2} == {2};
  }

  lemma GrantedTwice(c: Conditions, events: seq<Event>, f: StateFile)
    requires Run(c, Granted(), events) == Granted().(file := f) && Load(f) == {}
    ensures !Injective(Run(c, Fresh(), Alone(0, Allocate) + events + Alone(0, Allocate)).held)
  {
    ExampleAddresses();
    FirstGrant(c);
    var u := Granted().(file := f);
    AllocateAlone(c, u, 0);
    RunConcat(c, Fresh(), Alone(0, Allocate), events);
    RunConcat(c, Fresh(), Alone(0, Allocate) + events, Alone(0, Allocate));
    var held := Run(c, u, Alone(0, Allocate)).held;
    assert held[0] == 2 && held[1] == 2;
  }

  lemma FailedSaveEmpties(c: Conditions)
    requires c.savesMayFail
    ensures Run(c, Granted(), FailedSave()) == Granted().(file := Torn)
  {
    ExampleAddresses();
    var t, events := Granted(), FailedSave();
    RunSix(c, t, events);
    var t2 := Step(c, Step(c, t, events[0]), events[1]);
    assert t2 == Put(t, 1, Loading(None)).(lock := true);
    var t4 := Step(c, Step(c, t2, events[2]), events[3]);
    assert t4 == Put(t, 1, Writing({2} + {3}, Some(3))).(lock := true, file := Torn);
    assert t.procs == t.procs[1 := Idle];
  }

  lemma FailedLoadGrants(c: Conditions)
    requires c.loadsMayFail
    ensures Run(c, Granted(), FailedLoad()).held == map[0 := 2, 1 := 2]
  {
    ExampleAddresses();
    var t, events := Granted(), FailedLoad();
    RunSix(c, t, events);
    var t2 := Step(c, Step(c, t, events[0]), events[1]);
    assert t2 == Put(t, 1, Loading(None)).(lock := true);
    var t3 := Step(c, t2, events[2]);
    assert t3 == Put(t, 1, Opening({} + {2}, Some(2))).(lock := true);
    var t5 := Step(c, Step(c, t3, events[3]), events[4]);
    assert t5 == Put(t, 1, Unlocking(Some(2))).(lock := true, file := Good({} + {2}));
  }

  lemma FailedLoadDuplicates(c: Conditions)
    requires c.loadsMayFail
    ensures !Injective(Run(c, Fresh(), Alone(0, Allocate) + FailedLoad()).held)
  {
    FirstGrant(c);
    FailedLoadGrants(c);
    RunConcat(c, Fresh(), Alone(0, Allocate), FailedLoad());
    var held := Run(c, Granted(), FailedLoad()).held;
    assert held[0] == 2 && held[1] == 2;
  }

  lemma LooseReleaseEmpties(c: Conditions)
    requires c.looseReleases
    ensures Run(c, Granted(), Alone(1, Drop(2))) == Granted().(file := Good({}))
  {
    var t, events := Granted(), Alone(1, Drop(2));
    RunSix(c, t, events);
    var t2 := Step(c, Step(c, t, events[0]), events[1]);
    assert t2 == Put(t, 1, Loading(Some(2))).(lock := true);
    var t4 := Step(c, Step(c, t2, events[2]), events[3]);
    assert t4 == Put(t, 1, Writing({2} - {2}, None)).(lock := true, file := Torn);
    assert {2} - {2} == {};
    assert t.procs == t.procs[1 := Idle];
  }

  lemma NotAlwaysDistinct(c: Conditions, events: seq<Event>)
    requires !Injective(Run(c, Fresh(), events).held)
    ensures !AlwaysDistinct(c)
  {
    assert Initial(Fresh());
  }

  lemma SoundIsDistinct()
    ensures AlwaysDistinct(SOUND)
  {
    forall s, events | Initial(s) ensures Injective(Run(SOUND, s, events).held) {
      InitiallyAccounted(s);
      RunAccounted(s, events);
    }
  }

  /** For any number of processes with any pools, any interleaving, timeouts and crashes at any step, granted
  addresses are pairwise distinct exactly when no read fails, no save fails short of a crash, and callers
  release only addresses they hold. */
  lemma DistinctExactly(c: Conditions)
    ensures AlwaysDistinct(c) <==> !c.loadsMayFail && !c.savesMayFail && !c.looseReleases
  {
    if c.loadsMayFail {
      FailedLoadDuplicates(c);
      NotAlwaysDistinct(c, Alone(0, Allocate) + FailedLoad());
    } else if c.savesMayFail {
      FailedSaveEmpties(c);
      GrantedTwice(c, FailedSave(), Torn);
      NotAlwaysDistinct(c, Alone(0, Allocate) + FailedSave() + Alone(0, Allocate));
    } else if c.looseReleases {
      LooseReleaseEmpties(c);
      GrantedTwice(c, Alone(1, Drop(2)), Good({}));
      NotAlwaysDistinct(c, Alone(0, Allocate) + Alone(1, Drop(2)) + Alone(0, Allocate));
    } else {
      assert c == SOUND;
      SoundIsDistinct();
    }
  }

  /** In every run from every initial state: the state file, unless cut off, lists every address in force,
  and it is cut off only while the lock file exists. */
  ghost predicate AlwaysRecorded(c: Conditions) {
    forall s, events :: Initial(s) ==> Recorded(Run(c, s, events))
  }

  ghost predicate Recorded(r: State) {
    (r.file.Torn? ==> r.lock) && (!r.file.Torn? ==> Records(r, Load(r.file)))
  }

  lemma LooseReleaseForgets(c: Conditions)
    requires c.looseReleases
    ensures !Recorded(Run(c, Fresh(), Alone(0, Allocate) + Alone(1, Drop(2))))
  {
    FirstGrant(c);
    LooseReleaseEmpties(c);
    RunConcat(c, Fresh(), Alone(0, Allocate), Alone(1, Drop(2)));
    assert 0 in Granted().held;
  }

  lemma FailedSaveForgets(c: Conditions)
    requires c.savesMayFail
    ensures !Recorded(Run(c, Fresh(), Alone(0, Allocate) + FailedSave()))
  {
    FirstGrant(c);
    FailedSaveEmpties(c);
    RunConcat(c, Fresh(), Alone(0, Allocate), FailedSave());
  }

  /** A release whose read fails records an empty pool. */
  function FailedReleaseLoad(): seq<Event> {
    [Call(1, Release(1)), Advance(1), LoadFails(1), Advance(1), Advance(1), Advance(1)]
  }

  function TwoGranted(): State {
    Fresh().(file := Good({2, 3}), held := map[0 := 2, 1 := 3], next := 2)
  }

  lemma FailedReleaseRun(c: Conditions)
    requires c.loadsMayFail
    ensures var r := Run(c, TwoGranted(), FailedReleaseLoad()); r.file == Good({} - {3}) && 0 in r.held
  {
    var t, events := TwoGranted(), FailedReleaseLoad();
    RunSix(c, t, events);
    assert t.held - {1} == map[0 := 2];
    var t2 := Step(c, Step(c, t, events[0]), events[1]);
    assert t2 == Put(t, 1, Loading(Some(3))).(lock := true, held := map[0 := 2]);
    var t4 := Step(c, Step(c, t2, events[2]), events[3]);
    assert t4 == Put(t, 1, Writing({} - {3}, None)).(lock := true, file := Torn, held := map[0 := 2]);
  }

  lemma FailedLoadForgets(c: Conditions)
    requires c.loadsMayFail
    ensures Initial(TwoGranted()) && !Recorded(Run(c, TwoGranted(), FailedReleaseLoad()))
  {
    FailedReleaseRun(c);
  }

  lemma NotAlwaysRecorded(c: Conditions, s: State, events: seq<Event>)
    requires Initial(s) && !Recorded(Run(c, s, events))
    ensures !AlwaysRecorded(c)
  {
  }

  /** The same three conditions decide whether the state file keeps listing every address in force. */
  lemma RecordedExactly(c: Conditions)
    ensures AlwaysRecorded(c) <==> !c.loadsMayFail && !c.savesMayFail && !c.looseReleases
  {
    if c.loadsMayFail {
      FailedLoadForgets(c);
      NotAlwaysRecorded(c, TwoGranted(), FailedReleaseLoad());
    } else if c.savesMayFail {
      FailedSaveForgets(c);
      NotAlwaysRecorded(c, Fresh(), Alone(0, Allocate) + FailedSave());
    } else if c.looseReleases {
      LooseReleaseForgets(c);
      NotAlwaysRecorded(c, Fresh(), Alone(0, Allocate) + Alone(1, Drop(2)));
    } else {
      assert c == SOUND;
      forall s, events | Initial(s) ensures Recorded(Run(c, s, events)) { HeldIsRecorded(s, events); }
    }
  }

  lemma HeldIsRecorded(s: State, events: seq<Event>)
    requires Initial(s)
    ensures Recorded(Run(SOUND, s, events))
  {
    InitiallyAccounted(s);
    RunAccounted(s, events);
  }
}
