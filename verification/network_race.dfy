/** Setups and teardowns of any number of processes, interleaved: `pybox/network/manager.py`. Each `allocate`
and `release` is one step, which the lock of `pybox/network/ipam.py` makes it. */
module NetworkRaces {
  import opened Outcomes
  import opened AddressPools
  import Networks

  /** Where a process is: before the allocation of a setup, between it and the save of the endpoint, before a
  teardown reads the endpoint, before it releases the address, and before it deletes the endpoint. */
  datatype Process =
    | Idle
    | Choosing(id: string)
    | SettingUp(id: string, ip: Address)
    | Reading(id: string)
    | Freeing(id: string, ip: Address)
    | Deleting(id: string, ip: Address)

  /** `leaked` are addresses of setups that failed and of endpoints that were overwritten. */
  datatype State = State(
    inUse: set<Address>, endpoints: map<string, Address>, leaked: set<Address>, procs: seq<Process>)

  /** `Fail` is a call that raises or dies where it is, before its next step has an effect; `HalfSave` is a setup
  whose save of the endpoint raises half-way, after which there is no endpoint to read. */
  datatype Event =
    | Setup(k: nat, id: string)
    | Teardown(k: nat, id: string)
    | Advance(k: nat)
    | Fail(k: nat)
    | HalfSave(k: nat)

  /** `overlaps`: two calls may work on one container at a time; `cuts`: a teardown may end between the release
  and the deletion of the endpoint. */
  datatype Conditions = Conditions(overlaps: bool, cuts: bool)

  const SOUND := Conditions(false, false)

  // ---------------------------------------------------------------------------------------
  // Steps

  predicate WorksOn(p: Process, id: string) {
    p != Idle && p.id == id
  }

  predicate MayBegin(c: Conditions, s: State, id: string) {
    c.overlaps || forall j :: 0 <= j < |s.procs| ==> !WorksOn(s.procs[j], id)
  }

  function Put(s: State, k: nat, p: Process): State
    requires k < |s.procs|
  {
    s.(procs := s.procs[k := p])
  }

  function AddressOf(s: State, id: string): set<Address> {
    if id in s.endpoints then {s.endpoints[id]} else {}
  }

  function Proceed(p: Pool, s: State, k: nat): State
    requires k < |s.procs|
  {
    match s.procs[k]
    case Idle => s
    case Choosing(id) => (
      match Next(p, s.inUse)
      case None => Put(s, k, Idle)
      case Some(ip) => Put(s, k, SettingUp(id, ip)).(inUse := s.inUse + {ip}))
    case SettingUp(id, ip) =>
      Put(s, k, Idle).(endpoints := s.endpoints[id := ip], leaked := s.leaked + AddressOf(s, id))
    case Reading(id) => Put(s, k, if id in s.endpoints then Freeing(id, s.endpoints[id]) else Idle)
    case Freeing(id, ip) => Put(s, k, Deleting(id, ip)).(inUse := s.inUse - {ip})
    case Deleting(id, _) => Put(s, k, Idle).(endpoints := s.endpoints - {id})
  }

  function HalfSaved(s: State, k: nat): State
    requires k < |s.procs| && s.procs[k].SettingUp?
  {
    var id := s.procs[k].id;
    Put(s, k, Idle).(endpoints := s.endpoints - {id}, leaked := s.leaked + {s.procs[k].ip} + AddressOf(s, id))
  }

  /** An event that is not possible changes nothing. */
  function Step(p: Pool, c: Conditions, s: State, e: Event): State {
    if e.k >= |s.procs| then s
    else match e
      case Setup(k, id) => if s.procs[k] == Idle && MayBegin(c, s, id) then Put(s, k, Choosing(id)) else s
      case Teardown(k, id) => if s.procs[k] == Idle && MayBegin(c, s, id) then Put(s, k, Reading(id)) else s
      case Advance(k) => Proceed(p, s, k)
      case Fail(k) => (
        match s.procs[k]
        case SettingUp(_, ip) => Put(s, k, Idle).(leaked := s.leaked + {ip})
        case Deleting(_, _) => if c.cuts then Put(s, k, Idle) else s
        case _ => Put(s, k, Idle))
      case HalfSave(k) => if s.procs[k].SettingUp? then HalfSaved(s, k) else s
  }

  function Run(p: Pool, c: Conditions, s: State, events: seq<Event>): State
    decreases |events|
  {
    if events == [] then s else Run(p, c, Step(p, c, s, events[0]), events[1..])
  }

  function Start(n: nat): State {
    State({}, map[], {}, seq(n, _ => Idle))
  }

  // ---------------------------------------------------------------------------------------
  // Accounts

  /** The endpoint is in force: no teardown has given up its address. */
  predicate Live(s: State, id: string) {
    id in s.endpoints && forall k :: 0 <= k < |s.procs| ==> !(s.procs[k].Deleting? && s.procs[k].id == id)
  }

  /** Process k has allocated the address for the endpoint it is setting up. */
  predicate Carries(s: State, k: int, ip: Address) {
    0 <= k < |s.procs| && s.procs[k].SettingUp? && s.procs[k].ip == ip
  }

  predicate HeldBy(s: State, id: string, ip: Address) {
    Live(s, id) && s.endpoints[id] == ip
  }

  /** No two endpoints in force have the same address. */
  ghost predicate Distinct(s: State) {
    forall a, b, ip :: HeldBy(s, a, ip) && HeldBy(s, b, ip) ==> a == b
  }

  /** Endpoints in force and running setups have different addresses, none of them leaked; and the recorded
  addresses are theirs and the leaked ones. */
  ghost predicate Accounted(s: State) {
    && Distinct(s)
    && (forall a, k, ip :: !(HeldBy(s, a, ip) && Carries(s, k, ip)))
    && (forall j, k, ip :: Carries(s, j, ip) && Carries(s, k, ip) ==> j == k)
    && (forall a, ip :: HeldBy(s, a, ip) ==> ip in s.inUse && ip !in s.leaked)
    && (forall k, ip :: Carries(s, k, ip) ==> ip in s.inUse && ip !in s.leaked)
    && s.leaked <= s.inUse
    && (forall ip :: ip in s.inUse ==> ip in s.leaked || Owned(s, ip))
  }

  ghost predicate Owned(s: State, ip: Address) {
    (exists a :: HeldBy(s, a, ip)) || (exists k :: Carries(s, k, ip))
  }

  /** Calls work on different containers, and a teardown has read the endpoint that is there. */
  ghost predicate Orderly(s: State) {
    && (forall i, j, id ::
          0 <= i < |s.procs| && 0 <= j < |s.procs| && WorksOn(s.procs[i], id) && WorksOn(s.procs[j], id)
          ==> i == j)
    && (forall k :: 0 <= k < |s.procs| ==> HasRead(s, s.procs[k]))
  }

  predicate HasRead(s: State, p: Process) {
    p.Freeing? || p.Deleting? ==> p.id in s.endpoints && s.endpoints[p.id] == p.ip
  }

  ghost predicate Sound(s: State) {
    Accounted(s) && Orderly(s)
  }

  // ---------------------------------------------------------------------------------------
  // Each step keeps the accounts

  lemma OwnedStays(s: State, t: State, x: Address)
    requires Owned(s, x)
    requires forall a :: HeldBy(s, a, x) ==> HeldBy(t, a, x)
    requires forall j :: Carries(s, j, x) ==> Carries(t, j, x)
    ensures Owned(t, x)
  {
    if a :| HeldBy(s, a, x) {
      assert HeldBy(t, a, x);
    } else {
      var j :| Carries(s, j, x);
      assert Carries(t, j, x);
    }
  }

  /** Where claims and accounts are as before, so are the balances. */
  lemma SameClaims(s: State, t: State)
    requires Accounted(s) && t.inUse == s.inUse && t.leaked == s.leaked
    requires forall a, ip :: HeldBy(t, a, ip) <==> HeldBy(s, a, ip)
    requires forall k, ip :: Carries(t, k, ip) <==> Carries(s, k, ip)
    ensures Accounted(t)
  {
    forall ip | ip in t.inUse && ip !in t.leaked ensures Owned(t, ip) {
      OwnedStays(s, t, ip);
    }
  }

  lemma LiveUnchanged(s: State, t: State, k: nat)
    requires k < |s.procs| == |t.procs| && t.procs == s.procs[k := t.procs[k]]
    requires !s.procs[k].Deleting? && !t.procs[k].Deleting? && t.endpoints == s.endpoints
    ensures forall a :: Live(t, a) <==> Live(s, a)
  {
    forall a ensures Live(t, a) <==> Live(s, a) {
      if Live(s, a) {
        forall j | 0 <= j < |t.procs| ensures !(t.procs[j].Deleting? && t.procs[j].id == a) {
          assert !(s.procs[j].Deleting? && s.procs[j].id == a);
        }
      }
      if Live(t, a) {
        forall j | 0 <= j < |s.procs| ensures !(s.procs[j].Deleting? && s.procs[j].id == a) {
          assert !(t.procs[j].Deleting? && t.procs[j].id == a);
        }
      }
    }
  }

  /** A step of process k between states in which it carries no address. */
  lemma QuietStep(s: State, k: nat, q: Process)
    requires Sound(s) && k < |s.procs|
    requires !s.procs[k].SettingUp? && !s.procs[k].Deleting? && !q.SettingUp? && !q.Deleting?
    requires q != Idle ==> forall j :: 0 <= j < |s.procs| && j != k ==> !WorksOn(s.procs[j], q.id)
    requires HasRead(s, q)
    ensures Sound(Put(s, k, q))
  {
    var t := Put(s, k, q);
    LiveUnchanged(s, t, k);
    SameClaims(s, t);
  }

  lemma AllocateClaims(p: Pool, s: State, k: nat)
    requires Sound(s) && k < |s.procs| && s.procs[k].Choosing? && Next(p, s.inUse).Some?
    ensures var t, ip := Proceed(p, s, k), Next(p, s.inUse).value;
            && ip !in s.inUse && t.inUse == s.inUse + {ip} && t.leaked == s.leaked && Orderly(t)
            && (forall a, x :: HeldBy(t, a, x) <==> HeldBy(s, a, x))
            && (forall j, x :: Carries(t, j, x) <==> (j == k && x == ip) || Carries(s, j, x))
  {
    NextIsLeastFree(p, s.inUse);
    LiveUnchanged(s, Proceed(p, s, k), k);
  }

  lemma AllocateStep(p: Pool, s: State, k: nat)
    requires Sound(s) && k < |s.procs| && s.procs[k].Choosing? && Next(p, s.inUse).Some?
    ensures Sound(Proceed(p, s, k))
  {
    var t, ip := Proceed(p, s, k), Next(p, s.inUse).value;
    AllocateClaims(p, s, k);
    forall x | x in t.inUse && x !in t.leaked ensures Owned(t, x) {
      if x == ip {
        assert Carries(t, k, ip);
      } else {
        OwnedStays(s, t, x);
      }
    }
  }

  /** The save of the endpoint: the address passes from the setup to the endpoint. */
  lemma SaveStep(p: Pool, s: State, k: nat)
    requires Sound(s) && k < |s.procs| && s.procs[k].SettingUp?
    ensures Sound(Proceed(p, s, k))
  {
    var t, id, ip := Proceed(p, s, k), s.procs[k].id, s.procs[k].ip;
    assert Carries(s, k, ip) && WorksOn(s.procs[k], id);
    forall j | 0 <= j < |s.procs| && j != k ensures !WorksOn(s.procs[j], id) {}
    assert id in s.endpoints ==> HeldBy(s, id, s.endpoints[id]);
    LiveAfterSave(p, s, k);
    forall a, x | HeldBy(t, a, x) ensures (a == id && x == ip) || (a != id && HeldBy(s, a, x)) {}
    forall j, x | Carries(t, j, x) ensures j != k && Carries(s, j, x) {}
    forall x | x in t.inUse && x !in t.leaked ensures Owned(t, x) {
      if x == ip {
        assert HeldBy(t, id, ip);
      } else {
        OwnedStays(s, t, x);
      }
    }
    forall j | 0 <= j < |t.procs| ensures HasRead(t, t.procs[j]) {
      assert HasRead(s, s.procs[j]);
    }
  }

  lemma LiveAfterSave(p: Pool, s: State, k: nat)
    requires k < |s.procs| && s.procs[k].SettingUp?
    requires forall j :: 0 <= j < |s.procs| && j != k ==> !WorksOn(s.procs[j], s.procs[k].id)
    ensures forall a :: Live(Proceed(p, s, k), a) <==> a == s.procs[k].id || Live(s, a)
  {
    var t, id := Proceed(p, s, k), s.procs[k].id;
    forall a ensures Live(t, a) <==> a == id || Live(s, a) {
      if a == id || Live(s, a) {
        forall j | 0 <= j < |t.procs| ensures !(t.procs[j].Deleting? && t.procs[j].id == a) {
          assert j != k ==> t.procs[j] == s.procs[j] && !WorksOn(s.procs[j], id);
          assert Live(s, a) ==> !(s.procs[j].Deleting? && s.procs[j].id == a);
        }
      }
      if Live(t, a) {
        forall j | 0 <= j < |s.procs| ensures !(s.procs[j].Deleting? && s.procs[j].id == a) {
          assert !(t.procs[j].Deleting? && t.procs[j].id == a);
        }
      }
    }
  }

  /** The release: the endpoint is not in force any more, and its address is free. */
  lemma ReleaseStep(p: Pool, s: State, k: nat)
    requires Sound(s) && k < |s.procs| && s.procs[k].Freeing?
    ensures Sound(Proceed(p, s, k))
  {
    var t, id, ip := Proceed(p, s, k), s.procs[k].id, s.procs[k].ip;
    assert HasRead(s, s.procs[k]) && WorksOn(s.procs[k], id);
    forall j | 0 <= j < |s.procs| && j != k ensures !WorksOn(s.procs[j], id) {}
    assert HeldBy(s, id, ip);
    LiveAfterRelease(p, s, k);
    forall a, x | HeldBy(t, a, x) ensures a != id && x != ip && HeldBy(s, a, x) {
      assert HeldBy(s, a, x);
    }
    forall j, x | Carries(t, j, x) ensures j != k && x != ip && Carries(s, j, x) {
      assert Carries(s, j, x);
    }
    forall x | x in t.inUse && x !in t.leaked ensures Owned(t, x) {
      OwnedStays(s, t, x);
    }
    forall j | 0 <= j < |t.procs| ensures HasRead(t, t.procs[j]) {
      assert HasRead(s, s.procs[j]);
    }
  }

  lemma LiveAfterRelease(p: Pool, s: State, k: nat)
    requires k < |s.procs| && s.procs[k].Freeing?
    ensures forall a :: Live(Proceed(p, s, k), a) <==> a != s.procs[k].id && Live(s, a)
  {
    var t, id := Proceed(p, s, k), s.procs[k].id;
    forall a ensures Live(t, a) <==> a != id && Live(s, a) {
      if Live(t, a) {
        assert !(t.procs[k].Deleting? && t.procs[k].id == a);
        forall j | 0 <= j < |s.procs| ensures !(s.procs[j].Deleting? && s.procs[j].id == a) {
          assert !(t.procs[j].Deleting? && t.procs[j].id == a);
        }
      }
      if a != id && Live(s, a) {
        forall j | 0 <= j < |t.procs| ensures !(t.procs[j].Deleting? && t.procs[j].id == a) {
          assert !(s.procs[j].Deleting? && s.procs[j].id == a);
        }
      }
    }
  }

  lemma DeleteStep(p: Pool, s: State, k: nat)
    requires Sound(s) && k < |s.procs| && s.procs[k].Deleting?
    ensures Sound(Proceed(p, s, k))
  {
    var t, id := Proceed(p, s, k), s.procs[k].id;
    assert WorksOn(s.procs[k], id);
    forall j | 0 <= j < |s.procs| && j != k ensures !WorksOn(s.procs[j], id) {}
    forall a ensures Live(t, a) <==> Live(s, a) {
      if Live(s, a) {
        assert a != id;
        forall j | 0 <= j < |t.procs| ensures !(t.procs[j].Deleting? && t.procs[j].id == a) {
          assert !(s.procs[j].Deleting? && s.procs[j].id == a);
        }
      }
      if Live(t, a) {
        forall j | 0 <= j < |s.procs| ensures !(s.procs[j].Deleting? && s.procs[j].id == a) {
          assert !(t.procs[j].Deleting? && t.procs[j].id == a);
        }
      }
    }
    SameClaims(s, t);
    forall j | 0 <= j < |t.procs| ensures HasRead(t, t.procs[j]) {
      assert HasRead(s, s.procs[j]);
    }
  }

  lemma SetupFails(s: State, k: nat)
    requires Sound(s) && k < |s.procs| && s.procs[k].SettingUp?
    ensures Sound(Put(s, k, Idle).(leaked := s.leaked + {s.procs[k].ip}))
  {
    var t := Put(s, k, Idle).(leaked := s.leaked + {s.procs[k].ip});
    assert Carries(s, k, s.procs[k].ip);
    LiveUnchanged(s, t, k);
    forall j, x | Carries(t, j, x) ensures j != k && Carries(s, j, x) {}
    forall a, x | HeldBy(t, a, x) ensures HeldBy(s, a, x) {}
    forall x | x in t.inUse && x !in t.leaked ensures Owned(t, x) {
      OwnedStays(s, t, x);
    }
  }

  lemma HalfSaveStep(s: State, k: nat)
    requires Sound(s) && k < |s.procs| && s.procs[k].SettingUp?
    ensures Sound(HalfSaved(s, k))
  {
    var t, id, ip := HalfSaved(s, k), s.procs[k].id, s.procs[k].ip;
    assert Carries(s, k, ip) && WorksOn(s.procs[k], id);
    forall j | 0 <= j < |s.procs| && j != k ensures !WorksOn(s.procs[j], id) {}
    assert id in s.endpoints ==> HeldBy(s, id, s.endpoints[id]);
    LiveAfterHalfSave(s, k);
    forall a, x | HeldBy(t, a, x) ensures a != id && HeldBy(s, a, x) {}
    forall j, x | Carries(t, j, x) ensures j != k && Carries(s, j, x) {}
    forall x | x in t.inUse && x !in t.leaked ensures Owned(t, x) {
      OwnedStays(s, t, x);
    }
    forall j | 0 <= j < |t.procs| ensures HasRead(t, t.procs[j]) {
      assert HasRead(s, s.procs[j]);
    }
  }

  lemma LiveAfterHalfSave(s: State, k: nat)
    requires k < |s.procs| && s.procs[k].SettingUp?
    ensures forall a :: Live(HalfSaved(s, k), a) <==> a != s.procs[k].id && Live(s, a)
  {
    var t, id := HalfSaved(s, k), s.procs[k].id;
    forall a ensures Live(t, a) <==> a != id && Live(s, a) {
      if Live(t, a) {
        forall j | 0 <= j < |s.procs| ensures !(s.procs[j].Deleting? && s.procs[j].id == a) {
          assert !(t.procs[j].Deleting? && t.procs[j].id == a);
        }
      }
      if a != id && Live(s, a) {
        forall j | 0 <= j < |t.procs| ensures !(t.procs[j].Deleting? && t.procs[j].id == a) {
          assert !(s.procs[j].Deleting? && s.procs[j].id == a);
        }
      }
    }
  }

  lemma StepSound(p: Pool, s: State, e: Event)
    requires Sound(s)
    ensures Sound(Step(p, SOUND, s, e))
  {
    if e.k < |s.procs| {
      match e
      case Setup(k, id) => if s.procs[k] == Idle && MayBegin(SOUND, s, id) { QuietStep(s, k, Choosing(id)); }
      case Teardown(k, id) => if s.procs[k] == Idle && MayBegin(SOUND, s, id) { QuietStep(s, k, Reading(id)); }
      case Fail(k) => FailSound(p, s, k);
      case Advance(k) => AdvanceSound(p, s, k);
      case HalfSave(k) => if s.procs[k].SettingUp? { HalfSaveStep(s, k); }
    }
  }

  lemma FailSound(p: Pool, s: State, k: nat)
    requires Sound(s) && k < |s.procs|
    ensures Sound(Step(p, SOUND, s, Fail(k)))
  {
    match s.procs[k]
    case SettingUp(_, _) => SetupFails(s, k);
    case Deleting(_, _) =>
    case Idle => QuietStep(s, k, Idle);
    case Choosing(_) => QuietStep(s, k, Idle);
    case Reading(_) => QuietStep(s, k, Idle);
    case Freeing(_, _) => QuietStep(s, k, Idle);
  }

  lemma AdvanceSound(p: Pool, s: State, k: nat)
    requires Sound(s) && k < |s.procs|
    ensures Sound(Proceed(p, s, k))
  {
    match s.procs[k]
    case Idle =>
    case Choosing(id) => if Next(p, s.inUse).Some? { AllocateStep(p, s, k); } else { QuietStep(s, k, Idle); }
    case SettingUp(_, _) => SaveStep(p, s, k);
    case Reading(id) =>
      assert WorksOn(s.procs[k], id);
      QuietStep(s, k, if id in s.endpoints then Freeing(id, s.endpoints[id]) else Idle);
    case Freeing(_, _) => ReleaseStep(p, s, k);
    case Deleting(_, _) => DeleteStep(p, s, k);
  }

  lemma {:induction false} RunSound(p: Pool, s: State, events: seq<Event>)
    requires Sound(s)
    ensures Sound(Run(p, SOUND, s, events))
    decreases |events|
  {
    if events != [] {
      StepSound(p, s, events[0]);
      RunSound(p, Step(p, SOUND, s, events[0]), events[1..]);
    }
  }

  // ---------------------------------------------------------------------------------------
  // Exactly when the accounts balance

  /** In every run of any number of processes, endpoints in force have distinct addresses. */
  ghost predicate AlwaysDistinct(p: Pool, c: Conditions) {
    forall n: nat, events: seq<Event> :: Distinct(Run(p, c, Start(n), events))
  }

  ghost predicate AlwaysAccounted(p: Pool, c: Conditions) {
    forall n: nat, events: seq<Event> :: Accounted(Run(p, c, Start(n), events))
  }

  lemma {:induction false} RunConcat(p: Pool, c: Conditions, s: State, a: seq<Event>, b: seq<Event>)
    ensures Run(p, c, s, a + b) == Run(p, c, Run(p, c, s, a), b)
    decreases |a|
  {
    if a == [] {
      assert a + b == b;
    } else {
      assert (a + b)[0] == a[0] && (a + b)[1..] == a[1..] + b;
      RunConcat(p, c, Step(p, c, s, a[0]), a[1..], b);
    }
  }

  lemma RunThree(p: Pool, c: Conditions, s: State, d: Event, e: Event, f: Event)
    ensures Run(p, c, s, [d, e, f]) == Step(p, c, Step(p, c, Step(p, c, s, d), e), f)
  {
    var s1 := Step(p, c, s, d);
    var s2 := Step(p, c, s1, e);
    assert [d, e, f][1..] == [e, f] && [e, f][1..] == [f] && [f][1..] == [];
    assert Run(p, c, s, [d, e, f]) == Run(p, c, s1, [e, f]);
    assert Run(p, c, s1, [e, f]) == Run(p, c, s2, [f]);
    assert Run(p, c, s2, [f]) == Run(p, c, Step(p, c, s2, f), []);
  }

  /** A setup that nobody disturbs. */
  function SetupAlone(k: nat, id: string): seq<Event> {
    [Setup(k, id), Advance(k), Advance(k)]
  }

  lemma RunsSetup(p: Pool, c: Conditions, s: State, k: nat, id: string)
    requires k < |s.procs| && s.procs[k] == Idle && MayBegin(c, s, id) && id !in s.endpoints
    requires Next(p, s.inUse).Some?
    ensures var ip := Next(p, s.inUse).value;
            Run(p, c, s, SetupAlone(k, id)) == s.(inUse := s.inUse + {ip}, endpoints := s.endpoints[id := ip])
  {
    var ip := Next(p, s.inUse).value;
    RunThree(p, c, s, Setup(k, id), Advance(k), Advance(k));
    var s2 := Step(p, c, Step(p, c, s, Setup(k, id)), Advance(k));
    assert s2 == Put(s, k, SettingUp(id, ip)).(inUse := s.inUse + {ip});
    assert s.procs[k := Idle] == s.procs && s.leaked + {} == s.leaked;
  }

  /** What the sequential model has of a state. */
  function Net(s: State): Networks.Net {
    Networks.Net(s.inUse, s.endpoints)
  }

  /** Calls that nobody disturbs have the effects of the sequential model, with or without an endpoint. */
  lemma AloneIsSequential(p: Pool, c: Conditions, s: State, k: nat, id: string)
    requires k < |s.procs| && s.procs[k] == Idle && MayBegin(c, s, id)
    ensures var t := Run(p, c, s, SetupAlone(k, id));
            t.procs == s.procs && Net(t) == Networks.SetUp(p, Net(s), id, false, Networks.Complete, FINE).1
    ensures var t := Run(p, c, s, [Teardown(k, id)] + [Advance(k), Advance(k), Advance(k)]);
            t.procs == s.procs && Net(t) == Networks.TearDown(Net(s), id, false, Networks.Runs, FINE)
  {
    RunThree(p, c, s, Setup(k, id), Advance(k), Advance(k));
    var a := Step(p, c, s, Setup(k, id));
    assert a.procs[k := Idle] == s.procs;
    RunConcat(p, c, s, [Teardown(k, id)], [Advance(k), Advance(k), Advance(k)]);
    var b := Step(p, c, s, Teardown(k, id));
    assert [Teardown(k, id)][1..] == [] && Run(p, c, b, []) == b;
    assert Run(p, c, s, [Teardown(k, id)]) == Run(p, c, b, []);
    RunThree(p, c, b, Advance(k), Advance(k), Advance(k));
    assert b.procs[k := Idle] == s.procs;
  }

  /** Three processes; container `a` has an endpoint with the first address. */
  function OneEndpoint(ip: Address, procs: seq<Process>): State {
    State({ip}, map["a" := ip], {}, procs)
  }

  /** A teardown that ends after its release leaves an endpoint whose address is free. */
  function CutOff(): seq<Event> {
    [Teardown(1, "a"), Advance(1), Advance(1)] + [Fail(1)]
  }

  /** Two teardowns of one container read the same endpoint; the first is done before the second releases. */
  function BothRead(): seq<Event> {
    [Teardown(0, "a"), Advance(0), Teardown(1, "a")] + [Advance(1), Advance(0), Advance(0)]
  }

  const FREE: seq<Process> := [Idle, Idle, Idle]

  lemma CutOffRun(p: Pool, c: Conditions, ip: Address)
    requires c.cuts
    ensures Run(p, c, OneEndpoint(ip, FREE), CutOff()) == State({}, map["a" := ip], {}, FREE)
  {
    var s := OneEndpoint(ip, FREE);
    RunConcat(p, c, s, [Teardown(1, "a"), Advance(1), Advance(1)], [Fail(1)]);
    RunThree(p, c, s, Teardown(1, "a"), Advance(1), Advance(1));
    var s2 := Step(p, c, Step(p, c, s, Teardown(1, "a")), Advance(1));
    assert s2 == OneEndpoint(ip, [Idle, Freeing("a", ip), Idle]);
    var s3 := Step(p, c, s2, Advance(1));
    assert {ip} - {ip} == {} && s3 == State({}, map["a" := ip], {}, [Idle, Deleting("a", ip), Idle]);
    assert [Fail(1)][1..] == [];
    assert Run(p, c, s3, [Fail(1)]) == Run(p, c, Step(p, c, s3, Fail(1)), []);
  }

  lemma BothReadRun(p: Pool, c: Conditions, ip: Address)
    requires c.overlaps
    ensures Run(p, c, OneEndpoint(ip, FREE), BothRead()) == State({}, map[], {}, [Idle, Freeing("a", ip), Idle])
  {
    var s := OneEndpoint(ip, FREE);
    RunConcat(p, c, s, [Teardown(0, "a"), Advance(0), Teardown(1, "a")], [Advance(1), Advance(0), Advance(0)]);
    RunThree(p, c, s, Teardown(0, "a"), Advance(0), Teardown(1, "a"));
    var s2 := Step(p, c, Step(p, c, s, Teardown(0, "a")), Advance(0));
    assert s2 == OneEndpoint(ip, [Freeing("a", ip), Idle, Idle]);
    var s3 := Step(p, c, s2, Teardown(1, "a"));
    assert s3 == OneEndpoint(ip, [Freeing("a", ip), Reading("a"), Idle]);
    RunThree(p, c, s3, Advance(1), Advance(0), Advance(0));
    var s5 := Step(p, c, Step(p, c, s3, Advance(1)), Advance(0));
    assert {ip} - {ip} == {} && s5 == State({}, map["a" := ip], {}, [Deleting("a", ip), Freeing("a", ip), Idle]);
    assert map["a" := ip] - {"a"} == map[];
  }

  lemma FirstSetup(p: Pool, c: Conditions)
    requires Next(p, {}).Some?
    ensures Run(p, c, Start(3), SetupAlone(0, "a")) == OneEndpoint(Next(p, {}).value, FREE)
  {
    assert Start(3).procs == FREE;
    RunsSetup(p, c, Start(3), 0, "a");
    assert {} + {Next(p, {}).value} == {Next(p, {}).value};
  }

  /** Two endpoints in force with one address. */
  lemma SameAddress(s: State, a: string, b: string)
    requires a != b && a in s.endpoints && b in s.endpoints && s.endpoints[a] == s.endpoints[b]
    requires forall k :: 0 <= k < |s.procs| ==> !s.procs[k].Deleting? || s.procs[k].id !in {a, b}
    ensures !Distinct(s) && !Accounted(s)
  {
    assert HeldBy(s, a, s.endpoints[a]) && HeldBy(s, b, s.endpoints[a]);
  }

  lemma CutDuplicates(p: Pool, c: Conditions)
    requires Next(p, {}).Some? && c.cuts
    ensures var s := Run(p, c, Start(3), SetupAlone(0, "a") + CutOff() + SetupAlone(2, "b"));
            !Distinct(s) && !Accounted(s)
  {
    var ip := Next(p, {}).value;
    FirstSetup(p, c);
    CutOffRun(p, c, ip);
    var t := State({}, map["a" := ip], {}, FREE);
    RunsSetup(p, c, t, 2, "b");
    RunConcat(p, c, Start(3), SetupAlone(0, "a"), CutOff());
    RunConcat(p, c, Start(3), SetupAlone(0, "a") + CutOff(), SetupAlone(2, "b"));
    SameAddress(Run(p, c, t, SetupAlone(2, "b")), "a", "b");
  }

  /** The late release frees the address that another container has meanwhile. */
  function LateRelease(): seq<Event> {
    SetupAlone(2, "b") + [Advance(1)] + SetupAlone(0, "c")
  }

  lemma LateReleaseRun(p: Pool, c: Conditions)
    requires Next(p, {}).Some? && c.overlaps
    ensures var ip := Next(p, {}).value;
            Run(p, c, State({}, map[], {}, [Idle, Freeing("a", ip), Idle]), LateRelease())
            == State({ip}, map["b" := ip, "c" := ip], {}, [Idle, Deleting("a", ip), Idle])
  {
    var ip := Next(p, {}).value;
    var s := State({}, map[], {}, [Idle, Freeing("a", ip), Idle]);
    RunsSetup(p, c, s, 2, "b");
    var t := State({ip}, map["b" := ip], {}, [Idle, Freeing("a", ip), Idle]);
    assert {} + {ip} == {ip} && Run(p, c, s, SetupAlone(2, "b")) == t;
    var u := State({}, map["b" := ip], {}, [Idle, Deleting("a", ip), Idle]);
    assert [Advance(1)][1..] == [] && {ip} - {ip} == {};
    assert Run(p, c, t, [Advance(1)]) == Run(p, c, Step(p, c, t, Advance(1)), []) == u;
    RunsSetup(p, c, u, 0, "c");
    RunConcat(p, c, s, SetupAlone(2, "b"), [Advance(1)]);
    RunConcat(p, c, s, SetupAlone(2, "b") + [Advance(1)], SetupAlone(0, "c"));
  }

  lemma OverlapDuplicates(p: Pool, c: Conditions)
    requires Next(p, {}).Some? && c.overlaps
    ensures var s := Run(p, c, Start(3), SetupAlone(0, "a") + BothRead() + LateRelease());
            !Distinct(s) && !Accounted(s)
  {
    var ip := Next(p, {}).value;
    FirstSetup(p, c);
    BothReadRun(p, c, ip);
    LateReleaseRun(p, c);
    RunConcat(p, c, Start(3), SetupAlone(0, "a"), BothRead());
    RunConcat(p, c, Start(3), SetupAlone(0, "a") + BothRead(), LateRelease());
    SameAddress(State({ip}, map["b" := ip, "c" := ip], {}, [Idle, Deleting("a", ip), Idle]), "b", "c");
  }

  /** For every pool with a usable address and any number of processes: in every interleaving, with calls
  failing or dying anywhere else, endpoints in force have distinct addresses, and the accounts balance, if and
  only if no two calls work on one container at a time and no teardown ends between the release and the
  deletion of the endpoint. */
  lemma DistinctExactly(p: Pool, c: Conditions)
    requires Next(p, {}).Some?
    ensures AlwaysDistinct(p, c) <==> !c.overlaps && !c.cuts
    ensures AlwaysAccounted(p, c) <==> !c.overlaps && !c.cuts
  {
    if c.cuts {
      CutDuplicates(p, c);
    } else if c.overlaps {
      OverlapDuplicates(p, c);
    } else {
      assert c == SOUND;
      forall n: nat, events: seq<Event> ensures Sound(Run(p, SOUND, Start(n), events)) {
        RunSound(p, Start(n), events);
      }
    }
  }
}
