/** Container endpoints and the addresses they hold: `pybox/network/manager.py` over `pybox/network/ipam.py`. */
module Networks {
  import opened Outcomes
  import opened AddressPools

  /** The steps of `setup` after the allocation; each may raise. */
  datatype Stage = CreatePair | MoveToNamespace | Configure | Forward(k: nat) | Resolver | SaveEndpoint

  datatype SetupFailure = NoAddress(failure: Failure) | StageFailed

  type Endpoints = map<string, Address>

  // ---------------------------------------------------------------------------------------
  // The operations as functions of the pool and the endpoint files

  datatype Net = Net(inUse: set<Address>, endpoints: Endpoints)

  /** How a setup ends after its allocation: well, at a step that raises, or at a save of the endpoint that
  raises half-way. A half-written endpoint cannot be read, so it is none. */
  datatype Ending = Complete | Lost | HalfSaved

  function EndingOf(failing: set<Stage>, forwards: nat, halfSaved: bool): Ending {
    if || CreatePair in failing || MoveToNamespace in failing || Configure in failing
       || (exists k: nat :: k < forwards && Forward(k) in failing)
       || Resolver in failing
    then Lost
    else if SaveEndpoint in failing then (if halfSaved then HalfSaved else Lost)
    else Complete
  }

  /** The recorded addresses as a call reads them, and as its save leaves them. */
  function Seen(inUse: set<Address>, io: Io): set<Address> {
    if io.readFails then {} else inUse
  }

  function Recorded(before: set<Address>, after: set<Address>, io: Io): set<Address> {
    match io.save
    case Saved => after
    case NotOpened => before
    case HalfWritten => {}
  }

  function SetUp(p: Pool, net: Net, id: string, locked: bool, ending: Ending, io: Io)
    : (Result<Address, SetupFailure>, Net)
  {
    if locked then (Err(NoAddress(LockTimeout)), net)
    else match Next(p, Seen(net.inUse, io))
      case None => (Err(NoAddress(Exhausted)), net)
      case Some(ip) =>
        var inUse := Recorded(net.inUse, Seen(net.inUse, io) + {ip}, io);
        if io.save != Saved then (Err(NoAddress(SaveRaised)), Net(inUse, net.endpoints))
        else match ending
          case Complete => (Ok(ip), Net(inUse, net.endpoints[id := ip]))
          case Lost => (Err(StageFailed), Net(inUse, net.endpoints))
          case HalfSaved => (Err(StageFailed), Net(inUse, net.endpoints - {id}))
  }

  function TornDown(net: Net, id: string, locked: bool, io: Io): Net {
    if id !in net.endpoints || locked then net
    else
      var inUse := Recorded(net.inUse, Seen(net.inUse, io) - {net.endpoints[id]}, io);
      Net(inUse, if io.save == Saved then net.endpoints - {id} else net.endpoints)
  }

  /** How the rest of a teardown goes: `NoBinary` is an `ip` binary that is not there, whose error the handler
  for a missing endpoint swallows; `Raises` is a read of the endpoint, or an `ip` command, that raises in
  another way; `NotDeleted` is a deletion of the endpoint file that raises. */
  datatype Course = Runs | NoBinary | Raises | NotDeleted

  function TearDown(net: Net, id: string, locked: bool, course: Course, io: Io): Net {
    match course
    case Runs => TornDown(net, id, locked, io)
    case NotDeleted => TornDown(net, id, locked, io).(endpoints := net.endpoints)
    case NoBinary => net
    case Raises => net
  }

  // ---------------------------------------------------------------------------------------
  // The manager

  class NetworkManager {
    const ipam: IpamManager
    var endpoints: Endpoints

    constructor (ipam: IpamManager)
      ensures this.ipam == ipam && endpoints == map[]
    {
      this.ipam, this.endpoints := ipam, map[];
    }

    ghost function State(): Net
      reads this, ipam
    {
      Net(Load(ipam.file), endpoints)
    }

    method SetupPortForwards(forwards: nat, failing: set<Stage>) returns (ok: bool)
      ensures ok <==> forall k: nat :: k < forwards ==> Forward(k) !in failing
    {
      for k := 0 to forwards
        invariant forall j: nat :: j < k ==> Forward(j) !in failing
      {
        if Forward(k) in failing {
          return false;
        }
      }
      return true;
    }

    /** `failing` are the steps that raise in this call after the allocation; `halfSaved` says that a failing
    save of the endpoint has emptied its file. */
    method Setup(id: string, forwards: nat, failing: set<Stage>, halfSaved: bool, io: Io)
      returns (r: Result<Address, SetupFailure>)
      modifies this, ipam
      ensures ipam.locked == old(ipam.locked)
      ensures (r, State()) == SetUp(ipam.pool, old(State()), id, old(ipam.locked),
                                     EndingOf(failing, forwards, halfSaved), io)
    {
      var ip := ipam.Allocate(io);
      if ip.Err? {
        return Err(NoAddress(ip.error));
      }
      if CreatePair in failing || MoveToNamespace in failing || Configure in failing {
        return Err(StageFailed);
      }
      var forwarded := SetupPortForwards(forwards, failing);
      if !forwarded || Resolver in failing {
        return Err(StageFailed);
      }
      if SaveEndpoint in failing {
        if halfSaved {
          endpoints := endpoints - {id};
        }
        return Err(StageFailed);
      }
      endpoints := endpoints[id := ip.value];
      return Ok(ip.value);
    }

    /** A release that raises leaves the endpoint in place; a lock timeout is logged, a failing save raised. */
    method Teardown(id: string, course: Course, io: Io) returns (raised: bool)
      modifies this, ipam
      ensures ipam.locked == old(ipam.locked)
      ensures State() == TearDown(old(State()), id, old(ipam.locked), course, io)
      ensures raised <==> course == Raises
                          || (course != NoBinary && id in old(endpoints) && !old(ipam.locked)
                              && (io.save != Saved || course == NotDeleted))
      ensures course == Runs && !old(ipam.locked) && id in old(endpoints) && io == FINE ==>
                && id !in endpoints && old(endpoints)[id] !in Load(ipam.file)
                && forall h :: h != old(endpoints)[id] ==> (h in Load(ipam.file) <==> h in Load(old(ipam.file)))
      ensures forall other :: other != id && other in old(endpoints) ==>
                other in endpoints && endpoints[other] == old(endpoints)[other]
    {
      if course == Raises {
        return true;
      }
      if id !in endpoints || course == NoBinary {
        return false;
      }
      var released := ipam.Release(endpoints[id], io);
      if released.Err? {
        return released.error == SaveRaised;
      }
      if course == NotDeleted {
        return true;
      }
      endpoints := endpoints - {id};
      return false;
    }
  }

  // ---------------------------------------------------------------------------------------
  // What one setup does

  /** The setup comes to this step unless an earlier one raises. */
  predicate Met(s: Stage, forwards: nat) {
    s.Forward? ==> s.k < forwards
  }

  lemma EndingExactly(failing: set<Stage>, forwards: nat, halfSaved: bool)
    ensures EndingOf(failing, forwards, halfSaved) == Complete <==> forall s :: s in failing ==> !Met(s, forwards)
    ensures EndingOf(failing, forwards, halfSaved) == HalfSaved <==>
              && halfSaved && SaveEndpoint in failing
              && forall s :: s in failing && s != SaveEndpoint ==> !Met(s, forwards)
  {
    var ending := EndingOf(failing, forwards, halfSaved);
    if s :| s in failing && Met(s, forwards) && s != SaveEndpoint {
      assert s.Forward? ==> Forward(s.k) in failing;
    } else {
      forall k: nat | k < forwards ensures Forward(k) !in failing {
        assert Forward(k) in failing ==> Met(Forward(k), forwards);
      }
      assert forall s :: s in {CreatePair, MoveToNamespace, Configure, Resolver} ==> Met(s, forwards);
    }
  }

  /** With a lock and a file that can be read and written, a setup succeeds exactly when some usable address is
  not allocated and no step it comes to raises. It has then allocated one such address for its endpoint; when a
  step raises, one such address is allocated all the same, for nobody. */
  lemma SetUpExactly(p: Pool, net: Net, id: string, failing: set<Stage>, forwards: nat, halfSaved: bool)
    ensures var (r, after) := SetUp(p, net, id, false, EndingOf(failing, forwards, halfSaved), FINE);
            var free := exists h: Address :: IsUsable(p, h) && h !in net.inUse;
            && (r.Ok? <==> free && forall s :: s in failing ==> !Met(s, forwards))
            && (r.Ok? ==>
                  && IsUsable(p, r.value) && r.value !in net.inUse
                  && after == Net(net.inUse + {r.value}, net.endpoints[id := r.value]))
            && (r.Err? && free ==>
                  && r == Err(StageFailed)
                  && (exists h :: IsUsable(p, h) && h !in net.inUse && after.inUse == net.inUse + {h})
                  && (after.endpoints == net.endpoints || (halfSaved && after.endpoints == net.endpoints - {id})))
            && (!free ==> r == Err(NoAddress(Exhausted)) && after == net)
  {
    EndingExactly(failing, forwards, halfSaved);
    NextIsLeastFree(p, net.inUse);
  }

  /** A teardown that gets to its release frees the endpoint's address and no other, and deletes the endpoint if
  it gets to that; one that does not, for want of an endpoint, of the lock or of `ip`, changes nothing. The
  endpoint stays when the release raises. */
  lemma TearDownExactly(net: Net, id: string, locked: bool, course: Course, io: Io)
    ensures var after := TearDown(net, id, locked, course, io);
            && (id !in net.endpoints || locked || course == NoBinary || course == Raises ==> after == net)
            && (id in net.endpoints && !locked && (course == Runs || course == NotDeleted) && io == FINE ==>
                  && (forall h :: h in after.inUse <==> h in net.inUse && h != net.endpoints[id])
                  && (id in after.endpoints <==> course == NotDeleted))
            && (io.save != Saved ==> after.endpoints == net.endpoints)
            && (forall other :: other != id ==>
                  && (other in after.endpoints <==> other in net.endpoints)
                  && (other in net.endpoints ==> after.endpoints[other] == net.endpoints[other]))
  {
  }

  // ---------------------------------------------------------------------------------------
  // Every run

  /** A teardown that dies after the release and before the endpoint file is deleted is `NotDeleted`, too. */
  datatype Event =
    | Setting(id: string, locked: bool, ending: Ending, io: Io)
    | Tearing(id: string, locked: bool, course: Course, io: Io)

  function Effect(p: Pool, net: Net, e: Event): Net {
    match e
    case Setting(id, locked, ending, io) => SetUp(p, net, id, locked, ending, io).1
    case Tearing(id, locked, course, io) => TearDown(net, id, locked, course, io)
  }

  /** What may go wrong besides lock timeouts, steps of a setup that raise, and saves that raise before they
  begin: teardowns cut short, reads of the address file that raise, and saves that raise half-way. */
  datatype Conditions = Conditions(cuts: bool, badReads: bool, badSaves: bool)

  const SOUND := Conditions(false, false, false)

  predicate Allowed(c: Conditions, e: Event) {
    && (e.Tearing? && e.course == NotDeleted ==> c.cuts)
    && (e.io.readFails ==> c.badReads)
    && (e.io.save == HalfWritten ==> c.badSaves)
  }

  ghost predicate AllAllowed(c: Conditions, events: seq<Event>) {
    forall k :: 0 <= k < |events| ==> Allowed(c, events[k])
  }

  function NetAfter(p: Pool, events: seq<Event>): Net
    decreases |events|
  {
    if events == [] then Net({}, map[]) else Effect(p, NetAfter(p, events[..|events| - 1]), events[|events| - 1])
  }

  /** The addresses one event takes out of circulation: the one a failing setup had allocated, and the one
  whose endpoint file a second setup of the same container overwrites or empties. */
  function LeakedBy(p: Pool, net: Net, e: Event): set<Address> {
    if e.Setting? && !e.locked && e.io.save == Saved && Next(p, Seen(net.inUse, e.io)).Some? then
      (if e.ending != Complete then {Next(p, Seen(net.inUse, e.io)).value} else {})
      + (if e.ending != Lost && e.id in net.endpoints then {net.endpoints[e.id]} else {})
    else {}
  }

  function Leaked(p: Pool, events: seq<Event>): set<Address>
    decreases |events|
  {
    if events == [] then {} else
      var past := events[..|events| - 1];
      Leaked(p, past) + LeakedBy(p, NetAfter(p, past), events[|events| - 1])
  }

  ghost predicate Distinct(endpoints: Endpoints) {
    forall a, b :: a in endpoints && b in endpoints && endpoints[a] == endpoints[b] ==> a == b
  }

  ghost predicate Balanced(net: Net, leaked: set<Address>) {
    && Distinct(net.endpoints)
    && (forall a :: a in net.endpoints ==> net.endpoints[a] in net.inUse && net.endpoints[a] !in leaked)
    && leaked <= net.inUse
    && (forall ip: Address :: ip in net.inUse && ip !in leaked ==> ip in net.endpoints.Values)
  }

  lemma SettingBalanced(p: Pool, net: Net, leaked: set<Address>, e: Event)
    requires Balanced(net, leaked) && Allowed(SOUND, e) && e.Setting?
    ensures Balanced(Effect(p, net, e), leaked + LeakedBy(p, net, e))
  {
    var after, lost := Effect(p, net, e), LeakedBy(p, net, e);
    NextIsLeastFree(p, net.inUse);
    forall ip: Address | ip in after.inUse && ip !in leaked + lost ensures ip in after.endpoints.Values {
      if e.id in after.endpoints && ip == after.endpoints[e.id] {
      } else {
        assert ip in net.endpoints.Values;
        var a :| a in net.endpoints && net.endpoints[a] == ip;
        assert a != e.id ==> after.endpoints[a] == ip;
      }
    }
  }

  lemma TearingBalanced(p: Pool, net: Net, leaked: set<Address>, e: Event)
    requires Balanced(net, leaked) && Allowed(SOUND, e) && e.Tearing?
    ensures Balanced(Effect(p, net, e), leaked)
  {
    var after := Effect(p, net, e);
    forall ip: Address | ip in after.inUse && ip !in leaked ensures ip in after.endpoints.Values {
      assert ip in net.endpoints.Values;
      var a :| a in net.endpoints && net.endpoints[a] == ip;
      assert after.endpoints[a] == ip;
    }
  }

  lemma EffectBalanced(p: Pool, net: Net, leaked: set<Address>, e: Event)
    requires Balanced(net, leaked) && Allowed(SOUND, e)
    ensures Balanced(Effect(p, net, e), leaked + LeakedBy(p, net, e))
  {
    if e.Setting? {
      SettingBalanced(p, net, leaked, e);
    } else {
      TearingBalanced(p, net, leaked, e);
      assert leaked + LeakedBy(p, net, e) == leaked;
    }
  }

  lemma {:induction false} RunBalanced(p: Pool, events: seq<Event>)
    requires AllAllowed(SOUND, events)
    ensures Balanced(NetAfter(p, events), Leaked(p, events))
    decreases |events|
  {
    if events != [] {
      var past := events[..|events| - 1];
      RunBalanced(p, past);
      EffectBalanced(p, NetAfter(p, past), Leaked(p, past), events[|events| - 1]);
    }
  }

  /** Distinct keys with distinct values: as many values as keys. */
  lemma {:induction false} AsManyValues(m: Endpoints)
    requires Distinct(m)
    ensures |m.Values| == |m|
    decreases |m|
  {
    if m.Keys == {} {
      assert m.Values == {};
    } else {
      var k :| k in m;
      var rest := m - {k};
      AsManyValues(rest);
      assert rest.Keys == m.Keys - {k};
      forall v | v in m.Values && v != m[k] ensures v in rest.Values {
        var j :| j in m && m[j] == v;
        assert j in rest && rest[j] == v;
      }
      assert m.Values == rest.Values + {m[k]};
    }
  }

  lemma {:induction false} OnlyUsableInUse(p: Pool, events: seq<Event>)
    ensures NetAfter(p, events).inUse <= Usable(p)
    decreases |events|
  {
    if events != [] {
      var past := events[..|events| - 1];
      OnlyUsableInUse(p, past);
      var net, e := NetAfter(p, past), events[|events| - 1];
      NextIsLeastFree(p, Seen(net.inUse, e.io));
    }
  }

  /** Endpoints have distinct addresses, and the recorded addresses are theirs and the leaked ones. */
  ghost predicate Accounted(net: Net, leaked: set<Address>) {
    && Distinct(net.endpoints)
    && net.endpoints.Values !! leaked
    && net.inUse == net.endpoints.Values + leaked
  }

  /** In every run without teardowns cut short, failing reads and half-written saves: endpoints of different
  containers have different addresses, and the allocated addresses are exactly those of the endpoints and,
  apart from them, those leaked by setups that failed after the allocation or overwrote an endpoint. */
  lemma {:induction false} Accounting(p: Pool, events: seq<Event>)
    requires AllAllowed(SOUND, events)
    ensures var net, leaked := NetAfter(p, events), Leaked(p, events);
            && Accounted(net, leaked)
            && |net.endpoints| + |leaked| == |net.inUse| <= |Usable(p)|
  {
    var net, leaked := NetAfter(p, events), Leaked(p, events);
    RunBalanced(p, events);
    OnlyUsableInUse(p, events);
    forall ip | ip in net.endpoints.Values ensures ip in net.inUse && ip !in leaked {
      var a :| a in net.endpoints && net.endpoints[a] == ip;
    }
    assert net.inUse == net.endpoints.Values + leaked;
    AsManyValues(net.endpoints);
    SubsetCount(net.inUse, Usable(p));
  }

  /** Setting up a container that has no endpoint and tearing it down leaves the pool and the endpoints as
  they were. */
  lemma SetupThenTeardown(p: Pool, net: Net, id: string)
    requires id !in net.endpoints && Next(p, net.inUse).Some?
    ensures TearDown(SetUp(p, net, id, false, Complete, FINE).1, id, false, Runs, FINE) == net
  {
    NextIsLeastFree(p, net.inUse);
    var ip := Next(p, net.inUse).value;
    assert net.inUse + {ip} - {ip} == net.inUse;
    assert net.endpoints[id := ip] - {id} == net.endpoints;
  }

  /** In every run with these conditions the endpoints have distinct addresses. */
  ghost predicate AlwaysDistinct(p: Pool, c: Conditions) {
    forall events :: AllAllowed(c, events) ==> Distinct(NetAfter(p, events).endpoints)
  }

  /** In every run with these conditions the accounts balance. */
  ghost predicate AlwaysAccounted(p: Pool, c: Conditions) {
    forall events :: AllAllowed(c, events) ==> Accounted(NetAfter(p, events), Leaked(p, events))
  }

  const FIRST := Setting("a", false, Complete, FINE)
  const SECOND := Setting("b", false, Complete, FINE)

  lemma FirstSetUp(p: Pool)
    requires Next(p, {}).Some?
    ensures var ip := Next(p, {}).value; NetAfter(p, [FIRST]) == Net({ip}, map["a" := ip])
  {
    var one := [FIRST];
    assert one[..0] == [] && NetAfter(p, []) == Net({}, map[]);
    assert {} + {Next(p, {}).value} == {Next(p, {}).value};
  }

  /** When the record has been emptied under an endpoint, the next setup hands out its address again. */
  lemma EmptiedDuplicates(p: Pool, e: Event)
    requires Next(p, {}).Some?
    requires var ip := Next(p, {}).value; Effect(p, Net({ip}, map["a" := ip]), e) == Net({}, map["a" := ip])
    ensures !Distinct(NetAfter(p, [FIRST, e, SECOND]).endpoints)
  {
    var ip := Next(p, {}).value;
    var two, three := [FIRST, e], [FIRST, e, SECOND];
    FirstSetUp(p);
    assert two[..1] == [FIRST] && three[..2] == two;
    assert NetAfter(p, two) == Net({}, map["a" := ip]);
    assert NetAfter(p, three).endpoints == map["a" := ip, "b" := ip];
    var ends := NetAfter(p, three).endpoints;
    assert ends["a"] == ends["b"] && "a" != "b";
  }

  lemma FailedReadDuplicates(p: Pool)
    requires Next(p, {}).Some?
    ensures !Distinct(NetAfter(p, [FIRST, Setting("b", false, Complete, Io(true, Saved))]).endpoints)
  {
    var ip := Next(p, {}).value;
    var two := [FIRST, Setting("b", false, Complete, Io(true, Saved))];
    FirstSetUp(p);
    assert two[..1] == [FIRST];
    assert NetAfter(p, two).endpoints == map["a" := ip, "b" := ip];
    var ends := NetAfter(p, two).endpoints;
    assert ends["a"] == ends["b"] && "a" != "b";
  }

  /** A run of these conditions that ends with two endpoints on one address. */
  lemma Duplicates(p: Pool, c: Conditions) returns (events: seq<Event>)
    requires Next(p, {}).Some? && c != SOUND
    ensures AllAllowed(c, events) && !Distinct(NetAfter(p, events).endpoints)
  {
    var ip := Next(p, {}).value;
    if c.cuts {
      events := [FIRST, Tearing("a", false, NotDeleted, FINE), SECOND];
      assert {ip} - {ip} == {};
      EmptiedDuplicates(p, Tearing("a", false, NotDeleted, FINE));
    } else if c.badSaves {
      events := [FIRST, Tearing("a", false, Runs, Io(false, HalfWritten)), SECOND];
      EmptiedDuplicates(p, Tearing("a", false, Runs, Io(false, HalfWritten)));
    } else {
      events := [FIRST, Setting("b", false, Complete, Io(true, Saved))];
      FailedReadDuplicates(p);
    }
  }

  /** For every pool with a usable address: addresses stay distinct, and the accounts balanced, in every run
  if and only if no teardown is cut short between the release and the deletion of the endpoint, no read of
  the address file fails, and no save of it raises half-way. */
  lemma DistinctExactly(p: Pool, c: Conditions)
    requires Next(p, {}).Some?
    ensures AlwaysDistinct(p, c) <==> !c.cuts && !c.badReads && !c.badSaves
    ensures AlwaysAccounted(p, c) <==> !c.cuts && !c.badReads && !c.badSaves
  {
    if c == SOUND {
      forall events | AllAllowed(c, events)
        ensures Accounted(NetAfter(p, events), Leaked(p, events)) && Distinct(NetAfter(p, events).endpoints)
      {
        Accounting(p, events);
      }
    } else {
      var events := Duplicates(p, c);
      assert !Accounted(NetAfter(p, events), Leaked(p, events));
    }
  }

  /** The network of the default bridge, 172.16.0.0/24 with gateway 172.16.0.1. */
  const DEFAULT: Pool := Block(0xAC10_0000, 24, 0xAC10_0001)

  lemma DefaultUsable()
    ensures |Usable(DEFAULT)| == 253
  {
    assert Pow2(8) == 256 by { assert Pow2(4) == 16 by { assert Pow2(2) == 4; } assert Pow2(6) == 64; }
    assert Size(DEFAULT) == 256;
    assert IsHost(DEFAULT, DEFAULT.gateway);
    UsableCount(DEFAULT);
  }

  /** Setups fail for want of an address exactly when endpoints and leaked addresses together are as many as
  the usable addresses; the default network has 253 of them. */
  lemma Capacity(p: Pool, events: seq<Event>, id: string)
    requires AllAllowed(SOUND, events)
    ensures SetUp(p, NetAfter(p, events), id, false, Complete, FINE).0 == Err(NoAddress(Exhausted))
            <==> |NetAfter(p, events).endpoints| + |Leaked(p, events)| == |Usable(p)|
    ensures |Usable(DEFAULT)| == 253
  {
    var net := NetAfter(p, events);
    Accounting(p, events);
    OnlyUsableInUse(p, events);
    NextIsLeastFree(p, net.inUse);
    SubsetCount(net.inUse, Usable(p));
    DefaultUsable();
    assert Usable(p) <= net.inUse <==> Next(p, net.inUse).None?;
  }
}
