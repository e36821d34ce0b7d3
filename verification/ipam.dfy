/** The address pool of a network and the manager that hands addresses out: `pybox/network/ipam.py`. */
module AddressPools {
  import opened Outcomes

  type Address = nat

  /** A block in the notation `address/prefix` and the gateway kept out of it. */
  datatype Block = Block(address: Address, prefix: nat, gateway: Address)

  type Pool = b: Block | b.prefix <= 32 && b.address < 0x1_0000_0000 witness Block(0, 24, 1)

  // ---------------------------------------------------------------------------------------
  // Arithmetic

  function Pow2(n: nat): (r: nat)
    ensures r >= 1 && (n >= 1 ==> r >= 2) && (n >= 2 ==> r >= 4)
  {
    if n == 0 then 1 else 2 * Pow2(n - 1)
  }

  function Size(p: Pool): nat {
    Pow2(32 - p.prefix)
  }

  lemma {:induction false} Product(a: nat, b: nat)
    ensures a * b >= 0
  {
    if b > 0 {
      Product(a, b - 1);
      assert a * b == a * (b - 1) + a;
    }
  }

  /** The network address: host bits of the given address are cleared, not refused. */
  function Base(p: Pool): Address {
    var n := Size(p);
    var q: nat := p.address / n;
    Product(n, q);
    n * q
  }

  /** The addresses offered to hosts, in the order they are tried. */
  function Hosts(p: Pool): seq<Address> {
    if p.prefix == 32 then [p.address]
    else if p.prefix == 31 then [Base(p), Base(p) + 1]
    else seq(Size(p) - 2, (i: nat) => (Base(p) + 1 + i) as Address)
  }

  /** A host of the block, by RFC 4632 section 3.1: it shares the prefix, and where the block has more than
  two addresses its host part is neither all zeros nor all ones. */
  predicate IsHost(p: Pool, h: Address) {
    && h / Size(p) == p.address / Size(p)
    && (p.prefix <= 30 ==> h % Size(p) != 0 && h % Size(p) != Size(p) - 1)
  }

  predicate IsUsable(p: Pool, h: Address) {
    IsHost(p, h) && h != p.gateway
  }

  lemma {:induction false} MulGrows(n: nat, a: nat, b: nat)
    requires a < b
    ensures n * a + n <= n * b
  {
    if a + 1 < b {
      MulGrows(n, a, b - 1);
    }
    assert n * b == n * (b - 1) + n;
  }

  lemma Quotient(n: nat, q: nat, k: nat)
    requires k < n
    ensures (n * q + k) / n == q && (n * q + k) % n == k
  {
    var x := n * q + k;
    var y := x / n;
    assert x == n * y + x % n;
    if y < q {
      MulGrows(n, y, q);
    } else if q < y {
      MulGrows(n, q, y);
    }
  }

  lemma InItsBlock(n: nat, h: nat)
    requires n > 0
    ensures n * (h / n) <= h < n * (h / n) + n
  {
    assert h == n * (h / n) + h % n;
  }

  lemma SameBlock(p: Pool, h: Address)
    ensures h / Size(p) == p.address / Size(p) <==> Base(p) <= h < Base(p) + Size(p)
    ensures Base(p) <= h < Base(p) + Size(p) ==> h % Size(p) == h - Base(p)
  {
    var n := Size(p);
    InItsBlock(n, h);
    if Base(p) <= h < Base(p) + n {
      Quotient(n, p.address / n, h - Base(p));
    }
  }

  /** The list holds exactly the hosts of the block, each once and in ascending order. */
  lemma HostsExact(p: Pool)
    ensures forall h: Address :: h in Hosts(p) <==> IsHost(p, h)
    ensures forall i, j :: 0 <= i < j < |Hosts(p)| ==> Hosts(p)[i] < Hosts(p)[j]
  {
    forall h: Address ensures h in Hosts(p) <==> IsHost(p, h) {
      SameBlock(p, h);
      SizeOfSmall(p);
      if p.prefix <= 30 && IsHost(p, h) {
        assert Hosts(p)[h - Base(p) - 1] == h;
      }
    }
  }

  lemma SizeOfSmall(p: Pool)
    ensures p.prefix == 32 ==> Size(p) == 1 && Base(p) == p.address
    ensures p.prefix == 31 ==> Size(p) == 2
  {
    assert Pow2(0) == 1 && Pow2(1) == 2 * Pow2(0);
  }

  // ---------------------------------------------------------------------------------------
  // The search

  function FirstFree(hosts: seq<Address>, gateway: Address, taken: set<Address>): Option<Address>
    decreases |hosts|
  {
    if hosts == [] then None
    else if hosts[0] != gateway && hosts[0] !in taken then Some(hosts[0])
    else FirstFree(hosts[1..], gateway, taken)
  }

  lemma {:induction false} FirstFreeInList(hosts: seq<Address>, gateway: Address, taken: set<Address>)
    requires forall i, j :: 0 <= i < j < |hosts| ==> hosts[i] < hosts[j]
    ensures match FirstFree(hosts, gateway, taken)
            case None => forall h: Address :: h in hosts && h != gateway ==> h in taken
            case Some(r) => r in hosts && r != gateway && r !in taken
                            && forall h: Address :: h in hosts && h != gateway && h !in taken ==> r <= h
    decreases |hosts|
  {
    if hosts != [] {
      assert hosts == [hosts[0]] + hosts[1..];
      FirstFreeInList(hosts[1..], gateway, taken);
    }
  }

  function Next(p: Pool, taken: set<Address>): Option<Address> {
    FirstFree(Hosts(p), p.gateway, taken)
  }

  /** The search yields the least usable address that is free, and fails exactly when none is. */
  lemma NextIsLeastFree(p: Pool, taken: set<Address>)
    ensures Next(p, taken).None? <==> forall h: Address :: IsUsable(p, h) ==> h in taken
    ensures Next(p, taken).Some? ==>
              var r := Next(p, taken).value;
              IsUsable(p, r) && r !in taken && forall h: Address :: IsUsable(p, h) && h !in taken ==> r <= h
  {
    HostsExact(p);
    FirstFreeInList(Hosts(p), p.gateway, taken);
    if Next(p, taken).None? {
      forall h: Address | IsUsable(p, h) ensures h in taken { assert h in Hosts(p); }
    }
  }

  // ---------------------------------------------------------------------------------------
  // The manager

  /** The state file: absent, written in full, or cut off by a write that did not finish. */
  datatype StateFile = Missing | Good(inUse: set<Address>) | Torn

  function Load(f: StateFile): set<Address> {
    match f
    case Missing => {}
    case Good(inUse) => inUse
    case Torn => {}
  }

  datatype Failure = Exhausted | LockTimeout | SaveRaised

  /** A save raises before the file is emptied, or after. */
  datatype Saving = Saved | NotOpened | HalfWritten

  /** How the file system answers one call: a read that raises counts as an empty pool. */
  datatype Io = Io(readFails: bool, save: Saving)

  const FINE := Io(false, Saved)

  function Read(f: StateFile, io: Io): set<Address> {
    if io.readFails then {} else Load(f)
  }

  function Written(f: StateFile, inUse: set<Address>, io: Io): StateFile {
    match io.save
    case Saved => Good(inUse)
    case NotOpened => f
    case HalfWritten => Torn
  }

  function AllocateEffect(p: Pool, f: StateFile, locked: bool, io: Io): (Result<Address, Failure>, StateFile) {
    if locked then (Err(LockTimeout), f)
    else match Next(p, Read(f, io))
      case None => (Err(Exhausted), f)
      case Some(h) => (if io.save == Saved then Ok(h) else Err(SaveRaised), Written(f, Read(f, io) + {h}, io))
  }

  function ReleaseEffect(f: StateFile, ip: Address, locked: bool, io: Io): (Result<(), Failure>, StateFile) {
    if locked then (Err(LockTimeout), f)
    else (if io.save == Saved then Ok(()) else Err(SaveRaised), Written(f, Read(f, io) - {ip}, io))
  }

  /** A call that is let in works on what it could read, nothing when the read raised. Its file is then the new
  set, the old file when the save raised before it began, or one cut off when it raised half-way, and it raises
  in these two cases. Without a free address, or without the lock, nothing changes. */
  lemma CallsUnderErrors(p: Pool, f: StateFile, ip: Address, io: Io)
    ensures var (r, after) := AllocateEffect(p, f, false, io);
            var seen := if io.readFails then {} else Load(f);
            if forall h: Address :: IsUsable(p, h) ==> h in seen then r == Err(Exhausted) && after == f
            else match io.save
              case Saved => r.Ok? && IsUsable(p, r.value) && r.value !in seen && Load(after) == seen + {r.value}
              case NotOpened => r == Err(SaveRaised) && after == f
              case HalfWritten => r == Err(SaveRaised) && after == Torn && Load(after) == {}
    ensures var (r, after) := ReleaseEffect(f, ip, false, io);
            match io.save
            case Saved => r == Ok(()) && Load(after) == (if io.readFails then {} else Load(f)) - {ip}
            case NotOpened => r == Err(SaveRaised) && after == f
            case HalfWritten => r == Err(SaveRaised) && after == Torn
    ensures AllocateEffect(p, f, true, io) == (Err(LockTimeout), f)
    ensures ReleaseEffect(f, ip, true, io) == (Err(LockTimeout), f)
  {
    NextIsLeastFree(p, if io.readFails then {} else Load(f));
  }

  const ATTEMPTS: nat := 50

  /** The manager while no other process works on its directory; a lock file may have been left behind. */
  class IpamManager {
    const pool: Pool
    var file: StateFile
    var locked: bool

    constructor (pool: Pool, file: StateFile, locked: bool)
      ensures this.pool == pool && this.file == file && this.locked == locked
    {
      this.pool, this.file, this.locked := pool, file, locked;
    }

    method Enter() returns (ok: bool)
      modifies this`locked
      ensures ok <==> !old(locked)
      ensures locked
    {
      for attempt := 0 to ATTEMPTS
        invariant locked == old(locked) && (attempt > 0 ==> locked)
      {
        if !locked {
          locked := true;
          return true;
        }
      }
      return false;
    }

    method Save(inUse: set<Address>, io: Io) returns (ok: bool)
      modifies this`file
      ensures ok == (io.save == Saved) && file == Written(old(file), inUse, io)
      ensures ok ==> Load(file) == inUse
      ensures !ok ==> file == old(file) || Load(file) == {}
    {
      if io.save == NotOpened {
        return false;
      }
      file := Torn;
      if io.save == HalfWritten {
        return false;
      }
      file := Good(inUse);
      return true;
    }

    /** The least usable address that the state file does not list, as far as it could be read. */
    method Allocate(io: Io) returns (r: Result<Address, Failure>)
      modifies this
      ensures locked == old(locked)
      ensures (r, file) == AllocateEffect(pool, old(file), old(locked), io)
      ensures r == Err(Exhausted)
              <==> !old(locked) && forall h: Address :: IsUsable(pool, h) ==> h in Read(old(file), io)
      ensures r.Ok? ==> IsUsable(pool, r.value) && r.value !in Read(old(file), io)
                        && forall h: Address :: IsUsable(pool, h) && h < r.value ==> h in Read(old(file), io)
      ensures r.Ok? && !io.readFails ==> Load(file) == Load(old(file)) + {r.value}
      ensures r.Err? && r.error != SaveRaised ==> file == old(file)
    {
      NextIsLeastFree(pool, Read(file, io));
      var entered := Enter();
      if !entered {
        return Err(LockTimeout);
      }
      var inUse := Read(file, io);
      var hosts := Hosts(pool);
      for i := 0 to |hosts|
        invariant locked && file == old(file)
        invariant FirstFree(hosts[i..], pool.gateway, inUse) == Next(pool, inUse)
      {
        var ip := hosts[i];
        assert hosts[i..][1..] == hosts[i + 1..];
        if ip == pool.gateway {
          continue;
        }
        if ip !in inUse {
          var saved := Save(inUse + {ip}, io);
          locked := false;
          return if saved then Ok(ip) else Err(SaveRaised);
        }
      }
      locked := false;
      return Err(Exhausted);
    }

    method Release(ip: Address, io: Io) returns (r: Result<(), Failure>)
      modifies this
      ensures locked == old(locked)
      ensures (r, file) == ReleaseEffect(old(file), ip, old(locked), io)
      ensures r.Ok? && !io.readFails ==> Load(file) == Load(old(file)) - {ip}
      ensures r == Err(LockTimeout) ==> file == old(file)
    {
      var entered := Enter();
      if !entered {
        return Err(LockTimeout);
      }
      var saved := Save(Read(file, io) - {ip}, io);
      locked := false;
      return if saved then Ok(()) else Err(SaveRaised);
    }
  }

  // ---------------------------------------------------------------------------------------
  // Every run of one manager

  datatype Request = Allocating(io: Io) | Releasing(ip: Address, io: Io)

  function Effect(p: Pool, f: StateFile, e: Request): StateFile {
    match e
    case Allocating(io) => AllocateEffect(p, f, false, io).1
    case Releasing(ip, io) => ReleaseEffect(f, ip, false, io).1
  }

  function FileAfter(p: Pool, events: seq<Request>): StateFile
    decreases |events|
  {
    if events == [] then Missing else Effect(p, FileAfter(p, events[..|events| - 1]), events[|events| - 1])
  }

  function AllocatedAfter(p: Pool, events: seq<Request>): set<Address> {
    Load(FileAfter(p, events))
  }

  /** The usable addresses as a set. */
  ghost function Usable(p: Pool): (u: set<Address>)
    ensures forall h: Address :: h in u <==> IsUsable(p, h)
  {
    HostsExact(p);
    set h: Address | h in Hosts(p) && h != p.gateway
  }

  lemma {:induction false} SetOfAscending(s: seq<Address>)
    requires forall i, j :: 0 <= i < j < |s| ==> s[i] < s[j]
    ensures |set x: Address | x in s| == |s|
  {
    if s == [] {
      assert (set x: Address | x in s) == {};
    } else {
      var init, last := s[..|s| - 1], s[|s| - 1];
      SetOfAscending(init);
      assert s == init + [last];
      assert (set x: Address | x in s) == (set x: Address | x in init) + {last};
    }
  }

  /** A block with prefix p holds 2^(32-p) - 2 hosts, and one fewer when the gateway is one of them;
  with prefix 31 and 32 all its addresses are hosts. */
  lemma UsableCount(p: Pool)
    ensures |Usable(p)| == (if p.prefix <= 30 then Size(p) - 2 else Size(p)) - (if IsHost(p, p.gateway) then 1 else 0)
  {
    HostsExact(p);
    SizeOfSmall(p);
    SetOfAscending(Hosts(p));
    var all := set h: Address | h in Hosts(p);
    assert Usable(p) == all - {p.gateway};
    assert p.gateway in all <==> IsHost(p, p.gateway);
  }

  lemma SubsetCount<T>(a: set<T>, b: set<T>)
    requires a <= b
    ensures |a| <= |b| && (|a| == |b| <==> a == b)
  {
    assert b == a + (b - a);
    assert |b| == |a| + |b - a|;
  }

  lemma {:induction false} OnlyUsable(p: Pool, events: seq<Request>)
    ensures AllocatedAfter(p, events) <= Usable(p)
    decreases |events|
  {
    if events != [] {
      var past := events[..|events| - 1];
      OnlyUsable(p, past);
      var f, e := FileAfter(p, past), events[|events| - 1];
      NextIsLeastFree(p, Read(f, e.io));
    }
  }

  /** Over every run, reads and saves failing in any way, only usable addresses are allocated, so never more
  than the block has; and the pool is reported as exhausted exactly when that number is reached. For prefixes
  up to 30 and a gateway that is a host the number is 2^(32-p) - 3. */
  lemma PoolBound(p: Pool, events: seq<Request>)
    ensures var inUse := AllocatedAfter(p, events);
            && inUse <= Usable(p)
            && |inUse| <= |Usable(p)|
            && (Next(p, inUse).None? <==> |inUse| == |Usable(p)|)
    ensures p.prefix <= 30 && IsHost(p, p.gateway) ==> |AllocatedAfter(p, events)| <= Pow2(32 - p.prefix) - 3
  {
    var inUse := AllocatedAfter(p, events);
    OnlyUsable(p, events);
    SubsetCount(inUse, Usable(p));
    NextIsLeastFree(p, inUse);
    UsableCount(p);
    assert Usable(p) <= inUse <==> Next(p, inUse).None?;
  }
}
