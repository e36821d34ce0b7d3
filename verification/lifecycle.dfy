/** The persisted container records and the operations on them: `pybox/container/state.py`,
`pybox/container/runtime.py` and the handlers of `pybox/daemon/main.py`. */
module Lifecycle {
  import opened Outcomes

  datatype ContainerState = CREATED | RUNNING | PAUSED | STOPPED | REMOVED

  datatype Record = Record(state: ContainerState, pid: Option<nat>, exitCode: Option<int>)

  type Records = map<string, Record>

  /** The state files: those that hold a record, and those a write has left cut off. */
  datatype Store = Store(records: Records, torn: set<string>)

  datatype Failure =
    | NotFound | Unreadable | CannotStart | NoPid | StillRunning | NotPermitted
    | CreateFailed | StartFailed | WriteFailed | RemoveFailed

  /** A write of a state file succeeds, raises before the file is emptied, or raises after. */
  datatype Writing = Written | NotOpened | HalfWritten

  /** How the file system answers one operation: whether its first read succeeds, and its write. A later
  read that fails keeps the write from being begun. */
  datatype Disk = Disk(readable: bool, write: Writing)

  /** Removing a container's directory succeeds, or raises with the state file still there, or with it gone. */
  datatype Deletion = Deleted | RecordKept | RecordGone

  datatype Removal = Removal(readable: bool, deletion: Deletion)

  /** What `kill` reports. */
  datatype Signalled = Delivered | NoSuchProcess | Forbidden

  /** What a non-blocking wait reports: still running, reaped, or not a child of this process. */
  datatype Poll = Alive | Reaped | NotAChild

  /** How the kernel and the clock answer one call of `stop`: the reading the deadline is computed from,
  the reading before each poll, the answer to each poll, and the answers to both signals. */
  datatype StopWorld = StopWorld(term: Signalled, start: real, checks: nat -> real, polls: nat -> Poll, kill: Signalled)

  /** A sleep of a tenth of a second between two readings takes at least that long. */
  ghost predicate ClockAdvances(w: StopWorld) {
    && w.checks(0) >= w.start
    && forall k: nat :: w.checks(k + 1) >= w.checks(k) + 0.1
  }

  /** Some poll before the deadline finds the process gone. */
  ghost predicate GoneInTime(w: StopWorld, timeout: real) {
    exists k: nat :: w.checks(k) < w.start + timeout && w.polls(k) != Alive
  }

  /** A signal that `stop` sends is not permitted. */
  ghost predicate SignalRaises(w: StopWorld, timeout: real) {
    || w.term == Forbidden
    || (w.term == Delivered && !GoneInTime(w, timeout) && w.kill == Forbidden)
  }

  function Ceil(x: real): int {
    if x.Floor as real == x then x.Floor else x.Floor + 1
  }

  // ---------------------------------------------------------------------------------------
  // The operations as functions of the state files

  function Get(st: Store, id: string, readable: bool): Result<Record, Failure> {
    if id in st.torn then Err(Unreadable)
    else if id !in st.records then Err(NotFound)
    else if !readable then Err(Unreadable)
    else Ok(st.records[id])
  }

  function Rewritten(st: Store, id: string, r: Record, write: Writing): Store {
    match write
    case Written => Store(st.records[id := r], st.torn - {id})
    case NotOpened => st
    case HalfWritten => Store(st.records - {id}, st.torn + {id})
  }

  /** `prepared`: the image, the file system and the config of the container are in place. */
  function CreateEffect(st: Store, id: string, prepared: bool, write: Writing): (Result<(), Failure>, Store) {
    if !prepared then (Err(CreateFailed), st)
    else (if write == Written then Ok(()) else Err(CreateFailed),
          Rewritten(st, id, Record(CREATED, None, None), write))
  }

  /** `pid` is the result of the handshake, `None` when it raises. */
  function StartEffect(st: Store, id: string, d: Disk, hasConfig: bool, pid: Option<nat>)
    : (Result<nat, Failure>, Store)
  {
    match Get(st, id, d.readable)
    case Err(e) => (Err(e), st)
    case Ok(r) =>
      if !r.state.CREATED? && !r.state.STOPPED? then (Err(CannotStart), st)
      else if !hasConfig then (Err(NotFound), st)
      else match pid
        case None => (Err(StartFailed), st)
        case Some(p) =>
          (if d.write == Written then Ok(p) else Err(WriteFailed),
           Rewritten(st, id, r.(state := RUNNING, pid := Some(p)), d.write))
  }

  /** `status` is the exit status, `None` when the process was reaped before. */
  function WaitEffect(st: Store, id: string, d: Disk, status: Option<int>): (Result<int, Failure>, Store) {
    match Get(st, id, d.readable)
    case Err(e) => (Err(e), st)
    case Ok(r) =>
      if r.pid.None? then (Err(NoPid), st)
      else
        var code := match status case None => 0 case Some(c) => c;
        (if d.write == Written then Ok(code) else Err(WriteFailed),
         Rewritten(st, id, Record(STOPPED, None, Some(code)), d.write))
  }

  ghost function StopEffect(st: Store, id: string, d: Disk, timeout: real, w: StopWorld)
    : (Result<(), Failure>, Store)
  {
    match Get(st, id, d.readable)
    case Err(e) => (Err(e), st)
    case Ok(r) =>
      if !r.state.RUNNING? || r.pid.None? then (Ok(()), st)
      else if SignalRaises(w, timeout) then (Err(NotPermitted), st)
      else (if d.write == Written then Ok(()) else Err(WriteFailed),
            Rewritten(st, id, r.(state := STOPPED), d.write))
  }

  function RemoveEffect(st: Store, id: string, rm: Removal): (Result<(), Failure>, Store) {
    match Get(st, id, rm.readable)
    case Err(e) => (Err(e), st)
    case Ok(r) =>
      if r.state.RUNNING? then (Err(StillRunning), st)
      else (if rm.deletion == Deleted then Ok(()) else Err(RemoveFailed),
            if rm.deletion == RecordKept then st else st.(records := st.records - {id}))
  }

  /** The daemon's handler: a forced removal stops the container first, whatever that raises. */
  ghost function RmEffect(st: Store, id: string, force: bool, d: Disk, w: StopWorld, rm: Removal)
    : (Result<(), Failure>, Store)
  {
    RemoveEffect(if force then StopEffect(st, id, d, 10.0, w).1 else st, id, rm)
  }

  /** `writes` is how rewriting each record ends; one that raises is logged and passed over. */
  function Recovered(st: Store, writes: string -> Writing): Store {
    Store(
      map id | id in st.records && !(st.records[id].state.RUNNING? && writes(id) == HalfWritten) ::
        if st.records[id].state.RUNNING? && writes(id) == Written then st.records[id].(state := STOPPED)
        else st.records[id],
      st.torn + set id | id in st.records && st.records[id].state.RUNNING? && writes(id) == HalfWritten)
  }

  // ---------------------------------------------------------------------------------------
  // The manager

  class ContainerManager {
    var records: Records
    var torn: set<string>

    constructor ()
      ensures Files() == Store(map[], {})
    {
      records, torn := map[], {};
    }

    function Files(): Store
      reads this
    {
      Store(records, torn)
    }

    method Save(id: string, r: Record, write: Writing) returns (ok: bool)
      modifies this
      ensures ok == (write == Written) && Files() == Rewritten(old(Files()), id, r, write)
    {
      if write == NotOpened {
        return false;
      }
      if write == HalfWritten {
        records, torn := records - {id}, torn + {id};
        return false;
      }
      records, torn := records[id := r], torn - {id};
      return true;
    }

    method Create(id: string, prepared: bool, write: Writing) returns (r: Result<(), Failure>)
      modifies this
      ensures (r, Files()) == CreateEffect(old(Files()), id, prepared, write)
    {
      if !prepared {
        return Err(CreateFailed);
      }
      var saved := Save(id, Record(CREATED, None, None), write);
      return if saved then Ok(()) else Err(CreateFailed);
    }

    method Start(id: string, d: Disk, hasConfig: bool, pid: Option<nat>) returns (r: Result<nat, Failure>)
      modifies this
      ensures (r, Files()) == StartEffect(old(Files()), id, d, hasConfig, pid)
    {
      var record := Get(Files(), id, d.readable);
      if record.Err? {
        return Err(record.error);
      }
      var state := record.value.state;
      if state != CREATED && state != STOPPED {
        return Err(CannotStart);
      }
      if !hasConfig {
        return Err(NotFound);
      }
      if pid.None? {
        return Err(StartFailed);
      }
      var saved := Save(id, record.value.(state := RUNNING, pid := pid), d.write);
      return if saved then Ok(pid.value) else Err(WriteFailed);
    }

    method Wait(id: string, d: Disk, status: Option<int>) returns (r: Result<int, Failure>)
      modifies this
      ensures (r, Files()) == WaitEffect(old(Files()), id, d, status)
    {
      var record := Get(Files(), id, d.readable);
      if record.Err? {
        return Err(record.error);
      }
      if record.value.pid.None? {
        return Err(NoPid);
      }
      var code := if status.Some? then status.value else 0;
      var saved := Save(id, record.value.(state := STOPPED, pid := None, exitCode := Some(code)), d.write);
      return if saved then Ok(code) else Err(WriteFailed);
    }

    method SetStopped(id: string, r: Record, write: Writing) returns (result: Result<(), Failure>)
      modifies this
      ensures result == if write == Written then Ok(()) else Err(WriteFailed)
      ensures Files() == Rewritten(old(Files()), id, r.(state := STOPPED), write)
    {
      var saved := Save(id, r.(state := STOPPED), write);
      return if saved then Ok(()) else Err(WriteFailed);
    }

    /** Polls until the process is gone or the timeout is over, then kills. `polls` counts the polls. */
    method Stop(id: string, d: Disk, timeout: real, w: StopWorld) returns (r: Result<(), Failure>, polls: nat)
      requires ClockAdvances(w)
      modifies this
      ensures (r, Files()) == StopEffect(old(Files()), id, d, timeout, w)
      ensures polls <= if timeout > 0.0 then Ceil(10.0 * timeout) else 0
    {
      polls := 0;
      var record := Get(Files(), id, d.readable);
      if record.Err? {
        return Err(record.error), polls;
      }
      if record.value.state != RUNNING || record.value.pid.None? {
        return Ok(()), polls;
      }
      match w.term {
        case Forbidden => return Err(NotPermitted), polls;
        case NoSuchProcess =>
          r := SetStopped(id, record.value, d.write);
          return r, polls;
        case Delivered =>
      }
      var deadline := w.start + timeout;
      while w.checks(polls) < deadline
        invariant Files() == old(Files())
        invariant w.checks(polls) >= w.start + polls as real * 0.1
        invariant forall k: nat :: k < polls ==> w.polls(k) == Alive
        invariant polls <= if timeout > 0.0 then Ceil(10.0 * timeout) else 0
        decreases Ceil(10.0 * timeout) - polls
      {
        assert polls as real < 10.0 * timeout;
        polls := polls + 1;
        if w.polls(polls - 1) != Alive {
          r := SetStopped(id, record.value, d.write);
          return r, polls;
        }
      }
      ChecksGrow(w, polls);
      if w.kill == Forbidden {
        return Err(NotPermitted), polls;
      }
      r := SetStopped(id, record.value, d.write);
      return r, polls;
    }

    method Remove(id: string, rm: Removal) returns (r: Result<(), Failure>)
      modifies this
      ensures (r, Files()) == RemoveEffect(old(Files()), id, rm)
    {
      var record := Get(Files(), id, rm.readable);
      if record.Err? {
        return Err(record.error);
      }
      if record.value.state == RUNNING {
        return Err(StillRunning);
      }
      if rm.deletion != RecordKept {
        records := records - {id};
      }
      return if rm.deletion == Deleted then Ok(()) else Err(RemoveFailed);
    }

    method HandleRm(id: string, force: bool, d: Disk, w: StopWorld, rm: Removal) returns (r: Result<(), Failure>)
      requires ClockAdvances(w)
      modifies this
      ensures (r, Files()) == RmEffect(old(Files()), id, force, d, w, rm)
    {
      if force {
        var _, _ := Stop(id, d, 10.0, w);
      }
      r := Remove(id, rm);
    }

    /** On daemon start every record of a running container is marked as stopped. */
    method RecoverState(writes: string -> Writing)
      requires records.Keys !! torn
      modifies this
      ensures Files() == Recovered(old(Files()), writes)
    {
      ghost var before, after := Files(), Recovered(Files(), writes);
      var left := records.Keys;
      while left != {}
        invariant left <= records.Keys <= before.records.Keys && records.Keys !! torn
        invariant forall id :: id in left ==> records[id] == before.records[id]
        invariant forall id :: id in before.records && id !in left ==>
                    if id in after.records then id in records && records[id] == after.records[id] else id !in records
        invariant forall id :: id in torn <==> id in before.torn || (id in after.torn && id !in left)
        decreases left
      {
        var id :| id in left;
        if records[id].state == RUNNING {
          var _ := SetStopped(id, records[id], writes(id));
        }
        left := left - {id};
      }
      assert records == after.records && torn == after.torn;
    }
  }

  /** No reading after the first past the deadline is before it. */
  lemma {:induction false} ChecksMonotone(w: StopWorld, j: nat, k: nat)
    requires ClockAdvances(w) && j <= k
    ensures w.checks(j) <= w.checks(k)
    decreases k - j
  {
    if j < k { ChecksMonotone(w, j, k - 1); }
  }

  lemma ChecksGrow(w: StopWorld, j: nat)
    requires ClockAdvances(w)
    ensures forall k: nat :: k >= j ==> w.checks(j) <= w.checks(k)
  {
    forall k: nat | k >= j ensures w.checks(j) <= w.checks(k) { ChecksMonotone(w, j, k); }
  }

  // ---------------------------------------------------------------------------------------
  // Every run

  datatype Event =
    | Creating(id: string, prepared: bool, write: Writing)
    | Starting(id: string, d: Disk, hasConfig: bool, pid: Option<nat>)
    | Waiting(id: string, d: Disk, status: Option<int>)
    | Stopping(id: string, d: Disk, timeout: real, w: StopWorld)
    | Removing(id: string, rm: Removal)
    | Rm(id: string, force: bool, d: Disk, w: StopWorld, rm: Removal)
    | Recovering(writes: string -> Writing)

  ghost function Effect(st: Store, e: Event): Store {
    match e
    case Creating(id, prepared, write) => CreateEffect(st, id, prepared, write).1
    case Starting(id, d, hasConfig, pid) => StartEffect(st, id, d, hasConfig, pid).1
    case Waiting(id, d, status) => WaitEffect(st, id, d, status).1
    case Stopping(id, d, timeout, w) => StopEffect(st, id, d, timeout, w).1
    case Removing(id, rm) => RemoveEffect(st, id, rm).1
    case Rm(id, force, d, w, rm) => RmEffect(st, id, force, d, w, rm).1
    case Recovering(writes) => Recovered(st, writes)
  }

  ghost function After(events: seq<Event>): Store {
    if events == [] then Store(map[], {}) else Effect(After(events[..|events| - 1]), events[|events| - 1])
  }

  /** Only three of the five states occur; a running container has a process, and one that was only
  created has neither a process nor an exit code. */
  predicate Consistent(r: Record) {
    match r.state
    case CREATED => r.pid.None? && r.exitCode.None?
    case RUNNING => r.pid.Some?
    case STOPPED => true
    case PAUSED => false
    case REMOVED => false
  }

  ghost predicate AllConsistent(st: Store) {
    && (forall id :: id in st.records ==> Consistent(st.records[id]))
    && st.records.Keys !! st.torn
  }

  lemma RewriteConsistent(st: Store, id: string, r: Record, write: Writing)
    requires AllConsistent(st) && Consistent(r)
    ensures AllConsistent(Rewritten(st, id, r, write))
  {
  }

  lemma StopConsistent(st: Store, id: string, d: Disk, timeout: real, w: StopWorld)
    requires AllConsistent(st)
    ensures AllConsistent(StopEffect(st, id, d, timeout, w).1)
  {
    if id in st.records { RewriteConsistent(st, id, st.records[id].(state := STOPPED), d.write); }
  }

  lemma EffectConsistent(st: Store, e: Event)
    requires AllConsistent(st)
    ensures AllConsistent(Effect(st, e))
  {
    match e
    case Creating(id, _, write) => RewriteConsistent(st, id, Record(CREATED, None, None), write);
    case Starting(id, d, _, pid) =>
      if id in st.records && pid.Some? {
        RewriteConsistent(st, id, st.records[id].(state := RUNNING, pid := pid), d.write);
      }
    case Waiting(id, d, status) =>
      RewriteConsistent(st, id, Record(STOPPED, None, Some(if status.None? then 0 else status.value)), d.write);
    case Stopping(id, d, timeout, w) => StopConsistent(st, id, d, timeout, w);
    case Removing(_, _) =>
    case Rm(id, _, d, w, _) => StopConsistent(st, id, d, 10.0, w);
    case Recovering(_) =>
  }

  /** Over every run, reads, writes and deletions failing in any way, every record that can be read is
  consistent. */
  lemma {:induction false} RunsConsistent(events: seq<Event>)
    ensures AllConsistent(After(events))
    decreases |events|
  {
    if events != [] {
      RunsConsistent(events[..|events| - 1]);
      EffectConsistent(After(events[..|events| - 1]), events[|events| - 1]);
    }
  }

  /** Creation and `wait` are the operations that write the exit code. */
  predicate Touches(e: Event, id: string) {
    (e.Creating? || e.Waiting?) && e.id == id
  }

  lemma OthersKeepExitCode(st: Store, e: Event, id: string)
    requires !Touches(e, id) && id in Effect(st, e).records
    ensures id in st.records && Effect(st, e).records[id].exitCode == st.records[id].exitCode
  {
  }

  /** A `wait` that returns gives the exit status of the process, and 0 for one reaped before; and the record
  holds that code until the container is waited for or created again. */
  lemma {:induction false} ExitCodeKept(
      events: seq<Event>, id: string, d: Disk, status: Option<int>, later: seq<Event>)
    requires WaitEffect(After(events), id, d, status).0.Ok?
    requires forall e :: e in later ==> !Touches(e, id)
    ensures var code := WaitEffect(After(events), id, d, status).0.value;
            var rs := After(events + [Waiting(id, d, status)] + later).records;
            && (status.Some? ==> code == status.value)
            && (status.None? ==> code == 0)
            && (id in rs ==> rs[id].exitCode == Some(code))
            && (later == [] ==> id in rs && rs[id].state == STOPPED && rs[id].pid == None)
    decreases |later|
  {
    var run := events + [Waiting(id, d, status)];
    if later == [] {
      assert run + later == run && run[..|run| - 1] == events;
    } else {
      var init, last := later[..|later| - 1], later[|later| - 1];
      assert last in later;
      ExitCodeKept(events, id, d, status, init);
      assert (run + later)[..|run + later| - 1] == run + init && (run + later)[|run + later| - 1] == last;
      if id in After(run + later).records { OthersKeepExitCode(After(run + init), last, id); }
    }
  }

  /** After any run: a `wait` on a record that can be read and written returns exactly when the record has a
  process id. */
  lemma WaitExactly(events: seq<Event>, id: string, status: Option<int>)
    requires id in After(events).records
    ensures var (r, after) := WaitEffect(After(events), id, Disk(true, Written), status);
            && (r.Ok? <==> After(events).records[id].pid.Some?)
            && (r.Err? ==> r == Err(NoPid) && after == After(events))
  {
    RunsConsistent(events);
  }

  /** After any run: a container that can be read is started exactly when it is CREATED or STOPPED, its config is
  there, the handshake gives a process and the record can be rewritten; it is then RUNNING with that process
  and its old exit code. A RUNNING container is never started again, whatever the handshake would give. */
  lemma StartExactly(events: seq<Event>, id: string, d: Disk, hasConfig: bool, pid: Option<nat>)
    requires id in After(events).records && d.readable
    ensures var st, before := After(events), After(events).records[id];
            var (r, after) := StartEffect(st, id, d, hasConfig, pid);
            && (r.Ok? <==> before.state != RUNNING && hasConfig && pid.Some? && d.write == Written)
            && (r.Ok? ==> r.value == pid.value && after.records[id] == Record(RUNNING, pid, before.exitCode))
            && (before.state == RUNNING ==> r == Err(CannotStart) && after == st)
            && (r.Err? && d.write != HalfWritten ==> after == st)
  {
    RunsConsistent(events);
    assert Consistent(After(events).records[id]);
  }

  /** Creation leaves a fresh record exactly when everything is prepared and the record could be written. */
  lemma CreateExactly(st: Store, id: string, prepared: bool, write: Writing)
    ensures var (r, after) := CreateEffect(st, id, prepared, write);
            && (r.Ok? <==> prepared && write == Written)
            && (r.Ok? ==> Get(after, id, true) == Ok(Record(CREATED, None, None)))
            && (r.Err? && !(prepared && write == HalfWritten) ==> after == st)
            && (prepared && write == HalfWritten ==> Get(after, id, true) == Err(Unreadable))
  {
  }

  /** What `stop` does with a running container, by the answers of the kernel: the polls count as long as the
  clock is before the deadline. */
  lemma StopSignals(st: Store, id: string, timeout: real, w: StopWorld)
    requires id in st.records && id !in st.torn && st.records[id].state == RUNNING && st.records[id].pid.Some?
    ensures var (r, after) := StopEffect(st, id, Disk(true, Written), timeout, w);
            var stopped := (Ok(()), Store(st.records[id := st.records[id].(state := STOPPED)], st.torn));
            var left := (Err(NotPermitted), st);
            && (w.term == Forbidden ==> (r, after) == left)
            && (w.term == NoSuchProcess ==> (r, after) == stopped)
            && (forall k: nat :: w.term == Delivered && w.checks(k) < w.start + timeout && w.polls(k) != Alive
                  ==> (r, after) == stopped)
            && ((w.term == Delivered && forall k: nat :: w.checks(k) < w.start + timeout ==> w.polls(k) == Alive)
                ==> (r, after) == if w.kill == Forbidden then left else stopped)
  {
    assert st.torn - {id} == st.torn;
  }

  /** Without a state file, or with one that was cut off, every operation but the creation raises and changes
  nothing. */
  lemma AbsentRaises(st: Store, id: string, d: Disk, hasConfig: bool, pid: Option<nat>, status: Option<int>,
                     timeout: real, w: StopWorld, rm: Removal)
    requires id !in st.records || id in st.torn
    ensures var e := if id in st.torn then Unreadable else NotFound;
            && StartEffect(st, id, d, hasConfig, pid) == (Err(e), st)
            && WaitEffect(st, id, d, status) == (Err(e), st)
            && StopEffect(st, id, d, timeout, w) == (Err(e), st)
            && RemoveEffect(st, id, rm) == (Err(e), st)
            && RmEffect(st, id, true, d, w, rm) == (Err(e), st)
  {
  }

  /** An operation on one container leaves the records of all others as they are. */
  lemma OthersUntouched(st: Store, e: Event, other: string)
    requires !e.Recovering? && e.id != other
    ensures other in Effect(st, e).records <==> other in st.records
    ensures other in st.records ==> Effect(st, e).records[other] == st.records[other]
    ensures other in Effect(st, e).torn <==> other in st.torn
  {
  }

  /** After any run, a removal without force refuses exactly the RUNNING container, whatever could be done with
  its process, and takes any other. */
  lemma UnforcedRemoval(events: seq<Event>, id: string, d: Disk, w: StopWorld)
    requires id in After(events).records
    ensures var st, rm := After(events), Removal(true, Deleted);
            RmEffect(st, id, false, d, w, rm)
            == if st.records[id].state == RUNNING then (Err(StillRunning), st)
               else (Ok(()), Store(st.records - {id}, st.torn))
  {
    RunsConsistent(events);
  }

  predicate IsRunning(st: Store, id: string, pid: nat) {
    id in st.records && st.records[id].state.RUNNING? && st.records[id].pid == Some(pid)
  }

  predicate IsStart(e: Event, id: string, pid: nat) {
    e.Starting? && e.id == id && e.d == Disk(true, Written) && e.hasConfig && e.pid == Some(pid)
  }

  /** The container has been RUNNING with this process since event number `k`, which started it. */
  ghost predicate RunningSince(events: seq<Event>, id: string, k: nat, pid: nat) {
    && k < |events| && IsStart(events[k], id, pid)
    && forall j: nat :: k < j <= |events| ==> IsRunning(After(events[..j]), id, pid)
  }

  lemma SinceExtended(past: seq<Event>, e: Event, id: string, k: nat, pid: nat)
    requires RunningSince(past, id, k, pid) && IsRunning(After(past + [e]), id, pid)
    ensures RunningSince(past + [e], id, k, pid)
  {
    var events := past + [e];
    forall j: nat | k < j <= |events| ensures IsRunning(After(events[..j]), id, pid) {
      if j <= |past| {
        assert events[..j] == past[..j];
      } else {
        assert events[..j] == events;
      }
    }
  }

  lemma OnlyStartRuns(st: Store, e: Event, id: string, pid: nat)
    requires IsRunning(Effect(st, e), id, pid) && !IsRunning(st, id, pid)
    ensures IsStart(e, id, pid)
  {
  }

  /** A container is RUNNING only through a successful start, and has that start's process id ever since. */
  lemma {:induction false} RunningComesFromStart(events: seq<Event>, id: string) returns (k: nat)
    requires id in After(events).records && After(events).records[id].state.RUNNING?
    ensures var r := After(events).records[id]; r.pid.Some? && RunningSince(events, id, k, r.pid.value)
    decreases |events|
  {
    RunsConsistent(events);
    assert Consistent(After(events).records[id]);
    var past, e := events[..|events| - 1], events[|events| - 1];
    var pid := After(events).records[id].pid.value;
    assert events == past + [e] && events[..|events|] == events;
    if IsRunning(After(past), id, pid) {
      k := RunningComesFromStart(past, id);
      SinceExtended(past, e, id, k, pid);
    } else {
      k := |past|;
      OnlyStartRuns(After(past), e, id, pid);
    }
  }

  /** After any run: a `stop` raises exactly when the record cannot be read, or the container is running and
  its process may not be signalled or its record cannot be rewritten. A `stop` that returns leaves a record
  that is not RUNNING; a container it stopped keeps its process id until one `wait` has answered. */
  lemma StopStops(
      events: seq<Event>, id: string, d: Disk, timeout: real, w: StopWorld, status: Option<int>)
    requires id in After(events).records
    ensures var st, before := After(events), After(events).records[id];
            var (r, after) := StopEffect(st, id, d, timeout, w);
            && (r.Err? <==> || !d.readable
                            || (before.state.RUNNING? && (SignalRaises(w, timeout) || d.write != Written)))
            && (r.Err? && !(r.error == WriteFailed && d.write == HalfWritten) ==> after == st)
            && (r.Ok? ==> id in after.records && !after.records[id].state.RUNNING?)
            && (!before.state.RUNNING? ==> after == st)
            && (r.Ok? && before.state.RUNNING? ==>
                  && after.records[id] == before.(state := STOPPED)
                  && var (code, waited) := WaitEffect(after, id, Disk(true, Written), status);
                     code.Ok? && WaitEffect(waited, id, Disk(true, Written), status).0 == Err(NoPid))
  {
    RunsConsistent(events);
    assert Consistent(After(events).records[id]);
  }

  /** After any run, a forced removal meets the "is running" error exactly when the container is running and
  its `stop` leaves it so: the record could not be read then, its process may not be signalled, or its record
  could not be rewritten. It returns exactly when none of this happens, no write is cut off, and the deletion
  succeeds. The record is gone exactly when the deletion was reached and took it. */
  lemma ForcedRemoval(events: seq<Event>, id: string, d: Disk, w: StopWorld, rm: Removal)
    requires id in After(events).records
    ensures var st, running := After(events), After(events).records[id].state.RUNNING?;
            var stays := running && (!d.readable || SignalRaises(w, 10.0) || d.write == NotOpened);
            var cut := running && d.readable && !SignalRaises(w, 10.0) && d.write == HalfWritten;
            var (r, after) := RmEffect(st, id, true, d, w, rm);
            && (r == Err(StillRunning) <==> rm.readable && stays)
            && (r == Ok(()) <==> rm.readable && !stays && !cut && rm.deletion == Deleted)
            && (id !in after.records && id !in after.torn <==>
                  rm.readable && !stays && !cut && rm.deletion != RecordKept)
  {
    RunsConsistent(events);
    assert Consistent(After(events).records[id]);
  }

  /** A record that cannot be rewritten keeps a container RUNNING whose process is long gone: every signal is
  permitted, and the forced removal still meets the "is running" error. */
  lemma UnwritableKeepsRunning(id: string, pid: nat, w: StopWorld, rm: Removal)
    requires w.term == NoSuchProcess && rm.readable
    ensures var fine, full := Disk(true, Written), Disk(true, NotOpened);
            var st := After([Creating(id, true, Written), Starting(id, fine, true, Some(pid))]);
            && IsRunning(st, id, pid)
            && StopEffect(st, id, full, 10.0, w) == (Err(WriteFailed), st)
            && RmEffect(st, id, true, full, w, rm) == (Err(StillRunning), st)
  {
    var fine := Disk(true, Written);
    var events := [Creating(id, true, Written), Starting(id, fine, true, Some(pid))];
    assert events[..1] == [Creating(id, true, Written)] && events[..1][..0] == [];
    assert After(events[..1]) == Store(map[id := Record(CREATED, None, None)], {});
  }

  /** A state file that a write has cut off stays so: only creating the container anew replaces it. */
  lemma {:induction false} TornStays(events: seq<Event>, id: string, later: seq<Event>)
    requires id in After(events).torn && forall e :: e in later ==> !(e.Creating? && e.id == id)
    ensures id in After(events + later).torn
    decreases |later|
  {
    if later == [] {
      assert events + later == events;
    } else {
      var init, last := later[..|later| - 1], later[|later| - 1];
      assert last in later;
      TornStays(events, id, init);
      var all := events + later;
      assert all[..|all| - 1] == events + init && all[|all| - 1] == last;
    }
  }

  /** After recovery a container is RUNNING exactly when it was and rewriting its record was not begun; every
  other record that can be read can be started. */
  lemma {:induction false} RecoveryLeavesNoneRunning(
      events: seq<Event>, writes: string -> Writing, id: string, pid: nat)
    requires id in After(events).records
    ensures var running, st := After(events).records[id].state.RUNNING?, Recovered(After(events), writes);
            && (id in st.records <==> !(running && writes(id) == HalfWritten))
            && (id in st.records && st.records[id].state.RUNNING? <==> running && writes(id) == NotOpened)
            && (id in st.records && running && writes(id) == Written ==>
                  st.records[id] == After(events).records[id].(state := STOPPED))
            && (id in st.records && !running ==> st.records[id] == After(events).records[id])
            && (id in st.records && !st.records[id].state.RUNNING? ==>
                  StartEffect(st, id, Disk(true, Written), true, Some(pid)).0 == Ok(pid))
  {
    RunsConsistent(events);
    assert Consistent(After(events).records[id]);
  }
}
