/** The two-pipe start handshake: the parent half in `pybox/container/runtime.py`, the child half in
`pybox/container/init.py`, as interleaved steps of two processes. */
module Handshake {
  import opened Outcomes

  /** Which of the two processes hold one end of a pipe open. */
  datatype End = End(parent: bool, child: bool)

  /** A pipe: the bytes in it, and who holds its two ends. */
  datatype Pipe = Pipe(bytes: nat, readers: End, writers: End)

  const BOTH: End := End(true, true)

  function WithoutParent(p: Pipe): Pipe {
    p.(readers := End(false, p.readers.child), writers := End(false, p.writers.child))
  }

  function WithoutChild(p: Pipe): Pipe {
    p.(readers := End(p.readers.parent, false), writers := End(p.writers.parent, false))
  }

  predicate Open(e: End) {
    e.parent || e.child
  }

  /** A read returns when a byte is there, or with nothing once no write end is open. */
  predicate Readable(p: Pipe) {
    p.bytes > 0 || !Open(p.writers)
  }

  function Drained(p: Pipe): Pipe {
    if p.bytes > 0 then p.(bytes := p.bytes - 1) else p
  }

  /** What each process does next. */
  datatype ParentAt =
    | CloseReadyWrite | CloseMapsRead | ReadReady | CloseReadyRead | WriteIdMaps | SignalMaps
    | CloseMapsWrite | RecordRunning | Started | Raised | Crashed

  datatype ChildAt =
    | CloseReadyRead' | CloseMapsWrite' | UnshareUser | SignalReady | CloseReadyWrite' | ReadMaps
    | CloseMapsRead' | MigrateCgroup | UnshareRest | SetUpRoot | Executed | ClosePipes | Exited

  /** The last five fields record what has happened so far. */
  datatype State = State(
    parent: ParentAt, child: ChildAt, ready: Pipe, maps: Pipe,
    userNamespace: bool, mapsAttempted: bool, mapsByteWritten: bool, recordedRunning: bool, enteredUnshareRest: bool)

  /** Whether each side closes the pipe ends it does not use, whether the parent may crash, and whether it
  may raise while it writes the id maps or the record, and live on with the pipe ends it has open. The source
  closes the unused ends on both sides. */
  datatype Config = Config(parentCloses: bool, childCloses: bool, parentMayCrash: bool, parentMayRaise: bool)

  /** Right after the fork. */
  const FORKED: State := State(CloseReadyWrite, CloseReadyRead', Pipe(0, BOTH, BOTH), Pipe(0, BOTH, BOTH),
                               false, false, false, false, false)

  predicate ParentOver(s: State) {
    s.parent.Started? || s.parent.Raised? || s.parent.Crashed?
  }

  predicate ChildOver(s: State) {
    s.child.Executed? || s.child.Exited?
  }

  predicate ChildFailed(s: State) {
    s.child.ClosePipes? || s.child.Exited?
  }

  datatype Step = ParentStep | ParentError | ParentCrash | ChildStep | ChildError | ChildKilled

  /** The parent's next step; `None` while it waits in a read, or when it is over. */
  function ParentNext(c: Config, s: State): Option<State> {
    match s.parent
    case CloseReadyWrite =>
      Some(s.(parent := CloseMapsRead,
              ready := if c.parentCloses then s.ready.(writers := End(false, s.ready.writers.child)) else s.ready))
    case CloseMapsRead =>
      Some(s.(parent := ReadReady,
              maps := if c.parentCloses then s.maps.(readers := End(false, s.maps.readers.child)) else s.maps))
    case ReadReady => if Readable(s.ready) then Some(s.(parent := CloseReadyRead, ready := Drained(s.ready))) else None
    case CloseReadyRead =>
      Some(s.(parent := WriteIdMaps, ready := s.ready.(readers := End(false, s.ready.readers.child))))
    case WriteIdMaps => Some(s.(parent := SignalMaps, mapsAttempted := true))
    case SignalMaps =>
      // writing to a pipe nobody reads raises, and the record is left alone
      if !Open(s.maps.readers) then Some(s.(parent := Raised))
      else Some(s.(parent := CloseMapsWrite, maps := s.maps.(bytes := s.maps.bytes + 1), mapsByteWritten := true))
    case CloseMapsWrite =>
      Some(s.(parent := RecordRunning, maps := s.maps.(writers := End(false, s.maps.writers.child))))
    case RecordRunning => Some(s.(parent := Started, recordedRunning := true))
    case Started => None
    case Raised => None
    case Crashed => None
  }

  /** The child's next step when nothing goes wrong in it. */
  function ChildNext(c: Config, s: State): Option<State> {
    match s.child
    case CloseReadyRead' =>
      Some(s.(child := CloseMapsWrite',
              ready := if c.childCloses then s.ready.(readers := End(s.ready.readers.parent, false)) else s.ready))
    case CloseMapsWrite' =>
      Some(s.(child := UnshareUser,
              maps := if c.childCloses then s.maps.(writers := End(s.maps.writers.parent, false)) else s.maps))
    case UnshareUser => Some(s.(child := SignalReady, userNamespace := true))
    case SignalReady =>
      if !Open(s.ready.readers) then Some(s.(child := ClosePipes))
      else Some(s.(child := CloseReadyWrite', ready := s.ready.(bytes := s.ready.bytes + 1)))
    case CloseReadyWrite' =>
      Some(s.(child := ReadMaps, ready := s.ready.(writers := End(s.ready.writers.parent, false))))
    case ReadMaps => if Readable(s.maps) then Some(s.(child := CloseMapsRead', maps := Drained(s.maps))) else None
    case CloseMapsRead' =>
      Some(s.(child := MigrateCgroup, maps := s.maps.(readers := End(s.maps.readers.parent, false))))
    case MigrateCgroup => Some(s.(child := UnshareRest))
    case UnshareRest => Some(s.(child := SetUpRoot, enteredUnshareRest := true))
    case SetUpRoot => Some(s.(child := Executed))
    case ClosePipes => Some(s.(child := Exited, ready := WithoutChild(s.ready), maps := WithoutChild(s.maps)))
    case Executed => None
    case Exited => None
  }

  function Next(c: Config, s: State, step: Step): Option<State> {
    match step
    case ParentStep => ParentNext(c, s)
    case ParentCrash =>
      if c.parentMayCrash && !ParentOver(s)
      then Some(s.(parent := Crashed, ready := WithoutParent(s.ready), maps := WithoutParent(s.maps)))
      else None
    case ParentError =>
      if c.parentMayRaise && (s.parent == WriteIdMaps || s.parent == RecordRunning)
      then Some(s.(parent := Raised, mapsAttempted := true))
      else None
    case ChildStep => ChildNext(c, s)
    case ChildError =>
      // an exception in any step runs the failure path; a step of the second unshare may fail half-way
      if ChildOver(s) || s.child == ClosePipes then None
      else Some(s.(child := ClosePipes, enteredUnshareRest := s.enteredUnshareRest || s.child == UnshareRest))
    case ChildKilled =>
      if ChildOver(s) then None
      else Some(s.(child := Exited, ready := WithoutChild(s.ready), maps := WithoutChild(s.maps)))
  }

  /** The state after a sequence of steps, if each of them could be taken. */
  function After(c: Config, steps: seq<Step>): Option<State> {
    if steps == [] then Some(FORKED)
    else match After(c, steps[..|steps| - 1])
      case None => None
      case Some(s) => Next(c, s, steps[|steps| - 1])
  }

  // ---------------------------------------------------------------------------------------
  // Safety

  /** The order the handshake is for, as a condition on one step: the second unshare is entered only
  after the parent has attempted the id maps, the maps are attempted only once the child's user
  namespace exists or the child has failed, and RUNNING is recorded only after the byte is written. */
  predicate SafeStep(s: State, s': State) {
    && (s'.enteredUnshareRest && !s.enteredUnshareRest ==> s.mapsAttempted)
    && (s'.mapsAttempted && !s.mapsAttempted ==> s.userNamespace || ChildFailed(s))
    && (s'.recordedRunning && !s.recordedRunning ==> s.mapsByteWritten)
  }

  ghost predicate AlwaysSafe(c: Config) {
    forall steps, step :: After(c, steps).Some? && Next(c, After(c, steps).value, step).Some?
      ==> SafeStep(After(c, steps).value, Next(c, After(c, steps).value, step).value)
  }

  /** The parent is past its read. */
  predicate ParentPastRead(p: ParentAt) {
    match p
    case CloseReadyRead => true
    case WriteIdMaps => true
    case _ => PastAttempt(p)
  }

  /** The parent has attempted the id maps. */
  predicate PastAttempt(p: ParentAt) {
    match p
    case SignalMaps => true
    case Raised => true
    case _ => PastSignal(p)
  }

  predicate PastSignal(p: ParentAt) {
    match p
    case CloseMapsWrite => true
    case RecordRunning => true
    case Started => true
    case _ => false
  }

  predicate ChildPastRead(a: ChildAt) {
    match a
    case CloseMapsRead' => true
    case MigrateCgroup => true
    case UnshareRest => true
    case SetUpRoot => true
    case Executed => true
    case _ => false
  }

  predicate ChildPastUnshareUser(a: ChildAt) {
    match a
    case SignalReady => true
    case CloseReadyWrite' => true
    case ReadMaps => true
    case _ => ChildPastRead(a)
  }

  /** What every step keeps, unless the parent may crash and the child would see the end of its pipe. */
  predicate SafetyInvariant(c: Config, s: State) {
    && (s.parent == Crashed ==> c.parentMayCrash)
    && (s.ready.bytes > 0 ==> s.userNamespace)
    && (ChildPastUnshareUser(s.child) ==> s.userNamespace)
    && (!s.ready.writers.child ==> s.userNamespace || ChildFailed(s))
    && (ParentPastRead(s.parent) ==> s.userNamespace || ChildFailed(s))
    && (PastAttempt(s.parent) ==> s.mapsAttempted)
    && (PastSignal(s.parent) ==> s.mapsByteWritten)
    && (!s.maps.writers.parent ==> s.mapsByteWritten || s.parent == Crashed)
    && (!c.childCloses && !ChildOver(s) ==> s.maps.writers.child)
    && (s.maps.bytes > 0 ==> s.mapsByteWritten)
    && (s.mapsByteWritten ==> s.mapsAttempted)
    && (ChildPastRead(s.child) ==> s.mapsByteWritten)
  }

  lemma ParentKeepsSafetyEarly(c: Config, s: State)
    requires ParentLeft(s.parent) >= 5
    requires SafetyInvariant(c, s) && ParentNext(c, s).Some?
    ensures SafetyInvariant(c, ParentNext(c, s).value) && SafeStep(s, ParentNext(c, s).value)
  {
    match s.parent {
      case CloseReadyWrite =>
      case CloseMapsRead =>
      case ReadReady =>
      case CloseReadyRead =>
    }
  }

  lemma ParentKeepsSafetyLate(c: Config, s: State)
    requires ParentLeft(s.parent) < 5
    requires SafetyInvariant(c, s) && ParentNext(c, s).Some?
    ensures SafetyInvariant(c, ParentNext(c, s).value) && SafeStep(s, ParentNext(c, s).value)
  {
    match s.parent {
      case WriteIdMaps =>
      case SignalMaps =>
      case CloseMapsWrite =>
      case RecordRunning =>
    }
  }

  lemma ParentKeepsSafety(c: Config, s: State)
    requires SafetyInvariant(c, s) && ParentNext(c, s).Some?
    ensures SafetyInvariant(c, ParentNext(c, s).value) && SafeStep(s, ParentNext(c, s).value)
  {
    if ParentLeft(s.parent) >= 5 { ParentKeepsSafetyEarly(c, s); } else { ParentKeepsSafetyLate(c, s); }
  }

  lemma ChildKeepsSafetyEarly(c: Config, s: State)
    requires !(c.parentMayCrash && c.childCloses)
    requires SafetyInvariant(c, s) && ChildNext(c, s).Some?
    requires ChildLeft(s.child) >= 6
    ensures SafetyInvariant(c, ChildNext(c, s).value) && SafeStep(s, ChildNext(c, s).value)
  {
    match s.child {
      case CloseReadyRead' =>
      case CloseMapsWrite' =>
      case UnshareUser =>
      case SignalReady =>
      case CloseReadyWrite' =>
      case ReadMaps =>
    }
  }

  lemma ChildKeepsSafetyLate(c: Config, s: State)
    requires !(c.parentMayCrash && c.childCloses)
    requires SafetyInvariant(c, s) && ChildNext(c, s).Some?
    requires ChildLeft(s.child) < 6
    ensures SafetyInvariant(c, ChildNext(c, s).value) && SafeStep(s, ChildNext(c, s).value)
  {
    match s.child {
      case CloseMapsRead' =>
      case MigrateCgroup =>
      case UnshareRest =>
      case SetUpRoot =>
      case ClosePipes =>
    }
  }

  lemma ChildKeepsSafety(c: Config, s: State)
    requires !(c.parentMayCrash && c.childCloses)
    requires SafetyInvariant(c, s) && ChildNext(c, s).Some?
    ensures SafetyInvariant(c, ChildNext(c, s).value) && SafeStep(s, ChildNext(c, s).value)
  {
    if ChildLeft(s.child) >= 6 { ChildKeepsSafetyEarly(c, s); } else { ChildKeepsSafetyLate(c, s); }
  }

  lemma SafetyInvariantKept(c: Config, s: State, step: Step)
    requires !(c.parentMayCrash && c.childCloses)
    requires SafetyInvariant(c, s) && Next(c, s, step).Some?
    ensures SafetyInvariant(c, Next(c, s, step).value) && SafeStep(s, Next(c, s, step).value)
  {
    match step
    case ParentStep => ParentKeepsSafety(c, s);
    case ParentError =>
    case ChildStep => ChildKeepsSafety(c, s);
    case ParentCrash =>
    case ChildError =>
    case ChildKilled =>
  }

  lemma {:induction false} SafetyInvariantHolds(c: Config, steps: seq<Step>)
    requires !(c.parentMayCrash && c.childCloses)
    requires After(c, steps).Some?
    ensures SafetyInvariant(c, After(c, steps).value)
    decreases |steps|
  {
    if steps != [] {
      var past := steps[..|steps| - 1];
      SafetyInvariantHolds(c, past);
      SafetyInvariantKept(c, After(c, past).value, steps[|steps| - 1]);
    }
  }

  lemma Extended(c: Config, steps: seq<Step>, step: Step)
    requires After(c, steps).Some?
    ensures After(c, steps + [step]) == Next(c, After(c, steps).value, step)
  {
    assert (steps + [step])[..|steps|] == steps;
  }

  // ---------------------------------------------------------------------------------------
  // What has happened shows in where the processes are

  /** RUNNING is recorded exactly when the parent has come to its end; the byte is written and the maps attempted
  when the parent is past these steps, the namespaces entered when the child is, and by nothing else. */
  predicate Telling(s: State) {
    && (s.recordedRunning <==> s.parent == Started)
    && (PastSignal(s.parent) ==> s.mapsByteWritten)
    && (s.mapsByteWritten ==> PastSignal(s.parent) || s.parent == Raised || s.parent == Crashed)
    && (PastAttempt(s.parent) ==> s.mapsAttempted)
    && (s.mapsAttempted ==> PastAttempt(s.parent) || s.parent == Crashed)
    && (ChildPastUnshareUser(s.child) ==> s.userNamespace)
    && (s.userNamespace ==> ChildPastUnshareUser(s.child) || ChildFailed(s))
    && (s.child == SetUpRoot || s.child == Executed ==> s.enteredUnshareRest)
    && (s.enteredUnshareRest ==> s.child == SetUpRoot || s.child == Executed || ChildFailed(s))
  }

  lemma ParentKeepsTelling(c: Config, s: State)
    requires Telling(s) && ParentNext(c, s).Some?
    ensures Telling(ParentNext(c, s).value)
  {
    match s.parent {
      case CloseReadyWrite =>
      case CloseMapsRead =>
      case ReadReady =>
      case CloseReadyRead =>
      case WriteIdMaps =>
      case SignalMaps =>
      case CloseMapsWrite =>
      case RecordRunning =>
    }
  }

  lemma ChildKeepsTelling(c: Config, s: State)
    requires Telling(s) && ChildNext(c, s).Some?
    ensures Telling(ChildNext(c, s).value)
  {
    match s.child {
      case CloseReadyRead' =>
      case CloseMapsWrite' =>
      case UnshareUser =>
      case SignalReady =>
      case CloseReadyWrite' =>
      case ReadMaps =>
      case CloseMapsRead' =>
      case MigrateCgroup =>
      case UnshareRest =>
      case SetUpRoot =>
      case ClosePipes =>
    }
  }

  /** In every run, with crashes and failures anywhere. */
  lemma {:induction false} AlwaysTelling(c: Config, steps: seq<Step>)
    requires After(c, steps).Some?
    ensures Telling(After(c, steps).value)
    decreases |steps|
  {
    if steps != [] {
      var past, step := steps[..|steps| - 1], steps[|steps| - 1];
      AlwaysTelling(c, past);
      var s := After(c, past).value;
      match step
      case ParentStep => ParentKeepsTelling(c, s);
      case ChildStep => ChildKeepsTelling(c, s);
      case ParentError =>
      case ParentCrash =>
      case ChildError =>
      case ChildKilled =>
    }
  }

  /** Pipe ends nobody holds any more, once their holder has closed them or is gone. */
  predicate Left(c: Config, s: State) {
    && (c.parentCloses && s.parent != CloseReadyWrite && s.parent != CloseMapsRead ==> !s.maps.readers.parent)
    && (s.child == Exited ==> !s.maps.readers.child)
    && (s.parent == Crashed ==> !s.ready.readers.parent)
    && (c.childCloses && s.child != CloseReadyRead' && s.child != ClosePipes ==> !s.ready.readers.child)
  }

  lemma ParentKeepsLeftEarly(c: Config, s: State)
    requires Left(c, s) && ParentNext(c, s).Some? && ParentLeft(s.parent) >= 5
    ensures Left(c, ParentNext(c, s).value)
  {
    match s.parent {
      case CloseReadyWrite =>
      case CloseMapsRead =>
      case ReadReady =>
      case CloseReadyRead =>
    }
  }

  lemma ParentKeepsLeftLate(c: Config, s: State)
    requires Left(c, s) && ParentNext(c, s).Some? && ParentLeft(s.parent) < 5
    ensures Left(c, ParentNext(c, s).value)
  {
    match s.parent {
      case WriteIdMaps =>
      case SignalMaps =>
      case CloseMapsWrite =>
      case RecordRunning =>
    }
  }

  lemma ParentKeepsLeft(c: Config, s: State)
    requires Left(c, s) && ParentNext(c, s).Some?
    ensures Left(c, ParentNext(c, s).value)
  {
    if ParentLeft(s.parent) >= 5 { ParentKeepsLeftEarly(c, s); } else { ParentKeepsLeftLate(c, s); }
  }

  lemma ChildKeepsLeftEarly(c: Config, s: State)
    requires Left(c, s) && ChildNext(c, s).Some? && ChildLeft(s.child) >= 6
    ensures Left(c, ChildNext(c, s).value)
  {
    match s.child {
      case CloseReadyRead' =>
      case CloseMapsWrite' =>
      case UnshareUser =>
      case SignalReady =>
      case CloseReadyWrite' =>
      case ReadMaps =>
    }
  }

  lemma ChildKeepsLeftLate(c: Config, s: State)
    requires Left(c, s) && ChildNext(c, s).Some? && ChildLeft(s.child) < 6
    ensures Left(c, ChildNext(c, s).value)
  {
    match s.child {
      case CloseMapsRead' =>
      case MigrateCgroup =>
      case UnshareRest =>
      case SetUpRoot =>
      case ClosePipes =>
    }
  }

  lemma ChildKeepsLeft(c: Config, s: State)
    requires Left(c, s) && ChildNext(c, s).Some?
    ensures Left(c, ChildNext(c, s).value)
  {
    if ChildLeft(s.child) >= 6 { ChildKeepsLeftEarly(c, s); } else { ChildKeepsLeftLate(c, s); }
  }

  lemma {:induction false} AlwaysLeft(c: Config, steps: seq<Step>)
    requires After(c, steps).Some?
    ensures Left(c, After(c, steps).value)
    decreases |steps|
  {
    if steps != [] {
      var past, step := steps[..|steps| - 1], steps[|steps| - 1];
      AlwaysLeft(c, past);
      var s := After(c, past).value;
      match step
      case ParentStep => ParentKeepsLeft(c, s);
      case ChildStep => ChildKeepsLeft(c, s);
      case ParentError =>
      case ParentCrash =>
      case ChildError =>
      case ChildKilled =>
    }
  }

  /** After any run: a parent about to signal a child that is gone raises instead, and so never records RUNNING; a
  child about to signal a parent that is gone fails. */
  lemma DeadPeerIsNoticed(c: Config, steps: seq<Step>)
    requires Closes(c) && After(c, steps).Some?
    ensures var s := After(c, steps).value;
            && (s.parent == SignalMaps && s.child == Exited ==>
                  Next(c, s, ParentStep) == Some(s.(parent := Raised)) && !s.recordedRunning)
            && (s.child == SignalReady && s.parent == Crashed ==>
                  Next(c, s, ChildStep) == Some(s.(child := ClosePipes)))
  {
    AlwaysLeft(c, steps);
    AlwaysTelling(c, steps);
  }

  /** The source's configuration: both sides close the pipe ends they do not use. */
  predicate Closes(c: Config) {
    c.parentCloses && c.childCloses
  }

  const NONE := End(false, false)
  const BY_PARENT := End(true, false)
  const BY_CHILD := End(false, true)

  /** An undisturbed handshake: the child comes first as far as its read, then the parent to its end, then the
  child to its own. */
  function StepAt(i: nat): Step {
    if i < 5 || i >= 13 then ChildStep else ParentStep
  }

  function StepsTo(n: nat): seq<Step> {
    seq(n, i requires 0 <= i < n => StepAt(i))
  }

  /** The child as far as its read. */
  function ChildFirst(i: nat): State
    requires i <= 5
  {
    var ready, maps := Pipe(0, BY_PARENT, BOTH), Pipe(0, BOTH, BY_PARENT);
    match i
    case 0 => FORKED
    case 1 => FORKED.(child := CloseMapsWrite', ready := ready)
    case 2 => FORKED.(child := UnshareUser, ready := ready, maps := maps)
    case 3 => FORKED.(child := SignalReady, ready := ready, maps := maps, userNamespace := true)
    case 4 => FORKED.(child := CloseReadyWrite', ready := ready.(bytes := 1), maps := maps, userNamespace := true)
    case _ => FORKED.(child := ReadMaps, ready := Pipe(1, BY_PARENT, BY_PARENT), maps := maps, userNamespace := true)
  }

  /** The parent, while the child waits in its read. */
  function ParentThen(i: nat): State
    requires 5 <= i <= 13
  {
    var waiting := ChildFirst(5);
    var ready, maps := Pipe(1, BY_PARENT, NONE), Pipe(0, BY_CHILD, BY_PARENT);
    var closed := Pipe(0, NONE, NONE);
    match i
    case 5 => waiting
    case 6 => waiting.(parent := CloseMapsRead, ready := ready)
    case 7 => waiting.(parent := ReadReady, ready := ready, maps := maps)
    case 8 => waiting.(parent := CloseReadyRead, ready := Pipe(0, BY_PARENT, NONE), maps := maps)
    case 9 => waiting.(parent := WriteIdMaps, ready := closed, maps := maps)
    case 10 => waiting.(parent := SignalMaps, ready := closed, maps := maps, mapsAttempted := true)
    case 11 => waiting.(parent := CloseMapsWrite, ready := closed, maps := maps.(bytes := 1), mapsAttempted := true,
                        mapsByteWritten := true)
    case 12 => waiting.(parent := RecordRunning, ready := closed, maps := Pipe(1, BY_CHILD, NONE),
                        mapsAttempted := true, mapsByteWritten := true)
    case _ => waiting.(parent := Started, ready := closed, maps := Pipe(1, BY_CHILD, NONE), mapsAttempted := true,
                       mapsByteWritten := true, recordedRunning := true)
  }

  /** The child, after the parent has come to its end. */
  function ChildLast(i: nat): State
    requires 13 <= i <= 18
  {
    var started := ParentThen(13);
    var read, empty := Pipe(0, BY_CHILD, NONE), Pipe(0, NONE, NONE);
    match i
    case 13 => started
    case 14 => started.(child := CloseMapsRead', maps := read)
    case 15 => started.(child := MigrateCgroup, maps := empty)
    case 16 => started.(child := UnshareRest, maps := empty)
    case 17 => started.(child := SetUpRoot, maps := empty, enteredUnshareRest := true)
    case _ => started.(child := Executed, maps := empty, enteredUnshareRest := true)
  }

  function OnPath(i: nat): State
    requires i <= 18
  {
    if i <= 5 then ChildFirst(i) else if i <= 13 then ParentThen(i) else ChildLast(i)
  }

  lemma PathStep(c: Config, i: nat)
    requires Closes(c) && i < 18
    ensures Next(c, OnPath(i), StepAt(i)) == Some(OnPath(i + 1))
  {
    if i < 5 {
      assert ChildNext(c, ChildFirst(i)) == Some(ChildFirst(i + 1));
    } else if i < 13 {
      assert ParentNext(c, ParentThen(i)) == Some(ParentThen(i + 1));
    } else {
      assert ChildNext(c, ChildLast(i)) == Some(ChildLast(i + 1));
    }
  }

  lemma {:induction false} PathTaken(c: Config, n: nat)
    requires Closes(c) && n <= 18
    ensures After(c, StepsTo(n)) == Some(OnPath(n))
    decreases n
  {
    if n > 0 {
      PathTaken(c, n - 1);
      PathStep(c, n - 1);
      assert StepsTo(n) == StepsTo(n - 1) + [StepAt(n - 1)];
      Extended(c, StepsTo(n - 1), StepAt(n - 1));
    }
  }

  /** An undisturbed handshake ends with the container recorded as RUNNING, the child in its namespaces with its
  id maps written, both pipes empty and all their ends closed. */
  lemma HandshakeSucceeds(c: Config)
    requires Closes(c)
    ensures After(c, StepsTo(18)) ==
            Some(State(Started, Executed, Pipe(0, NONE, NONE), Pipe(0, NONE, NONE), true, true, true, true, true))
  {
    PathTaken(c, 18);
  }

  /** A child whose parent has crashed runs up to the second unshare. */
  lemma OrphanGoesOn(c: Config, start: seq<Step>) returns (r: seq<Step>)
    requires After(c, start).Some?
    requires var s := After(c, start).value;
             && s.child == CloseReadyWrite' && !s.mapsAttempted && !s.enteredUnshareRest
             && s.maps.bytes == 0 && !Open(s.maps.writers)
    ensures After(c, r).Some?
    ensures var s := After(c, r).value;
            s.child == UnshareRest && !s.mapsAttempted && !s.enteredUnshareRest
  {
    r := start;
    for i := 0 to 4
      invariant After(c, r).Some?
      invariant var s := After(c, r).value;
                && !s.mapsAttempted && !s.enteredUnshareRest && s.maps.bytes == 0 && !Open(s.maps.writers)
                && s.child == (match i case 0 => CloseReadyWrite' case 1 => ReadMaps case 2 => CloseMapsRead'
                               case 3 => MigrateCgroup case _ => UnshareRest)
    {
      Extended(c, r, ChildStep);
      r := r + [ChildStep];
    }
  }

  /** The child runs up to its read while the parent has not moved. */
  lemma ChildAlone(c: Config, n: nat) returns (r: seq<Step>)
    requires n <= 5
    ensures After(c, r).Some?
    ensures var s := After(c, r).value;
            && s.parent == CloseReadyWrite && s.ready.readers.parent && !s.mapsAttempted && !s.enteredUnshareRest
            && s.maps.bytes == 0 && s.maps.writers.parent && (s.maps.writers.child <==> n < 2 || !c.childCloses)
            && ChildLeft(s.child) == 11 - n && (n >= 4 ==> s.ready.bytes > 0)
  {
    r := [];
    for i := 0 to n
      invariant After(c, r).Some?
      invariant var s := After(c, r).value;
                && s.parent == CloseReadyWrite && s.ready.readers.parent && !s.mapsAttempted && !s.enteredUnshareRest
                && s.maps.bytes == 0 && s.maps.writers.parent && (s.maps.writers.child <==> i < 2 || !c.childCloses)
                && ChildLeft(s.child) == 11 - i && (i >= 4 ==> s.ready.bytes > 0)
    {
      Extended(c, r, ChildStep);
      r := r + [ChildStep];
    }
  }

  /** The parent crashes at once: the child reads the end of its pipe and goes on without id maps. */
  lemma CrashLetsChildPass(c: Config)
    requires c.parentMayCrash && c.childCloses
    ensures !AlwaysSafe(c)
  {
    var r := ChildAlone(c, 4);
    Extended(c, r, ParentCrash);
    r := OrphanGoesOn(c, r + [ParentCrash]);
    assert Next(c, After(c, r).value, ChildStep).Some?;
  }

  /** In every interleaving, with the child failing at any point, the handshake keeps its order, if and
  only if the parent cannot crash while a crash would be visible to the child. In the source the child
  does see it, so the order holds exactly without parent crashes. */
  lemma HandshakeSafety(c: Config)
    ensures AlwaysSafe(c) <==> !(c.parentMayCrash && c.childCloses)
  {
    if c.parentMayCrash && c.childCloses {
      CrashLetsChildPass(c);
    } else {
      forall steps, step | After(c, steps).Some? && Next(c, After(c, steps).value, step).Some?
        ensures SafeStep(After(c, steps).value, Next(c, After(c, steps).value, step).value)
      {
        SafetyInvariantHolds(c, steps);
        SafetyInvariantKept(c, After(c, steps).value, step);
      }
    }
  }

  // ---------------------------------------------------------------------------------------
  // Progress

  /** Some process can go on by itself: nothing waits for a byte that will never come. */
  predicate CanGoOn(c: Config, s: State) {
    ParentNext(c, s).Some? || ChildNext(c, s).Some?
  }

  ghost predicate NeverStuck(c: Config) {
    forall steps :: After(c, steps).Some? && !(ParentOver(After(c, steps).value) && ChildOver(After(c, steps).value))
      ==> CanGoOn(c, After(c, steps).value)
  }

  function ParentLeft(p: ParentAt): nat {
    match p
    case CloseReadyWrite => 8
    case CloseMapsRead => 7
    case ReadReady => 6
    case CloseReadyRead => 5
    case WriteIdMaps => 4
    case SignalMaps => 3
    case CloseMapsWrite => 2
    case RecordRunning => 1
    case _ => 0
  }

  function ChildLeft(a: ChildAt): nat {
    match a
    case CloseReadyRead' => 11
    case CloseMapsWrite' => 10
    case UnshareUser => 9
    case SignalReady => 8
    case CloseReadyWrite' => 7
    case ReadMaps => 6
    case CloseMapsRead' => 5
    case MigrateCgroup => 4
    case UnshareRest => 3
    case SetUpRoot => 2
    case ClosePipes => 1
    case _ => 0
  }

  /** A bound on the steps still to come. */
  function Measure(s: State): nat {
    ParentLeft(s.parent) + ChildLeft(s.child)
  }

  lemma ParentMeasureDecreases(c: Config, s: State)
    requires ParentNext(c, s).Some?
    ensures Measure(ParentNext(c, s).value) < Measure(s)
  {
    match s.parent {
      case CloseReadyWrite =>
      case CloseMapsRead =>
      case ReadReady =>
      case CloseReadyRead =>
      case WriteIdMaps =>
      case SignalMaps =>
      case CloseMapsWrite =>
      case RecordRunning =>
    }
  }

  lemma ChildMeasureDecreasesEarly(c: Config, s: State)
    requires ChildNext(c, s).Some?
    requires ChildLeft(s.child) >= 6
    ensures Measure(ChildNext(c, s).value) < Measure(s)
  {
    match s.child {
      case CloseReadyRead' =>
      case CloseMapsWrite' =>
      case UnshareUser =>
      case SignalReady =>
      case CloseReadyWrite' =>
      case ReadMaps =>
    }
  }

  lemma ChildMeasureDecreasesLate(c: Config, s: State)
    requires ChildNext(c, s).Some?
    requires ChildLeft(s.child) < 6
    ensures Measure(ChildNext(c, s).value) < Measure(s)
  {
    match s.child {
      case CloseMapsRead' =>
      case MigrateCgroup =>
      case UnshareRest =>
      case SetUpRoot =>
      case ClosePipes =>
    }
  }

  lemma ChildMeasureDecreases(c: Config, s: State)
    requires ChildNext(c, s).Some?
    ensures Measure(ChildNext(c, s).value) < Measure(s)
  {
    if ChildLeft(s.child) >= 6 { ChildMeasureDecreasesEarly(c, s); } else { ChildMeasureDecreasesLate(c, s); }
  }

  lemma MeasureDecreases(c: Config, s: State, step: Step)
    requires Next(c, s, step).Some?
    ensures Measure(Next(c, s, step).value) < Measure(s)
  {
    match step
    case ParentStep => ParentMeasureDecreases(c, s);
    case ParentError =>
    case ChildStep => ChildMeasureDecreases(c, s);
    case ParentCrash =>
    case ChildError =>
    case ChildKilled =>
  }

  /** Every run ends: no interleaving has more than nineteen steps. */
  lemma {:induction false} RunsEnd(c: Config, steps: seq<Step>)
    requires After(c, steps).Some?
    ensures |steps| + Measure(After(c, steps).value) <= 19
    decreases |steps|
  {
    if steps != [] {
      var past := steps[..|steps| - 1];
      RunsEnd(c, past);
      MeasureDecreases(c, After(c, past).value, steps[|steps| - 1]);
    }
  }

  /** The child's write end of the ready pipe goes only when the child is past its signal, or over; the
  parent keeps no write end of the pipe it reads. */
  predicate ReadyEnds(c: Config, s: State) {
    && (c.parentCloses && s.parent != CloseReadyWrite ==> !s.ready.writers.parent)
    && (s.ready.writers.child ==> s.child == ClosePipes || ChildLeft(s.child) > 6)
  }

  /** The child sees the byte of a parent that got past its signal, and the end of the pipe of one that
  crashed. */
  predicate MapsEnds(c: Config, s: State) {
    && (s.parent == Crashed ==> c.parentMayCrash && !s.maps.writers.parent)
    && (c.childCloses && s.maps.writers.child ==> s.child == ClosePipes || ChildLeft(s.child) > 9)
    && (s.child == ReadMaps && PastSignal(s.parent) ==> s.maps.bytes > 0)
    && (ChildLeft(s.child) > 6 && PastSignal(s.parent) ==> s.maps.bytes > 0)
    && (s.parent == Raised && !c.parentMayRaise ==> !s.maps.readers.child)
    && (ChildLeft(s.child) >= 6 ==> s.maps.readers.child)
  }

  lemma ParentKeepsReadyEnds(c: Config, s: State)
    requires ReadyEnds(c, s) && ParentNext(c, s).Some?
    ensures ReadyEnds(c, ParentNext(c, s).value)
  {
    match s.parent {
      case CloseReadyWrite =>
      case CloseMapsRead =>
      case ReadReady =>
      case CloseReadyRead =>
      case WriteIdMaps =>
      case SignalMaps =>
      case CloseMapsWrite =>
      case RecordRunning =>
    }
  }

  lemma ChildKeepsReadyEndsEarly(c: Config, s: State)
    requires ChildLeft(s.child) >= 6
    requires ReadyEnds(c, s) && ChildNext(c, s).Some?
    ensures ReadyEnds(c, ChildNext(c, s).value)
  {
    match s.child {
      case CloseReadyRead' =>
      case CloseMapsWrite' =>
      case UnshareUser =>
      case SignalReady =>
      case CloseReadyWrite' =>
      case ReadMaps =>
    }
  }

  lemma ChildKeepsReadyEndsLate(c: Config, s: State)
    requires ChildLeft(s.child) < 6
    requires ReadyEnds(c, s) && ChildNext(c, s).Some?
    ensures ReadyEnds(c, ChildNext(c, s).value)
  {
    match s.child {
      case CloseMapsRead' =>
      case MigrateCgroup =>
      case UnshareRest =>
      case SetUpRoot =>
      case ClosePipes =>
    }
  }

  lemma ChildKeepsReadyEnds(c: Config, s: State)
    requires ReadyEnds(c, s) && ChildNext(c, s).Some?
    ensures ReadyEnds(c, ChildNext(c, s).value)
  {
    if ChildLeft(s.child) >= 6 { ChildKeepsReadyEndsEarly(c, s); } else { ChildKeepsReadyEndsLate(c, s); }
  }

  lemma ParentKeepsMapsEndsEarly(c: Config, s: State)
    requires ParentLeft(s.parent) >= 5
    requires MapsEnds(c, s) && ParentNext(c, s).Some?
    ensures MapsEnds(c, ParentNext(c, s).value)
  {
    match s.parent {
      case CloseReadyWrite =>
      case CloseMapsRead =>
      case ReadReady =>
      case CloseReadyRead =>
    }
  }

  lemma ParentKeepsMapsEndsLate(c: Config, s: State)
    requires ParentLeft(s.parent) < 5
    requires MapsEnds(c, s) && ParentNext(c, s).Some?
    ensures MapsEnds(c, ParentNext(c, s).value)
  {
    match s.parent {
      case WriteIdMaps =>
      case SignalMaps =>
      case CloseMapsWrite =>
      case RecordRunning =>
    }
  }

  lemma ParentKeepsMapsEnds(c: Config, s: State)
    requires MapsEnds(c, s) && ParentNext(c, s).Some?
    ensures MapsEnds(c, ParentNext(c, s).value)
  {
    if ParentLeft(s.parent) >= 5 { ParentKeepsMapsEndsEarly(c, s); } else { ParentKeepsMapsEndsLate(c, s); }
  }

  lemma ChildKeepsMapsEndsEarly(c: Config, s: State)
    requires ChildLeft(s.child) >= 6
    requires MapsEnds(c, s) && ChildNext(c, s).Some?
    ensures MapsEnds(c, ChildNext(c, s).value)
  {
    match s.child {
      case CloseReadyRead' =>
      case CloseMapsWrite' =>
      case UnshareUser =>
      case SignalReady =>
      case CloseReadyWrite' =>
      case ReadMaps =>
    }
  }

  lemma ChildKeepsMapsEndsLate(c: Config, s: State)
    requires ChildLeft(s.child) < 6
    requires MapsEnds(c, s) && ChildNext(c, s).Some?
    ensures MapsEnds(c, ChildNext(c, s).value)
  {
    match s.child {
      case CloseMapsRead' =>
      case MigrateCgroup =>
      case UnshareRest =>
      case SetUpRoot =>
      case ClosePipes =>
    }
  }

  lemma ChildKeepsMapsEnds(c: Config, s: State)
    requires MapsEnds(c, s) && ChildNext(c, s).Some?
    ensures MapsEnds(c, ChildNext(c, s).value)
  {
    if ChildLeft(s.child) >= 6 { ChildKeepsMapsEndsEarly(c, s); } else { ChildKeepsMapsEndsLate(c, s); }
  }

  lemma EndsKept(c: Config, s: State, step: Step)
    requires ReadyEnds(c, s) && MapsEnds(c, s) && Next(c, s, step).Some?
    ensures ReadyEnds(c, Next(c, s, step).value) && MapsEnds(c, Next(c, s, step).value)
  {
    match step
    case ParentStep =>
      ParentKeepsReadyEnds(c, s);
      ParentKeepsMapsEnds(c, s);
    case ParentError =>
    case ChildStep =>
      ChildKeepsReadyEnds(c, s);
      ChildKeepsMapsEnds(c, s);
    case ParentCrash =>
    case ChildError =>
    case ChildKilled =>
  }

  lemma {:induction false} EndsHold(c: Config, steps: seq<Step>)
    requires After(c, steps).Some?
    ensures ReadyEnds(c, After(c, steps).value) && MapsEnds(c, After(c, steps).value)
    decreases |steps|
  {
    if steps != [] {
      var past := steps[..|steps| - 1];
      EndsHold(c, past);
      EndsKept(c, After(c, past).value, steps[|steps| - 1]);
    }
  }

  /** A parent that keeps its own write end of the ready pipe waits forever for a child that died. */
  lemma ParentMustClose(c: Config)
    requires !c.parentCloses
    ensures !NeverStuck(c)
  {
    var r: seq<Step> := [];
    Extended(c, r, ChildKilled);
    r := r + [ChildKilled];
    Extended(c, r, ParentStep);
    r := r + [ParentStep];
    Extended(c, r, ParentStep);
    r := r + [ParentStep];
    var s := After(c, r).value;
    assert s.parent == ReadReady && s.ready.writers == End(true, false) && s.ready.bytes == 0;
    assert !CanGoOn(c, s);
  }

  /** A child that keeps its own write end of the maps pipe waits forever for a parent that crashed. */
  lemma ChildMustClose(c: Config)
    requires !c.childCloses && c.parentMayCrash
    ensures !NeverStuck(c)
  {
    var r := ChildAlone(c, 5);
    Extended(c, r, ParentCrash);
    r := r + [ParentCrash];
    var s := After(c, r).value;
    assert !CanGoOn(c, s);
  }

  /** A parent that raises while it writes the id maps keeps the write end of the maps pipe open, and the
  child waits for as long as the parent lives, whatever ends both have closed. */
  lemma ParentMustNotRaise(c: Config)
    requires c.parentMayRaise
    ensures !NeverStuck(c)
  {
    var r := ChildAlone(c, 5);
    for i := 0 to 4
      invariant After(c, r).Some?
      invariant var s := After(c, r).value;
                && s.child == ReadMaps && s.maps.bytes == 0 && s.maps.writers.parent && (i < 3 ==> s.ready.bytes > 0)
                && s.parent == (match i case 0 => CloseReadyWrite case 1 => CloseMapsRead case 2 => ReadReady
                                case 3 => CloseReadyRead case _ => WriteIdMaps)
    {
      Extended(c, r, ParentStep);
      r := r + [ParentStep];
    }
    Extended(c, r, ParentError);
    r := r + [ParentError];
    assert !CanGoOn(c, After(c, r).value);
  }

  /** With the child allowed to fail at any step, no interleaving gets stuck on a pipe read if and only
  if the parent closes the ends it does not use, so does the child wherever the parent may crash, and the
  parent does not raise and live on. */
  lemma HandshakeProgress(c: Config)
    ensures NeverStuck(c) <==> c.parentCloses && !c.parentMayRaise && (c.childCloses || !c.parentMayCrash)
  {
    if !c.parentCloses {
      ParentMustClose(c);
    } else if c.parentMayRaise {
      ParentMustNotRaise(c);
    } else if !c.childCloses && c.parentMayCrash {
      ChildMustClose(c);
    } else {
      forall steps | After(c, steps).Some? && !(ParentOver(After(c, steps).value) && ChildOver(After(c, steps).value))
        ensures CanGoOn(c, After(c, steps).value)
      {
        EndsHold(c, steps);
      }
    }
  }
}
