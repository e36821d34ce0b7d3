/** The store of layer files under their digests: `pull_layer` in `pybox/registry/client.py` and the copies
made by `pybox/image/commit.py`. */
module BlobStores {
  import opened Outcomes
  import LayerStores

  type Content = seq<bv8>

  type HashState = nat

  /** A digest `algorithm:hex`, split at its last colon. */
  datatype Digest = Digest(algorithm: string, hex: string)

  /** The name of its file; a file of the store is named by its digest here. */
  function FileName(d: Digest): string {
    LayerStores.DirectoryOf(d.algorithm + ":" + d.hex)
  }

  lemma LastColon(a: string, b: string)
    requires ':' !in b
    ensures var s := a + ":" + b; s[|a|] == ':' && forall k :: |a| < k < |s| ==> s[k] != ':'
  {
    var s := a + ":" + b;
    assert forall k :: |a| < k < |s| ==> s[k] == b[k - |a| - 1];
  }

  lemma SameParts(a: string, b: string, c: string, d: string)
    requires ':' !in b && ':' !in d && a + ":" + b == c + ":" + d
    ensures a == c && b == d
  {
    var s := a + ":" + b;
    LastColon(a, b);
    LastColon(c, d);
    assert |a| == |c|;
    assert a == s[..|a|] && c == s[..|c|] && b == s[|a| + 1..] && d == s[|c| + 1..];
  }

  /** Different digests without underscores have different files. With underscores they may share one: a file
  stored for the first digest below answers every pull of the second, to which its content was not compared. */
  lemma FileNamesDiffer(d: Digest, e: Digest)
    requires ':' !in d.hex && ':' !in e.hex && '_' !in d.algorithm + d.hex && '_' !in e.algorithm + e.hex
    ensures FileName(d) == FileName(e) ==> d == e
    ensures FileName(Digest("x_y", "z")) == FileName(Digest("x", "y_z"))
  {
    var s, t := d.algorithm + ":" + d.hex, e.algorithm + ":" + e.hex;
    LayerStores.DirectoriesShared(s, t);
    LayerStores.DirectoriesShared("x_y:z", "x:y_z");
    assert "x_y" + ":" + "z" == "x_y:z" && "x" + ":" + "y_z" == "x:y_z";
    if s == t {
      SameParts(d.algorithm, d.hex, e.algorithm, e.hex);
    }
  }

  /** A hash computed piece by piece. */
  datatype Hasher = Hasher(initial: HashState, update: (HashState, Content) -> HashState, hex: HashState -> string)

  predicate Joins(h: Hasher, x: HashState, a: Content, b: Content) {
    h.update(h.update(x, a), b) == h.update(x, a + b)
  }

  predicate Starts(h: Hasher, x: HashState) {
    h.update(x, []) == x
  }

  /** Hashing pieces one after the other is hashing them joined. */
  ghost predicate Incremental(h: Hasher) {
    (forall x, a, b :: Joins(h, x, a, b)) && (forall x :: Starts(h, x))
  }

  function HashOf(h: Hasher, content: Content): string {
    h.hex(h.update(h.initial, content))
  }

  function Concat(chunks: seq<Content>): Content
    decreases |chunks|
  {
    if chunks == [] then [] else Concat(chunks[..|chunks| - 1]) + chunks[|chunks| - 1]
  }

  // ---------------------------------------------------------------------------------------
  // One pull, one commit

  datatype Failure = BadStatus(code: int) | Broken | Mismatch

  /** What the registry sends: a status, and chunks until the end or until the connection breaks. */
  datatype Reply = Reply(code: int, chunks: seq<Content>, breaks: bool)

  function Expected(h: Hasher, stored: bool, d: Digest, reply: Reply): Result<(), Failure> {
    if stored then Ok(())
    else if reply.code != 200 then Err(BadStatus(reply.code))
    else if reply.breaks then Err(Broken)
    else if HashOf(h, Concat(reply.chunks)) != d.hex then Err(Mismatch)
    else Ok(())
  }

  class LayerDirectory {
    var files: map<Digest, Content>
    var partial: map<Digest, Content>

    constructor ()
      ensures files == map[] && partial == map[]
    {
      files, partial := map[], map[];
    }

    /** Receives the chunks into the temporary file, hashing them as they come. */
    method Receive(h: Hasher, d: Digest, chunks: seq<Content>) returns (hash: HashState)
      requires Incremental(h)
      modifies this`partial
      ensures partial == old(partial)[d := Concat(chunks)]
      ensures hash == h.update(h.initial, Concat(chunks))
    {
      assert Starts(h, h.initial);
      hash := h.initial;
      partial := partial[d := []];
      for k := 0 to |chunks|
        invariant partial == old(partial)[d := Concat(chunks[..k])]
        invariant hash == h.update(h.initial, Concat(chunks[..k]))
      {
        assert chunks[..k + 1][..k] == chunks[..k];
        assert Joins(h, h.initial, Concat(chunks[..k]), chunks[k]);
        hash := h.update(hash, chunks[k]);
        partial := partial[d := partial[d] + chunks[k]];
      }
      assert chunks[..|chunks|] == chunks;
    }

    method PullLayer(h: Hasher, d: Digest, reply: Reply) returns (r: Result<(), Failure>)
      requires Incremental(h)
      modifies this
      ensures r == Expected(h, d in old(files), d, reply)
      ensures files == if d !in old(files) && r.Ok? then old(files)[d := Concat(reply.chunks)] else old(files)
      ensures partial == if d in old(files) || reply.code != 200 then old(partial) else old(partial) - {d}
      ensures d !in old(files) && r.Ok? ==> d in files && Right(h, d, files[d])
      ensures r == Err(Mismatch) ==> !Right(h, d, Concat(reply.chunks))
      ensures r == Err(Broken) ==> reply.breaks
      ensures Verified(h, old(files)) ==> Verified(h, files)
    {
      if d in files {
        return Ok(());
      }
      if reply.code != 200 {
        return Err(BadStatus(reply.code));
      }
      var hash := Receive(h, d, reply.chunks);
      if reply.breaks {
        partial := partial - {d};
        return Err(Broken);
      }
      if h.hex(hash) != d.hex {
        partial := partial - {d};
        return Err(Mismatch);
      }
      files, partial := files[d := partial[d]], partial - {d};
      return Ok(());
    }

    /** Copies layer files into the directory and returns their descriptors, as `commit_image` does. The copy
    of file number `stops.value.0` raises after that many bytes, if it is reached: `None`. */
    method StoreAll(h: Hasher, tars: seq<Content>, stops: Option<(nat, nat)>) returns (digests: Option<seq<Digest>>)
      modifies this`files
      ensures digests.Some? <==> !StopsCopy(h, old(files), tars, stops)
      ensures digests.Some? ==>
                && digests.value == seq(|tars|, k requires 0 <= k < |tars| => DigestOf(h, tars[k]))
                && files == Stored(h, old(files), tars)
      ensures digests.None? ==>
                var k := stops.value.0;
                files == Stored(h, old(files), tars[..k])[DigestOf(h, tars[k]) := Prefix(tars[k], stops.value.1)]
    {
      var found: seq<Digest> := [];
      for k := 0 to |tars|
        invariant found == seq(k, j requires 0 <= j < k => DigestOf(h, tars[j]))
        invariant files == Stored(h, old(files), tars[..k])
        invariant stops.Some? && stops.value.0 < k ==>
                    DigestOf(h, tars[stops.value.0]) in Stored(h, old(files), tars[..stops.value.0])
      {
        assert tars[..k + 1][..k] == tars[..k];
        var d := DigestOf(h, tars[k]);
        if d !in files {
          if stops.Some? && stops.value.0 == k {
            files := files[d := Prefix(tars[k], stops.value.1)];
            return None;
          }
          files := files[d := tars[k]];
        }
        found := found + [d];
      }
      assert tars[..|tars|] == tars;
      return Some(found);
    }
  }

  function Prefix(content: Content, n: nat): (p: Content)
    ensures p <= content && |p| == if n <= |content| then n else |content|
  {
    if n <= |content| then content[..n] else content
  }

  /** The copy that would stop is made: its file exists and is not stored yet. */
  predicate StopsCopy(h: Hasher, files: map<Digest, Content>, tars: seq<Content>, stops: Option<(nat, nat)>) {
    stops.Some? && stops.value.0 < |tars|
    && DigestOf(h, tars[stops.value.0]) !in Stored(h, files, tars[..stops.value.0])
  }

  function DigestOf(h: Hasher, content: Content): Digest {
    Digest("sha256", HashOf(h, content))
  }

  /** A committed layer's file is named after its SHA-256 digest. */
  lemma CommittedName(h: Hasher, content: Content)
    ensures FileName(DigestOf(h, content)) == "sha256_" + LayerStores.DirectoryOf(HashOf(h, content))
  {
    LayerStores.DirectoriesShared(HashOf(h, content), "");
    assert "sha256" + ":" == "sha256:";
  }

  function Stored(h: Hasher, files: map<Digest, Content>, tars: seq<Content>): map<Digest, Content>
    decreases |tars|
  {
    if tars == [] then files else
      var before := Stored(h, files, tars[..|tars| - 1]);
      var last := tars[|tars| - 1];
      if DigestOf(h, last) in before then before else before[DigestOf(h, last) := last]
  }

  ghost predicate Verified(h: Hasher, files: map<Digest, Content>) {
    forall d :: d in files ==> HashOf(h, files[d]) == d.hex
  }

  /** After a commit every layer of the image is in the store, every file still hashes to its name, what was
  stored before is untouched, and what is new is a layer of the image under its digest. */
  lemma {:induction false} CommitStores(h: Hasher, files: map<Digest, Content>, tars: seq<Content>)
    requires Verified(h, files)
    ensures Verified(h, Stored(h, files, tars))
    ensures forall d :: d in files ==> d in Stored(h, files, tars) && Stored(h, files, tars)[d] == files[d]
    ensures forall k :: 0 <= k < |tars| ==> DigestOf(h, tars[k]) in Stored(h, files, tars)
    ensures forall d :: d in Stored(h, files, tars) && d !in files ==>
              Stored(h, files, tars)[d] in tars && d == DigestOf(h, Stored(h, files, tars)[d])
    decreases |tars|
  {
    if tars != [] {
      var init := tars[..|tars| - 1];
      CommitStores(h, files, init);
      forall k | 0 <= k < |tars| ensures DigestOf(h, tars[k]) in Stored(h, files, tars) {
        if k < |init| { assert tars[k] == init[k]; }
      }
    }
  }

  /** Exactly the digests of the layers come in. */
  lemma {:induction false} StoredKeys(h: Hasher, files: map<Digest, Content>, tars: seq<Content>, d: Digest)
    ensures d in Stored(h, files, tars) <==> d in files || exists k :: 0 <= k < |tars| && DigestOf(h, tars[k]) == d
    decreases |tars|
  {
    if tars != [] {
      var init := tars[..|tars| - 1];
      StoredKeys(h, files, init, d);
      assert forall k :: 0 <= k < |init| ==> init[k] == tars[k];
    }
  }

  /** The copy of layer number k is made, and can stop, exactly when neither the store nor an earlier layer of
  the image has its digest. */
  lemma StopsExactly(h: Hasher, files: map<Digest, Content>, tars: seq<Content>, k: nat, n: nat)
    ensures StopsCopy(h, files, tars, Some((k, n))) <==>
              && k < |tars| && DigestOf(h, tars[k]) !in files
              && forall j :: 0 <= j < k ==> DigestOf(h, tars[j]) != DigestOf(h, tars[k])
    ensures !StopsCopy(h, files, tars, None)
  {
    if k < |tars| {
      StoredKeys(h, files, tars[..k], DigestOf(h, tars[k]));
      assert forall j :: 0 <= j < k ==> tars[..k][j] == tars[j];
    }
  }

  // ---------------------------------------------------------------------------------------
  // Concurrent pulls and commits

  /** Where a pull is: nothing done, request sent, receiving with the hash so far, digest found right, over. */
  datatype Stage = Begun | Requested | Receiving(hash: HashState) | Checked | Over

  datatype Pull = Pull(digest: Digest, stage: Stage)

  /** Where the storing of one layer is: digest computed, no file found, copying, over. A copy writes to the
  file it has opened; `linked` says that this is still the file under the digest's name. */
  datatype CopyStage = Hashed | Absent | Copying(linked: bool) | Finished

  datatype Copy = Copy(content: Content, stage: CopyStage)

  /** A pull that returned, and the content of the file it returned. */
  datatype Returned = Returned(digest: Digest, content: Content)

  datatype State = State(files: map<Digest, Content>, partial: map<Digest, Content>, pulls: seq<Pull>,
                         copies: seq<Copy>, returned: seq<Returned>)

  /** `sharing`: two pulls of one digest may overlap; `cutCommits`: a commit may die while it copies;
  `meeting`: a pull may look for a file while a commit is copying it. */
  datatype Conditions = Conditions(sharing: bool, cutCommits: bool, meeting: bool)

  /** `Break` is an error the pull catches; `Die` a crash or a cancellation, after which `kept` bytes of the
  temporary file are on disk. Events of copies: the file is looked for, opened, partly written, finished, or
  left as it is. */
  datatype Event =
    | Begin(d: Digest)
    | Check(k: nat)
    | Answer(k: nat, code: int)
    | Chunk(k: nat, chunk: Content)
    | Break(k: nat)
    | Die(k: nat, kept: nat)
    | End(k: nat)
    | Rename(k: nat)
    | Commit(content: Content)
    | Look(k: nat)
    | Open(k: nat)
    | Write(k: nat, now: Content)
    | Close(k: nat)
    | CutCommit(k: nat)

  const EMPTY := State(map[], map[], [], [], [])

  predicate Active(p: Pull, d: Digest) {
    p.digest == d && p.stage != Over
  }

  /** The copy is writing the file under the name of `d`. */
  predicate Writes(h: Hasher, c: Copy, d: Digest) {
    c.stage == Copying(true) && DigestOf(h, c.content) == d
  }

  /** Some commit is copying the file under the name of `d`. */
  predicate InProgress(h: Hasher, s: State, d: Digest) {
    exists k :: 0 <= k < |s.copies| && Writes(h, s.copies[k], d)
  }

  predicate AnotherWrites(h: Hasher, s: State, k: nat, d: Digest) {
    exists j :: 0 <= j < |s.copies| && j != k && Writes(h, s.copies[j], d)
  }

  function To(s: State, k: nat, stage: Stage): State
    requires k < |s.pulls|
  {
    s.(pulls := s.pulls[k := Pull(s.pulls[k].digest, stage)])
  }

  /** Renaming a file onto the name of `d` leaves running copies with a file that has no name. */
  function Unlinked(h: Hasher, copies: seq<Copy>, d: Digest): (r: seq<Copy>)
    ensures |r| == |copies|
  {
    seq(|copies|, k requires 0 <= k < |copies| =>
      if Writes(h, copies[k], d) then copies[k].(stage := Copying(false)) else copies[k])
  }

  function PullStep(h: Hasher, c: Conditions, s: State, e: Event, k: nat): State
    requires k < |s.pulls|
  {
    var d := s.pulls[k].digest;
    match s.pulls[k].stage
    case Begun =>
      if e.Check? then
        if d !in s.files then To(s, k, Requested)
        else if c.meeting || !InProgress(h, s, d) then
          To(s, k, Over).(returned := s.returned + [Returned(d, s.files[d])])
        else s
      else if e.Die? then To(s, k, Over) else s
    case Requested =>
      if e.Answer? then
        if e.code != 200 then To(s, k, Over)
        else To(s, k, Receiving(h.initial)).(partial := s.partial[d := []])
      else if e.Break? || e.Die? then To(s, k, Over) else s
    case Receiving(hash) =>
      if d !in s.partial then To(s, k, Over)
      else if e.Chunk? then
        To(s, k, Receiving(h.update(hash, e.chunk))).(partial := s.partial[d := s.partial[d] + e.chunk])
      else if e.Break? then To(s, k, Over).(partial := s.partial - {d})
      else if e.Die? then To(s, k, Over).(partial := s.partial[d := Prefix(s.partial[d], e.kept)])
      else if e.End? then
        if h.hex(hash) == d.hex then To(s, k, Checked) else To(s, k, Over).(partial := s.partial - {d})
      else s
    case Checked =>
      if d !in s.partial then To(s, k, Over)
      else if e.Rename? then
        To(s, k, Over).(files := s.files[d := s.partial[d]], partial := s.partial - {d},
                        copies := Unlinked(h, s.copies, d),
                        returned := s.returned + [Returned(d, s.partial[d])])
      else if e.Die? then To(s, k, Over) else s
    case Over => s
  }

  function CopyTo(s: State, k: nat, stage: CopyStage): State
    requires k < |s.copies|
  {
    s.(copies := s.copies[k := s.copies[k].(stage := stage)])
  }

  /** The copy goes straight to the final name: it empties the file there, or creates one, and fills it. While
  two commits fill one file it may hold anything until the last of them is finished. */
  function CopyStep(h: Hasher, c: Conditions, s: State, e: Event, k: nat): State
    requires k < |s.copies|
  {
    var content := s.copies[k].content;
    var d := DigestOf(h, content);
    match s.copies[k].stage
    case Hashed => if e.Look? then CopyTo(s, k, if d in s.files then Finished else Absent) else s
    case Absent => if e.Open? then CopyTo(s, k, Copying(true)).(files := s.files[d := []]) else s
    case Copying(linked) =>
      if e.Write? then
        if linked && (e.now <= content || AnotherWrites(h, s, k, d)) then s.(files := s.files[d := e.now]) else s
      else if e.Close? then
        if linked && !AnotherWrites(h, s, k, d) then CopyTo(s, k, Finished).(files := s.files[d := content])
        else CopyTo(s, k, Finished)
      else if e.CutCommit? && c.cutCommits then CopyTo(s, k, Finished) else s
    case Finished => s
  }

  function Step(h: Hasher, c: Conditions, s: State, e: Event): State {
    match e
    case Begin(d) =>
      if c.sharing || forall k :: 0 <= k < |s.pulls| ==> !Active(s.pulls[k], d)
      then s.(pulls := s.pulls + [Pull(d, Begun)]) else s
    case Commit(content) => s.(copies := s.copies + [Copy(content, Hashed)])
    case Check(k) => if k < |s.pulls| then PullStep(h, c, s, e, k) else s
    case Answer(k, _) => if k < |s.pulls| then PullStep(h, c, s, e, k) else s
    case Chunk(k, _) => if k < |s.pulls| then PullStep(h, c, s, e, k) else s
    case Break(k) => if k < |s.pulls| then PullStep(h, c, s, e, k) else s
    case Die(k, _) => if k < |s.pulls| then PullStep(h, c, s, e, k) else s
    case End(k) => if k < |s.pulls| then PullStep(h, c, s, e, k) else s
    case Rename(k) => if k < |s.pulls| then PullStep(h, c, s, e, k) else s
    case Look(k) => if k < |s.copies| then CopyStep(h, c, s, e, k) else s
    case Open(k) => if k < |s.copies| then CopyStep(h, c, s, e, k) else s
    case Write(k, _) => if k < |s.copies| then CopyStep(h, c, s, e, k) else s
    case Close(k) => if k < |s.copies| then CopyStep(h, c, s, e, k) else s
    case CutCommit(k) => if k < |s.copies| then CopyStep(h, c, s, e, k) else s
  }

  function After(h: Hasher, c: Conditions, events: seq<Event>): State
    decreases |events|
  {
    if events == [] then EMPTY else Step(h, c, After(h, c, events[..|events| - 1]), events[|events| - 1])
  }

  /** What a pull may rely on. */
  predicate Agrees(h: Hasher, s: State, p: Pull) {
    match p.stage
    case Receiving(hash) => p.digest in s.partial && hash == h.update(h.initial, s.partial[p.digest])
    case Checked => p.digest in s.partial && HashOf(h, s.partial[p.digest]) == p.digest.hex
    case Begun => true
    case Requested => true
    case Over => true
  }

  ghost predicate Apart(s: State) {
    forall i, j :: 0 <= i < j < |s.pulls| && s.pulls[i].stage != Over && s.pulls[j].stage != Over
      ==> s.pulls[i].digest != s.pulls[j].digest
  }

  predicate Right(h: Hasher, d: Digest, content: Content) {
    HashOf(h, content) == d.hex
  }

  /** Every file that no commit is copying hashes to its name. */
  ghost predicate FinishedVerified(h: Hasher, s: State) {
    forall d :: d in s.files && !InProgress(h, s, d) ==> Right(h, d, s.files[d])
  }

  ghost predicate ReturnedVerified(h: Hasher, s: State) {
    forall r :: r in s.returned ==> Right(h, r.digest, r.content)
  }

  ghost predicate Sound(h: Hasher, s: State) {
    && FinishedVerified(h, s)
    && Apart(s)
    && forall k :: 0 <= k < |s.pulls| ==> Agrees(h, s, s.pulls[k])
  }

  /** Pulls of one digest do not overlap and no commit dies in a copy. */
  predicate Careful(c: Conditions) {
    !c.sharing && !c.cutCommits
  }

  lemma RenameVerified(h: Hasher, s: State, d: Digest, content: Content)
    requires FinishedVerified(h, s) && Right(h, d, content)
    ensures FinishedVerified(h, s.(files := s.files[d := content], copies := Unlinked(h, s.copies, d)))
  {
    var t := s.(files := s.files[d := content], copies := Unlinked(h, s.copies, d));
    forall x | x in t.files ensures InProgress(h, t, x) || Right(h, x, t.files[x]) {
      if x != d && InProgress(h, s, x) {
        var k :| 0 <= k < |s.copies| && Writes(h, s.copies[k], x);
        assert Writes(h, t.copies[k], x);
      }
    }
  }

  lemma PullStepAgrees(h: Hasher, c: Conditions, s: State, e: Event, k: nat)
    requires Incremental(h) && Sound(h, s) && k < |s.pulls|
    ensures var t := PullStep(h, c, s, e, k); forall j :: 0 <= j < |t.pulls| ==> Agrees(h, t, t.pulls[j])
  {
    var t := PullStep(h, c, s, e, k);
    assert Agrees(h, s, s.pulls[k]);
    assert Starts(h, h.initial);
    if e.Chunk? && s.pulls[k].digest in s.partial {
      assert Joins(h, h.initial, s.partial[s.pulls[k].digest], e.chunk);
    }
    forall j | 0 <= j < |t.pulls| ensures Agrees(h, t, t.pulls[j]) {
      assert Agrees(h, s, s.pulls[j]);
      if j < k && s.pulls[j].stage != Over && s.pulls[k].stage != Over {
        assert s.pulls[j].digest != s.pulls[k].digest;
      }
      if k < j && s.pulls[j].stage != Over && s.pulls[k].stage != Over {
        assert s.pulls[k].digest != s.pulls[j].digest;
      }
    }
  }

  lemma PullStepSound(h: Hasher, c: Conditions, s: State, e: Event, k: nat)
    requires Incremental(h) && Sound(h, s) && k < |s.pulls|
    ensures Sound(h, PullStep(h, c, s, e, k))
    ensures !c.meeting && ReturnedVerified(h, s) ==> ReturnedVerified(h, PullStep(h, c, s, e, k))
  {
    var t, d := PullStep(h, c, s, e, k), s.pulls[k].digest;
    PullStepAgrees(h, c, s, e, k);
    assert Agrees(h, s, s.pulls[k]);
    if s.pulls[k].stage == Checked && d in s.partial && e.Rename? {
      RenameVerified(h, s, d, s.partial[d]);
      assert forall x :: InProgress(h, t, x) == InProgress(h, s.(files := t.files, copies := t.copies), x);
    } else {
      assert t.files == s.files && t.copies == s.copies;
      assert forall x :: InProgress(h, t, x) == InProgress(h, s, x);
    }
  }

  lemma CopyStepVerified(h: Hasher, c: Conditions, s: State, e: Event, k: nat)
    requires FinishedVerified(h, s) && k < |s.copies| && !c.cutCommits
    ensures FinishedVerified(h, CopyStep(h, c, s, e, k))
  {
    var t := CopyStep(h, c, s, e, k);
    var d := DigestOf(h, s.copies[k].content);
    forall x | x in t.files ensures InProgress(h, t, x) || Right(h, x, t.files[x]) {
      if InProgress(h, s, x) {
        var j :| 0 <= j < |s.copies| && Writes(h, s.copies[j], x);
        if j != k {
          assert Writes(h, t.copies[j], x);
        } else if AnotherWrites(h, s, k, d) {
          var i :| 0 <= i < |s.copies| && i != k && Writes(h, s.copies[i], d);
          assert Writes(h, t.copies[i], x);
        } else if t.copies[k] == s.copies[k] {
          assert Writes(h, t.copies[k], x);
        }
      } else if x == d && t.copies[k].stage == Copying(true) {
        assert Writes(h, t.copies[k], x);
      }
    }
  }

  lemma CopyStepSound(h: Hasher, c: Conditions, s: State, e: Event, k: nat)
    requires Sound(h, s) && k < |s.copies| && !c.cutCommits
    ensures Sound(h, CopyStep(h, c, s, e, k)) && CopyStep(h, c, s, e, k).returned == s.returned
  {
    var t := CopyStep(h, c, s, e, k);
    CopyStepVerified(h, c, s, e, k);
    forall j | 0 <= j < |t.pulls| ensures Agrees(h, t, t.pulls[j]) { assert Agrees(h, s, s.pulls[j]); }
  }

  lemma BeginSound(h: Hasher, c: Conditions, s: State, d: Digest)
    requires Sound(h, s) && !c.sharing
    ensures Sound(h, Step(h, c, s, Begin(d)))
  {
    var t := Step(h, c, s, Begin(d));
    assert forall x :: InProgress(h, t, x) == InProgress(h, s, x);
    forall j | 0 <= j < |t.pulls| ensures Agrees(h, t, t.pulls[j]) {
      if j < |s.pulls| { assert Agrees(h, s, s.pulls[j]); }
    }
    assert forall k :: 0 <= k < |s.pulls| && !Active(s.pulls[k], d)
                       ==> s.pulls[k].stage == Over || s.pulls[k].digest != d;
  }

  lemma CommitSound(h: Hasher, c: Conditions, s: State, content: Content)
    requires Sound(h, s)
    ensures Sound(h, Step(h, c, s, Commit(content)))
  {
    var t := Step(h, c, s, Commit(content));
    forall x | InProgress(h, s, x) ensures InProgress(h, t, x) {
      var k :| 0 <= k < |s.copies| && Writes(h, s.copies[k], x);
      assert Writes(h, t.copies[k], x);
    }
    forall j | 0 <= j < |t.pulls| ensures Agrees(h, t, t.pulls[j]) { assert Agrees(h, s, s.pulls[j]); }
  }

  lemma CopyEventSound(h: Hasher, c: Conditions, s: State, e: Event)
    requires Careful(c) && Sound(h, s)
    requires e.Look? || e.Open? || e.Write? || e.Close? || e.CutCommit?
    ensures Sound(h, Step(h, c, s, e)) && Step(h, c, s, e).returned == s.returned
  {
    match e
    case Look(k) => if k < |s.copies| { CopyStepSound(h, c, s, e, k); }
    case Open(k) => if k < |s.copies| { CopyStepSound(h, c, s, e, k); }
    case Write(k, _) => if k < |s.copies| { CopyStepSound(h, c, s, e, k); }
    case Close(k) => if k < |s.copies| { CopyStepSound(h, c, s, e, k); }
    case CutCommit(k) => if k < |s.copies| { CopyStepSound(h, c, s, e, k); }
  }

  lemma StepSound(h: Hasher, c: Conditions, s: State, e: Event)
    requires Incremental(h) && Careful(c) && Sound(h, s)
    ensures Sound(h, Step(h, c, s, e))
    ensures !c.meeting && ReturnedVerified(h, s) ==> ReturnedVerified(h, Step(h, c, s, e))
  {
    match e
    case Begin(d) => BeginSound(h, c, s, d);
    case Commit(content) => CommitSound(h, c, s, content);
    case Check(k) => if k < |s.pulls| { PullStepSound(h, c, s, e, k); }
    case Answer(k, _) => if k < |s.pulls| { PullStepSound(h, c, s, e, k); }
    case Chunk(k, _) => if k < |s.pulls| { PullStepSound(h, c, s, e, k); }
    case Break(k) => if k < |s.pulls| { PullStepSound(h, c, s, e, k); }
    case Die(k, _) => if k < |s.pulls| { PullStepSound(h, c, s, e, k); }
    case End(k) => if k < |s.pulls| { PullStepSound(h, c, s, e, k); }
    case Rename(k) => if k < |s.pulls| { PullStepSound(h, c, s, e, k); }
    case _ => CopyEventSound(h, c, s, e);
  }

  lemma {:induction false} RunSound(h: Hasher, c: Conditions, events: seq<Event>)
    requires Incremental(h) && Careful(c)
    ensures Sound(h, After(h, c, events))
    ensures !c.meeting ==> ReturnedVerified(h, After(h, c, events))
    decreases |events|
  {
    if events != [] {
      RunSound(h, c, events[..|events| - 1]);
      StepSound(h, c, After(h, c, events[..|events| - 1]), events[|events| - 1]);
    }
  }

  // ---------------------------------------------------------------------------------------
  // Exactly when files are verified

  /** At every point of every run a file that no commit is copying hashes to its name. */
  ghost predicate AlwaysVerified(h: Hasher, c: Conditions) {
    forall events :: FinishedVerified(h, After(h, c, events))
  }

  /** Every pull of every run that returns returns a file that hashes to the digest asked for. */
  ghost predicate AlwaysReturnsVerified(h: Hasher, c: Conditions) {
    forall events :: ReturnedVerified(h, After(h, c, events))
  }

  /** A commit that dies right after it has opened the file leaves it empty under its final name. */
  function CutShort(content: Content): seq<Event> {
    [Commit(content), Look(0), Open(0), CutCommit(0)]
  }

  lemma Opened(h: Hasher, c: Conditions, content: Content)
    ensures After(h, c, CutShort(content)[..3])
            == State(map[DigestOf(h, content) := []], map[], [], [Copy(content, Copying(true))], [])
  {
    var e := CutShort(content);
    assert e[..3][..2] == e[..2] && e[..2][..1] == e[..1] && e[..1][..0] == [];
    assert After(h, c, e[..1]) == EMPTY.(copies := [Copy(content, Hashed)]);
    assert After(h, c, e[..2]) == EMPTY.(copies := [Copy(content, Absent)]);
  }

  lemma CutCommitBreaks(h: Hasher, c: Conditions, content: Content)
    requires c.cutCommits && HashOf(h, content) != HashOf(h, [])
    ensures After(h, c, CutShort(content)).files == map[DigestOf(h, content) := []]
    ensures !FinishedVerified(h, After(h, c, CutShort(content)))
  {
    var e, d := CutShort(content), DigestOf(h, content);
    Opened(h, c, content);
    assert e[..4] == e && e[..4][..3] == e[..3];
    var s := After(h, c, e);
    assert s.copies == [Copy(content, Finished)] && !InProgress(h, s, d);
    assert d in s.files && !Right(h, d, s.files[d]);
  }

  /** Both pulls use one temporary file: the second empties it after the first has checked it. */
  function Overlap(d: Digest, content: Content): seq<Event> {
    [Begin(d), Begin(d), Check(0), Check(1), Answer(0, 200), Chunk(0, content), End(0), Answer(1, 200), Rename(0)]
  }

  function Pulling(partial: map<Digest, Content>, pulls: seq<Pull>): State {
    EMPTY.(partial := partial, pulls := pulls)
  }

  lemma OverlapRequests(h: Hasher, c: Conditions, content: Content)
    requires c.sharing
    ensures var d := DigestOf(h, content);
            After(h, c, Overlap(d, content)[..4]) == Pulling(map[], [Pull(d, Requested), Pull(d, Requested)])
  {
    var d := DigestOf(h, content);
    var e := Overlap(d, content);
    assert e[..4][..3] == e[..3] && e[..3][..2] == e[..2] && e[..2][..1] == e[..1] && e[..1][..0] == [];
    assert After(h, c, e[..1]) == Pulling(map[], [Pull(d, Begun)]);
    assert After(h, c, e[..2]) == Pulling(map[], [Pull(d, Begun), Pull(d, Begun)]);
    assert After(h, c, e[..3]) == Pulling(map[], [Pull(d, Requested), Pull(d, Begun)]);
  }

  lemma OverlapChecks(h: Hasher, c: Conditions, content: Content)
    requires c.sharing
    ensures var d := DigestOf(h, content);
            After(h, c, Overlap(d, content)[..7]) == Pulling(map[d := content], [Pull(d, Checked), Pull(d, Requested)])
  {
    var d := DigestOf(h, content);
    var e := Overlap(d, content);
    OverlapRequests(h, c, content);
    assert e[..7][..6] == e[..6] && e[..6][..5] == e[..5] && e[..5][..4] == e[..4];
    assert After(h, c, e[..5]) == Pulling(map[d := []], [Pull(d, Receiving(h.initial)), Pull(d, Requested)]);
    var hash := h.update(h.initial, content);
    assert [] + content == content;
    assert After(h, c, e[..6]) == Pulling(map[d := content], [Pull(d, Receiving(hash)), Pull(d, Requested)]);
  }

  lemma OverlapBreaks(h: Hasher, c: Conditions, content: Content)
    requires c.sharing && HashOf(h, content) != HashOf(h, [])
    ensures var d := DigestOf(h, content);
            var s := After(h, c, Overlap(d, content));
            && s.files == map[d := []] && s.returned == [Returned(d, [])]
            && !FinishedVerified(h, s) && !ReturnedVerified(h, s)
  {
    var d := DigestOf(h, content);
    var e := Overlap(d, content);
    OverlapChecks(h, c, content);
    assert e[..9] == e && e[..9][..8] == e[..8] && e[..8][..7] == e[..7];
    assert After(h, c, e[..8]) == Pulling(map[d := []], [Pull(d, Checked), Pull(d, Receiving(h.initial))]);
    var s := After(h, c, e);
    assert s.files == map[d := []] && s.copies == [] && s.returned == [Returned(d, [])];
    assert d in s.files && !InProgress(h, s, d) && !Right(h, d, s.files[d]);
    assert s.returned[0] in s.returned;
  }

  /** A pull that comes while a commit is copying returns the part copied so far. */
  function Meeting(d: Digest, content: Content): seq<Event> {
    [Commit(content), Look(0), Open(0), Begin(d), Check(0)]
  }

  lemma MeetingReturnsPart(h: Hasher, c: Conditions, content: Content)
    requires c.meeting && HashOf(h, content) != HashOf(h, [])
    ensures var d := DigestOf(h, content); Returned(d, []) in After(h, c, Meeting(d, content)).returned
    ensures !ReturnedVerified(h, After(h, c, Meeting(DigestOf(h, content), content)))
  {
    var d := DigestOf(h, content);
    var e := Meeting(d, content);
    Opened(h, c, content);
    assert e[..3] == CutShort(content)[..3];
    assert e[..5] == e && e[..5][..4] == e[..4] && e[..4][..3] == e[..3];
    assert After(h, c, e[..4]).pulls == [Pull(d, Begun)] && After(h, c, e[..4]).files == map[d := []];
    assert After(h, c, e).returned == [Returned(d, [])];
    assert After(h, c, e).returned[0] == Returned(d, []);
  }

  /** After a commit died in its copy, every later pull of that digest returns what it left. */
  lemma CutCommitReturned(h: Hasher, c: Conditions, content: Content)
    requires c.cutCommits && HashOf(h, content) != HashOf(h, [])
    ensures !ReturnedVerified(h, After(h, c, CutShort(content) + [Begin(DigestOf(h, content)), Check(0)]))
  {
    var d := DigestOf(h, content);
    var e := CutShort(content) + [Begin(d), Check(0)];
    CutCommitBreaks(h, c, content);
    Opened(h, c, content);
    assert e[..6] == e && e[..6][..5] == e[..5] && e[..5][..4] == e[..4] && e[..4] == CutShort(content);
    var s := After(h, c, CutShort(content));
    assert CutShort(content)[..4] == CutShort(content) && CutShort(content)[..4][..3] == CutShort(content)[..3];
    assert s == EMPTY.(files := map[d := []], copies := [Copy(content, Finished)]);
    var t := After(h, c, e[..5]);
    assert t == s.(pulls := [Pull(d, Begun)]);
    assert !InProgress(h, t, d);
    assert After(h, c, e).returned == [Returned(d, [])];
    assert After(h, c, e).returned[0] == Returned(d, []);
  }

  lemma NotAlwaysVerified(h: Hasher, c: Conditions, events: seq<Event>)
    ensures !FinishedVerified(h, After(h, c, events)) ==> !AlwaysVerified(h, c)
    ensures !ReturnedVerified(h, After(h, c, events)) ==> !AlwaysReturnsVerified(h, c)
  {
  }

  lemma CarefulIsVerified(h: Hasher, c: Conditions)
    requires Incremental(h) && Careful(c)
    ensures AlwaysVerified(h, c) && (!c.meeting ==> AlwaysReturnsVerified(h, c))
  {
    forall events
      ensures FinishedVerified(h, After(h, c, events)) && (!c.meeting ==> ReturnedVerified(h, After(h, c, events)))
    {
      RunSound(h, c, events);
    }
  }

  /** For any number of pulls and commits, any chunking, mismatches, errors and crashes of pulls: every file
  that no commit is copying hashes to its name, at every point of every run, exactly when pulls that overlap
  have different digests and no commit dies while it copies. And every pull that returns gives a file that
  hashes to its digest exactly when, besides, no pull looks for a file while a commit is copying it.
  `content` is any content told apart from the empty one. */
  lemma VerifiedExactly(h: Hasher, c: Conditions, content: Content)
    requires Incremental(h) && HashOf(h, content) != HashOf(h, [])
    ensures AlwaysVerified(h, c) <==> !c.sharing && !c.cutCommits
    ensures AlwaysReturnsVerified(h, c) <==> !c.sharing && !c.cutCommits && !c.meeting
  {
    var d := DigestOf(h, content);
    if c.cutCommits {
      CutCommitBreaks(h, c, content);
      CutCommitReturned(h, c, content);
      NotAlwaysVerified(h, c, CutShort(content));
      NotAlwaysVerified(h, c, CutShort(content) + [Begin(d), Check(0)]);
    } else if c.sharing {
      OverlapBreaks(h, c, content);
      NotAlwaysVerified(h, c, Overlap(d, content));
    } else {
      CarefulIsVerified(h, c);
      if c.meeting {
        MeetingReturnsPart(h, c, content);
        NotAlwaysVerified(h, c, Meeting(d, content));
      }
    }
  }

  // ---------------------------------------------------------------------------------------
  // Undisturbed calls are the sequential ones

  function RunFrom(h: Hasher, c: Conditions, s: State, events: seq<Event>): State
    decreases |events|
  {
    if events == [] then s else Step(h, c, RunFrom(h, c, s, events[..|events| - 1]), events[|events| - 1])
  }

  lemma RunOneMore(h: Hasher, c: Conditions, s: State, events: seq<Event>, e: Event)
    ensures RunFrom(h, c, s, events + [e]) == Step(h, c, RunFrom(h, c, s, events), e)
  {
    assert (events + [e])[..|events|] == events;
  }

  lemma {:induction false} RunFromStart(h: Hasher, c: Conditions, events: seq<Event>)
    ensures RunFrom(h, c, EMPTY, events) == After(h, c, events)
    decreases |events|
  {
    if events != [] {
      RunFromStart(h, c, events[..|events| - 1]);
    }
  }

  function ChunkEvents(k: nat, chunks: seq<Content>): seq<Event> {
    seq(|chunks|, i requires 0 <= i < |chunks| => Chunk(k, chunks[i]))
  }

  /** The events of one pull: a file found, or a request with its reply. */
  function PullEvents(k: nat, stored: bool, d: Digest, reply: Reply): seq<Event> {
    if stored then [Begin(d), Check(k)]
    else if reply.code != 200 then [Begin(d), Check(k), Answer(k, reply.code)]
    else [Begin(d), Check(k), Answer(k, 200)] + ChunkEvents(k, reply.chunks)
         + if reply.breaks then [Break(k)] else [End(k), Rename(k)]
  }

  lemma ThreeEvents(h: Hasher, c: Conditions, s: State, e: Event, f: Event, g: Event)
    ensures RunFrom(h, c, s, [e, f]) == Step(h, c, Step(h, c, s, e), f)
    ensures RunFrom(h, c, s, [e, f, g]) == Step(h, c, Step(h, c, Step(h, c, s, e), f), g)
  {
    assert [e, f] == [e] + [f] && [e, f, g] == [e, f] + [g];
    RunOneMore(h, c, s, [], e);
    assert [] + [e] == [e];
    RunOneMore(h, c, s, [e], f);
    RunOneMore(h, c, s, [e, f], g);
  }

  /** A pull that is between its first chunk and its last. */
  function Received(s: State, d: Digest, hash: HashState, content: Content): State {
    s.(pulls := s.pulls + [Pull(d, Receiving(hash))], partial := s.partial[d := content])
  }

  lemma RequestAlone(h: Hasher, c: Conditions, s: State, d: Digest)
    requires d !in s.files && (c.sharing || forall k :: 0 <= k < |s.pulls| ==> !Active(s.pulls[k], d))
    ensures var k := |s.pulls|;
            RunFrom(h, c, s, [Begin(d), Check(k), Answer(k, 200)]) == Received(s, d, h.initial, [])
  {
    var k := |s.pulls|;
    ThreeEvents(h, c, s, Begin(d), Check(k), Answer(k, 200));
    var begun, asked := s.(pulls := s.pulls + [Pull(d, Begun)]), s.(pulls := s.pulls + [Pull(d, Requested)]);
    assert Step(h, c, s, Begin(d)) == begun;
    assert begun.pulls[k := Pull(d, Requested)] == asked.pulls;
    assert Step(h, c, begun, Check(k)) == asked;
    assert asked.pulls[k := Pull(d, Receiving(h.initial))] == s.pulls + [Pull(d, Receiving(h.initial))];
  }

  lemma ChunkAlone(h: Hasher, c: Conditions, s: State, d: Digest, hash: HashState, content: Content, chunk: Content)
    ensures Step(h, c, Received(s, d, hash, content), Chunk(|s.pulls|, chunk))
            == Received(s, d, h.update(hash, chunk), content + chunk)
  {
    var k, t := |s.pulls|, Received(s, d, hash, content);
    var next := Pull(d, Receiving(h.update(hash, chunk)));
    assert t.pulls[k := next] == s.pulls + [next];
    assert t.partial[d := content + chunk] == s.partial[d := content + chunk];
  }

  lemma {:induction false} ChunksAlone(h: Hasher, c: Conditions, s: State, d: Digest, chunks: seq<Content>)
    requires Incremental(h) && d !in s.files
    requires c.sharing || forall k :: 0 <= k < |s.pulls| ==> !Active(s.pulls[k], d)
    ensures var k := |s.pulls|;
            RunFrom(h, c, s, [Begin(d), Check(k), Answer(k, 200)] + ChunkEvents(k, chunks))
            == Received(s, d, h.update(h.initial, Concat(chunks)), Concat(chunks))
    decreases |chunks|
  {
    var k := |s.pulls|;
    var head := [Begin(d), Check(k), Answer(k, 200)];
    if chunks == [] {
      RequestAlone(h, c, s, d);
      assert head + ChunkEvents(k, []) == head;
      assert Starts(h, h.initial);
    } else {
      var init, last := chunks[..|chunks| - 1], chunks[|chunks| - 1];
      ChunksAlone(h, c, s, d, init);
      assert head + ChunkEvents(k, chunks) == (head + ChunkEvents(k, init)) + [Chunk(k, last)];
      RunOneMore(h, c, s, head + ChunkEvents(k, init), Chunk(k, last));
      assert Joins(h, h.initial, Concat(init), last);
      ChunkAlone(h, c, s, d, h.update(h.initial, Concat(init)), Concat(init), last);
    }
  }

  lemma NothingUnlinked(h: Hasher, s: State, d: Digest)
    requires !InProgress(h, s, d)
    ensures Unlinked(h, s.copies, d) == s.copies
  {
  }

  /** The end of a pull whose reply was received: broken, wrong, or right. */
  lemma EndAlone(h: Hasher, c: Conditions, s: State, d: Digest, content: Content, breaks: bool)
    requires d !in s.files && !InProgress(h, s, d)
    ensures var k := |s.pulls|;
            var r := Received(s, d, h.update(h.initial, content), content);
            var t := if breaks then Step(h, c, r, Break(k)) else Step(h, c, Step(h, c, r, End(k)), Rename(k));
            var right := !breaks && HashOf(h, content) == d.hex;
            t == s.(pulls := s.pulls + [Pull(d, Over)], partial := s.partial - {d},
                    files := if right then s.files[d := content] else s.files,
                    returned := s.returned + if right then [Returned(d, content)] else [])
  {
    var k := |s.pulls|;
    var r := Received(s, d, h.update(h.initial, content), content);
    assert r.partial - {d} == s.partial - {d};
    assert s.returned + [] == s.returned;
    assert r.pulls[k := Pull(d, Over)] == s.pulls + [Pull(d, Over)];
    assert r.pulls[k := Pull(d, Checked)][k := Pull(d, Over)] == s.pulls + [Pull(d, Over)];
    NothingUnlinked(h, s, d);
    assert Unlinked(h, r.copies, d) == s.copies;
  }

  /** A pull that nobody disturbs has the answer and leaves the files of the sequential `PullLayer`, and
  returns the content of the file. */
  lemma PullAlone(h: Hasher, c: Conditions, s: State, d: Digest, reply: Reply)
    requires Incremental(h) && !InProgress(h, s, d)
    requires c.sharing || forall k :: 0 <= k < |s.pulls| ==> !Active(s.pulls[k], d)
    ensures var t := RunFrom(h, c, s, PullEvents(|s.pulls|, d in s.files, d, reply));
            var r := Expected(h, d in s.files, d, reply);
            && t.files == (if d !in s.files && r.Ok? then s.files[d := Concat(reply.chunks)] else s.files)
            && t.partial == (if d in s.files || reply.code != 200 then s.partial else s.partial - {d})
            && t.returned == s.returned + (if r.Ok? then [Returned(d, t.files[d])] else [])
            && t.pulls == s.pulls + [Pull(d, Over)] && t.copies == s.copies
  {
    var k := |s.pulls|;
    ThreeEvents(h, c, s, Begin(d), Check(k), Answer(k, reply.code));
    var begun := Step(h, c, s, Begin(d));
    assert begun.pulls == s.pulls + [Pull(d, Begun)];
    if d in s.files || reply.code != 200 {
      assert begun.pulls[k := Pull(d, Over)] == s.pulls + [Pull(d, Over)];
      assert begun.pulls[k := Pull(d, Requested)][k := Pull(d, Over)] == s.pulls + [Pull(d, Over)];
    } else {
      var received := [Begin(d), Check(k), Answer(k, 200)] + ChunkEvents(k, reply.chunks);
      ChunksAlone(h, c, s, d, reply.chunks);
      EndAlone(h, c, s, d, Concat(reply.chunks), reply.breaks);
      if reply.breaks {
        RunOneMore(h, c, s, received, Break(k));
      } else {
        RunOneMore(h, c, s, received, End(k));
        RunOneMore(h, c, s, received + [End(k)], Rename(k));
        assert received + [End(k), Rename(k)] == received + [End(k)] + [Rename(k)];
      }
    }
  }

  /** The storing of one layer as far as its file is opened, or found. */
  lemma OpenAlone(h: Hasher, c: Conditions, s: State, content: Content)
    ensures var k, d := |s.copies|, DigestOf(h, content);
            RunFrom(h, c, s, [Commit(content), Look(k), Open(k)])
            == if d in s.files then s.(copies := s.copies + [Copy(content, Finished)])
               else s.(copies := s.copies + [Copy(content, Copying(true))], files := s.files[d := []])
  {
    var k, d := |s.copies|, DigestOf(h, content);
    ThreeEvents(h, c, s, Commit(content), Look(k), Open(k));
    var next := if d in s.files then Finished else Absent;
    var begun := s.(copies := s.copies + [Copy(content, Hashed)]);
    var looked := s.(copies := s.copies + [Copy(content, next)]);
    assert Step(h, c, s, Commit(content)) == begun;
    assert begun.copies[k := Copy(content, next)] == looked.copies;
    assert Step(h, c, begun, Look(k)) == looked;
    assert looked.copies[k := Copy(content, Copying(true))] == s.copies + [Copy(content, Copying(true))];
  }

  /** A storing that nobody disturbs leaves the files of the sequential commit. */
  lemma CommitAlone(h: Hasher, c: Conditions, s: State, content: Content)
    requires !InProgress(h, s, DigestOf(h, content))
    ensures var k := |s.copies|;
            RunFrom(h, c, s, [Commit(content), Look(k), Open(k)] + [Close(k)]).files == Stored(h, s.files, [content])
  {
    var k, d := |s.copies|, DigestOf(h, content);
    var begun := [Commit(content), Look(k), Open(k)];
    OpenAlone(h, c, s, content);
    RunOneMore(h, c, s, begun, Close(k));
    assert [content][..0] == [] && Stored(h, s.files, []) == s.files;
    var open := RunFrom(h, c, s, begun);
    assert forall j :: 0 <= j < |s.copies| ==> open.copies[j] == s.copies[j];
    assert !AnotherWrites(h, open, k, d);
    assert d !in s.files ==> open.files[d := content] == s.files[d := content];
  }

  lemma CopyingStops(h: Hasher, c: Conditions, s: State, content: Content, n: nat)
    requires c.cutCommits
    ensures var k, d := |s.copies|, DigestOf(h, content);
            var open := s.(copies := s.copies + [Copy(content, Copying(true))], files := s.files[d := []]);
            Step(h, c, Step(h, c, open, Write(k, Prefix(content, n))), CutCommit(k)).files
            == s.files[d := Prefix(content, n)]
  {
    var d := DigestOf(h, content);
    assert s.files[d := []][d := Prefix(content, n)] == s.files[d := Prefix(content, n)];
  }

  /** One that dies in its copy leaves the part copied, as the sequential commit does. */
  lemma CutCommitAlone(h: Hasher, c: Conditions, s: State, content: Content, n: nat)
    requires c.cutCommits && DigestOf(h, content) !in s.files
    ensures var k := |s.copies|;
            var events := [Commit(content), Look(k), Open(k)] + [Write(k, Prefix(content, n))] + [CutCommit(k)];
            RunFrom(h, c, s, events).files == s.files[DigestOf(h, content) := Prefix(content, n)]
  {
    var k, d := |s.copies|, DigestOf(h, content);
    var begun, write := [Commit(content), Look(k), Open(k)], Write(k, Prefix(content, n));
    OpenAlone(h, c, s, content);
    RunOneMore(h, c, s, begun, write);
    RunOneMore(h, c, s, begun + [write], CutCommit(k));
    CopyingStops(h, c, s, content, n);
  }

  lemma StepKeeps(h: Hasher, c: Conditions, s: State, e: Event, d: Digest)
    requires d in s.files
    ensures d in Step(h, c, s, e).files
  {
  }

  /** A digest once stored stays stored, under all conditions. */
  lemma {:induction false} StaysStored(h: Hasher, c: Conditions, events: seq<Event>, k: nat, d: Digest)
    requires k <= |events| && d in After(h, c, events[..k]).files
    ensures d in After(h, c, events).files
    decreases |events|
  {
    if k == |events| {
      assert events[..k] == events;
    } else {
      var past := events[..|events| - 1];
      assert past[..k] == events[..k];
      StaysStored(h, c, past, k, d);
      StepKeeps(h, c, After(h, c, past), events[|events| - 1], d);
    }
  }
}
