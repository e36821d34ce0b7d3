# PyBox: a verified model

Dafny 4.11 model of the state machines and algebras inside PyBox, a container runtime: how image layers are
extracted, merged and snapshotted; how builds are cached; how a container process is started and its record kept;
how addresses are handed out; and how references, messages, layer files and environments are encoded, stored and
merged. System calls, HTTP and the bytes of tar, msgpack and JSON are outside: what they do, and where they fail, are
parameters of the operations. Failures that are not modelled are listed under "Left out".

`dafny verify dfyconfig.toml` checks everything. Code that works by changing things is a method of a class, or a
loop, proved against a specification function; the theorems are lemmas about those functions, over all inputs, all
runs or all reachable states. Where a property holds only under a condition, it is stated as an equivalence with that
condition, and the failing side names a concrete run or input.

| file | what it models |
|---|---|
| `filetree.dfy`, `sequences.dfy`, `strings.dfy`, `outcomes.dfy` | directory trees as maps from paths, sequences without repetitions, splitting strings, results |
| `layer.dfy`, `layer_directory.dfy` | extraction of one layer with whiteouts and opaque whiteouts |
| `restart.dfy`, `layer_store.dfy` | interrupted and repeated extraction, the `.extracted` sentinel, the branches of a pull |
| `snapshot.dfy`, `snapshot_roundtrip.dfy` | the walk over an overlay upper directory, and extraction of its result against the overlay view |
| `overlay.dfy`, `flatten.dfy` | the two mount drivers, and separate layer directories against one |
| `build_spec.dfy`, `layer_cache.dfy`, `builder.dfy`, `invalidation.dfy`, `uncached.dfy` | chained cache keys, the cache, the build loop, what a second build executes, builds without cache |
| `handshake.dfy` | the two-pipe start handshake of parent and child, all interleavings |
| `lifecycle.dfy` | the persisted container records |
| `ipam.dfy`, `ipam_lock.dfy`, `network.dfy`, `network_race.dfy` | address pools, processes sharing one lock file, endpoints, interleaved setups and teardowns |
| `image_ref.dfy`, `blob_store.dfy`, `env_merge.dfy` | image references, verified downloads and commits, merged environments |
| `framing.dfy`, `rpc.dfy` | length-prefixed messages, requests and responses |

Conditions the theorems carry, each with a lemma or an equivalence showing that it is needed:

- A snapshot loses a file that lies directly in an opaque directory, because the marker is written after the
  directory's own files; it loses a directory with no file below it, because no member is written for directories.
- A member that the file system refuses (a full disk, a quota, missing permission) is logged and passed over, and its
  layer is marked as extracted all the same: a sentinel implies a complete tree only while nothing is refused.
- A whiteout never reaches a lower layer when every layer is extracted into its own directory; and a layer that turns
  a file into a directory cannot be merged by copying.
- An extraction that was interrupted may never complete again when an opaque marker names a file of the same layer.
  That no marker does is sufficient; it is exact for layers that do not delete the directories their markers name.
- Cached builds are those of executing every step only while no put stops within its copy, a base reference names the
  same layers in all builds, the build context does not change, and commands and installations give the same results
  each time: keys hold the base reference, the paths of a copy and the text of a command, not what these stand for.
  The python key holds neither the path of the environment nor the order of packages; a base reference must not
  itself be a digest.
- The handshake keeps its order only while the parent does not crash, and ends only while a parent that raises does
  not live on with its pipe open.
- `stop`, and with it a forced removal, leaves a running container RUNNING not only when its process may not be
  signalled, but also when its record cannot be read or rewritten, though the process is gone.
- Addresses stay distinct only while no read of the address file fails, no save of it raises half-way, and callers
  release what they hold; endpoints only while, besides, no teardown ends between releasing the address and deleting
  the endpoint, and no two setups or teardowns work on one container at a time.
- Responses are paired with requests only while no waiting call is cancelled, because the client does not look at ids.
- Layer files hash to their names only while overlapping pulls have different digests and no commit dies in a copy; a
  pull returns such a file only while it does not meet a commit that is copying it. Digests whose names differ in
  colons against underscores share a file.

Where code and its own comments differ, the model follows the code: `pybox/storage/overlay.py` describes the rightmost
entry of `lowerdir` as the topmost (lines 13 and 81), but reverses the list (line 84), which is the order the kernel's
overlayfs documentation asks for in "Multiple lower layers", leftmost on top; `pybox/network/ipam.py` speaks of 5
attempts at the lock (line 127) and makes 50 (line 129); `pybox/image/layer.py` expects an opaque whiteout to be
followed by what repopulates the directory (lines 119-120), while `pybox/storage/snapshot.py` writes it after the
directory's own files (lines 95-114).

Whiteouts are those of the OCI Image Format Specification, layer.md, sections "Whiteouts" and "Opaque Whiteout";
blocks of addresses those of RFC 4632, section 3.1.

## Model

| member | source | states |
|---|---|---|
| `LayerDirectories.Destination.ExtractWithWhiteouts` | pybox/image/layer.py:109-128 | the loop over the members does what `ExtractUnder` says for any errors from outside: those of a member are passed over with whatever they leave, those of a whiteout end the extraction |
| `LayerDirectories.Destination.ApplyOpaqueWhiteout` | pybox/image/layer.py:131-151 | deleting child by child empties a directory and keeps it; a missing directory is left alone; a file raises and changes nothing; an error from outside raises and may leave part of the children |
| `LayerDirectories.Destination.ApplyWhiteout` | pybox/image/layer.py:154-170 | deletes a file, or a directory with all it holds, and nothing else; an error from outside raises and may leave part of it |
| `LayerDirectories.Destination.SafeExtractMember` | pybox/image/layer.py:173-199 | creates the member and the directories leading to it; where something of another kind is in the way, changes nothing; an error from outside is passed over and may leave part of the member |
| `Snapshots.DecodeEntry` | pybox/image/layer.py:115-128 | how plain names, whiteouts and opaque whiteouts are told apart |
| `LayerExtraction.ExtractWellFormed` | pybox/image/layer.py:109-128 | after any members every entry lies in existing directories |
| `LayerExtraction.ExtractConcat` | pybox/image/layer.py:109-128 | extracting two member lists one after the other is extracting their concatenation, up to the first failure |
| `LayerExtraction.UntouchedPathKept` | pybox/image/layer.py:109-128 | a path that no member deletes or fills keeps its entry |
| `LayerExtraction.UnfilledPath` | pybox/image/layer.py:118-128 | a path no member fills ends absent exactly when some whiteout reaches it, otherwise unchanged |
| `LayerExtraction.UnhitDirectoryKept` | pybox/image/layer.py:118-128 | a directory no whiteout reaches stays a directory, whatever members name it |
| `LayerExtraction.UnhitFileKept` | pybox/image/layer.py:118-128 | a file no whiteout reaches keeps its content unless a member with other content has its very path |
| `LayerRestart.RestartSafety` | pybox/image/layer.py:109-128 | after any number of extractions cut off at any member, inside a deletion or inside a file, the next one that completes without a refused member leaves the tree of one clean extraction |
| `LayerRestart.RestartExactly` | pybox/image/layer.py:109-199 | the clean tree is restored in every case if and only if no member is refused by an error from outside |
| `LayerRestart.UnrefusedOrCutOff` | pybox/image/layer.py:109-199 | errors that refuse no member do nothing worse than cut the extraction off |
| `LayerRestart.RefusedMemberIsMissing` | pybox/image/layer.py:192-199 | a refused member is passed over and its file is missing from a completed extraction |
| `LayerRestart.CutOffLeavesLeftover` | pybox/image/layer.py:109-128 | the invariant behind it: an interrupted extraction leaves, outside what the layer deletes, only entries of the kind the clean tree has |
| `LayerRestart.AttemptsLeaveLeftover` | pybox/image/layer.py:109-128 | the invariant over any number of interrupted extractions |
| `LayerRestart.CatchingAfter` | pybox/image/layer.py:109-128 | a clean run and a run that began on another tree agree after every member on all paths that no later member deletes, up to entries of that tree that the layer does not have |
| `LayerRestart.RestartMayAbortForever` | pybox/image/layer.py:140-149 | the repeated extraction need not complete: one opaque marker for a name the layer stores as a file |
| `LayerRestart.RestartAlwaysRepairs` | pybox/image/layer.py:109-149 | a sufficient condition: it always completes, with the clean tree, when no opaque marker names a file of the same layer |
| `LayerRestart.RestartCompletesExactly` | pybox/image/layer.py:109-149 | for layers that do not delete the directories their markers name: it always completes if and only if the clean tree has no file under such a name |
| `LayerStores.ImageStore.ApplyLayers` | pybox/image/layer.py:220-234 | under any errors, a sentinel that cannot be written included, the loop applies `AllApplied` and returns the directories in order |
| `LayerStores.AppliedExactly` | pybox/image/layer.py:220-234 | a call on different layers returns exactly when every layer is marked, or extracted and its sentinel written; otherwise it stops at the first that is not; which trees and sentinels are there then, for every layer and every other directory |
| `LayerStores.MarkedStay` | pybox/image/layer.py:220-234 | under any errors a directory with a sentinel is never touched again, and a call that returns has marked every requested directory |
| `LayerStores.ApplyLayersSound` | pybox/image/layer.py:220-234 | a call that refuses no member and returns leaves every requested directory complete, and keeps: a sentinel means a complete tree |
| `LayerStores.HistorySound` | pybox/image/layer.py:220-230 | after any history of completed, failed and interrupted calls that refuse no member, a sentinel implies the complete tree |
| `LayerStores.StoreRestartSafety` | pybox/image/layer.py:220-234 | over any such history: sentinel implies complete, and a call that returns leaves each directory as one clean extraction would |
| `LayerStores.SentinelTellsExactly` | pybox/image/layer.py:192-234 | in every history, of every store, a sentinel implies the complete tree if and only if no member is refused by an error from outside |
| `LayerStores.RefusalIsMarked` | pybox/image/layer.py:192-230 | one refused member: its layer is marked without its file, and no later call repairs it |
| `LayerStores.SentinelInLayer` | pybox/image/layer.py:225-228 | a layer that itself stores `.extracted` defeats the sentinel |
| `LayerStores.ImageStore.IsCached` | pybox/image/puller.py:168-177 | true exactly when the manifest is stored and every layer directory has its sentinel |
| `LayerStores.ImageStore.Pull` | pybox/image/puller.py:94-135 | result, directories, manifests and configs for downloads that fail, extraction errors, a sentinel or manifest that cannot be written or is cut short, and a config that cannot be downloaded |
| `LayerStores.PullComplete` | pybox/image/puller.py:94-117 | the cached and the fresh branch return equal directories; on a sound store, with no member refused, each is the complete tree of its layer |
| `LayerStores.PullStores` | pybox/image/puller.py:94-135 | a pull that returns leaves manifest and sentinels, so the next one is answered from the store; one of an image without manifest has downloaded it, written the manifest and stored the config; other images' files stay |
| `LayerStores.FailedConfigIsCached` | pybox/image/puller.py:94-127 | a pull that fails at the end of its manifest or at its config has stored the manifest: every later pull returns the image as cached and its config is never stored |
| `LayerStores.DirectoriesShared` | pybox/image/puller.py:179-194 | two digests share a directory exactly when they differ at most in colons against underscores; without underscores they are equal |
| `Snapshots.AddUpperDir` | pybox/storage/snapshot.py:91-114 | the walk visits every directory of the upper tree once, parents first, and adds what `Walk` says, for every order of directory listings |
| `Snapshots.AddDirectory` | pybox/storage/snapshot.py:95-114 | one turn of the walk: members for files and deletions, then the opaque marker, then the subdirectories |
| `Snapshots.WalkIsEncoding` | pybox/storage/snapshot.py:91-114 | the members of a walk are exactly the encodings of the entries, in an order where a marker follows its own directory's files and precedes its subdirectories |
| `SnapshotRoundTrip.SnapshotExtractIsOverlayView` | pybox/storage/snapshot.py:91-114 | extracting the snapshot onto its lower tree completes with exactly the overlay view of upper over lower if and only if kinds agree, every visible upper directory exists below or holds a file, and no opaque directory directly holds files |
| `SnapshotRoundTrip.FaithfulGivesView` | pybox/storage/snapshot.py:91-114 | one direction, path by path |
| `SnapshotRoundTrip.FileArrives` | pybox/storage/snapshot.py:95-108 | a file outside opaque directories arrives with its content, and the directories above it |
| `SnapshotRoundTrip.OpaqueLosesFile` | pybox/storage/snapshot.py:110-114 | a file directly in an opaque directory is always deleted by the marker written after it |
| `SnapshotRoundTrip.EmptyDirectoryLost` | pybox/storage/snapshot.py:95-108 | a directory without files below it is not carried by the snapshot |
| `SnapshotRoundTrip.OtherKindStays` | pybox/storage/snapshot.py:95-108 | an entry that meets another kind in the lower tree leaves that entry |
| `SnapshotRoundTrip.OpaqueMarkerWrittenLate` | pybox/storage/snapshot.py:110-114 | a concrete upper directory whose new file is lost for every listing order |
| `OverlayDrivers.OverlayMount.Mount` | pybox/storage/overlay.py:62-119 | fails without layers; otherwise the lower directories are handed over top first |
| `OverlayDrivers.OverlayMount.Umount` | pybox/storage/overlay.py:121-148 | the flag is cleared exactly when the kernel accepts |
| `OverlayDrivers.VFSCopyMount.Mount` | pybox/storage/overlay.py:182-193 | copies the existing layers base to top; into an empty directory, where kinds agree, it succeeds and shows at every path the entry of the last existing directory that holds it, and nothing else; and what a copy that meets a clash of kinds leaves there |
| `OverlayDrivers.FailedMountLeaves` | pybox/storage/overlay.py:182-193 | a mount that raises has copied some directories without a clash and the next one as far as it goes |
| `OverlayDrivers.FileOnDirectory` | pybox/storage/overlay.py:190 | a file copied onto a directory lands inside it, or raises when the place inside is a directory |
| `OverlayDrivers.DirectoryOnFile` | pybox/storage/overlay.py:190 | a directory copied onto a file raises, the file stays and nothing below is copied |
| `OverlayDrivers.CopyGetsThrough` | pybox/storage/overlay.py:190 | a copy raises in no other case |
| `OverlayDrivers.LookUpExactly` | pybox/storage/overlay.py:84 | a lookup finds a node exactly in the first directory that holds the path, when none before has a file on the way |
| `OverlayDrivers.VFSCopyMount.Umount` | pybox/storage/overlay.py:195-197 | clears the flag and keeps the merged directory |
| `OverlayDrivers.CopyConsistent` | pybox/storage/overlay.py:190 | where kinds agree, copying a layer over a tree overwrites exactly the entries of the layer |
| `OverlayDrivers.ClashShows` | pybox/storage/overlay.py:188-190 | where kinds clash the copy raises or the two drivers serve different trees |
| `OverlayDrivers.DriverAgreement` | pybox/storage/overlay.py:84-190 | for every stack, at every path: the copied tree equals first-hit lookup through the reversed list, for the stack and its lower parts, if and only if no path changes kind between layers |
| `Flattening.ExtractOver` | pybox/storage/overlay.py:188-190 | extracting a layer onto a tree writes its clean tree over what its whiteouts leave of that tree, whatever the order of its members, wherever the two agree on kinds |
| `Flattening.MergeStep` | pybox/storage/overlay.py:188-190 | one more layer whose kinds agree keeps the merge equal to the flat tree exactly when its whiteouts reach nothing below that it does not put back |
| `Flattening.FlatteningAgrees` | pybox/image/layer.py:220-232 | for any stack that can be extracted: both mount drivers serve from separate directories the tree of extracting all layers in order into one, apart from `.extracted`, for the stack and its lower parts, if and only if no path changes kind between the directories and no whiteout reaches a lower entry that its layer does not put back |
| `Flattening.TypeChangeRaises` | pybox/image/layer.py:220-232 | a layer that replaces a file by a directory puts back all it hits, yet the copying driver raises |
| `Flattening.WhiteoutStaysInItsLayer` | pybox/image/layer.py:220-232 | two layers where a deleted file is still there after the merge |
| `BuildSpecs.CacheKeysAgree` | pybox/image/build_spec.py:43-96 | two keys agree exactly when parents and steps do, up to step names and the order of variables |
| `BuildSpecs.SameStepExactly` | pybox/image/build_spec.py:43-96 | which steps those are: equal up to names, and environments in which every variable has the same last value |
| `BuildSpecs.EnvMapExactly` | pybox/image/build_spec.py:91 | a variable has the value of its last assignment, and there are no others |
| `BuildSpecs.ChainKeysAgree` | pybox/image/build_spec.py:43-96 | chained keys of two step lists agree exactly when bases and steps do, up to names and the order of variables |
| `BuildSpecs.PythonKeysAgree` | pybox/image/builder.py:236-243 | python keys agree exactly when versions, package multisets, bases and steps do |
| `BuildSpecs.StepKeyIsNotPythonKey` | pybox/image/builder.py:236-243 | a python key is never a step key |
| `ImageBuilders.ImageBuilder.ExecuteStep` | pybox/image/builder.py:133-156 | metadata-only, hit, executed or raised, also by a put that stops anywhere, with the cache after it |
| `ImageBuilders.ImageBuilder.PythonStep` | pybox/image/builder.py:231-272 | hit, installed or raised, also by a put that stops anywhere, with the cache after it |
| `ImageBuilders.ImageBuilder.Build` | pybox/image/builder.py:82-106 | the loop yields the layers, the cache and the executed positions of the specification `CachedBuild`, for every way its puts may end |
| `UncachedBuilds.UncachedIsPlain` | pybox/image/builder.py:88-106 | whatever the cache holds, a build without cache returns what executing every step returns, failures included, and executes exactly the layer-producing steps up to the first failure, and the python section when it gets there and installs |
| `UncachedBuilds.StoppedPutRaises` | pybox/image/builder.py:141-155 | a put that stops makes the build raise, exactly when the build gets to it, and nothing after it is executed |
| `UncachedBuilds.UncachedRepairs` | pybox/image/builder.py:88-156 | after a build without cache on any cache, a cached build of the same specification executes nothing and returns what executing every step returns |
| `UncachedBuilds.OneOfEach` | pybox/image/builder.py:133-222 | what each kind of step adds: commands on the layers below, copies by source and destination, directories and variables nothing, the python section last |
| `ImageBuilders.SameStepsSameLayers` | pybox/image/builder.py:88-98 | step lists with equal keys produce equal layers |
| `ImageBuilders.CachedBuildIsPlain` | pybox/image/builder.py:88-106 | with a sound cache a build returns what executing every step returns, failures included; it leaves the cache sound, also when a put stops before its copy or after it |
| `ImageBuilders.HistorySound` | pybox/image/builder.py:133-156 | after any builds, evictions and clears in one world in which no put stops within its copy, every entry is what executing its step would produce |
| `ImageBuilders.CacheTransparency` | pybox/image/builder.py:88-106 | after any such history, for every specification: cached build, build without cache and plain execution return the same layers |
| `ImageBuilders.TransparentExactly` | pybox/image/builder.py:79-156 | over all histories and specifications, cached builds return what plain execution returns if and only if no put stops within its copy, base references name the same layers in all builds, the build context does not change, and commands and installations repeat their results |
| `ImageBuilders.StaleStep` | pybox/image/builder.py:86-156 | a build in another world, or with a put that stops within its copy, that leaves another layer for the key of a step: the next build returns that layer |
| `ImageBuilders.CutPutIsStale` | pybox/image/builder.py:141-155 | a put that stops within its copy leaves a part of the tarball that the next build returns |
| `ImageBuilders.MovedBaseIsStale` | pybox/image/builder.py:79-86 | a base reference that names other layers later: a layer made on the old ones is put on the new ones |
| `ImageBuilders.ChangedContextIsStale` | pybox/image/builder.py:191-222 | a copy key holds paths only: a changed build context yields the old files |
| `ImageBuilders.OtherResultIsStale` | pybox/image/builder.py:133-156 | a command that gives another result later keeps its first one |
| `Invalidation.BuildRunsMissing` | pybox/image/builder.py:88-106 | a build executes exactly the layer-producing steps whose keys are missing, and stores exactly their keys |
| `Invalidation.CachedIffShared` | pybox/image/builder.py:86-98 | after one build a step of a second is cached exactly when it lies in the longest common prefix |
| `Invalidation.PythonCachedIffSame` | pybox/image/builder.py:236-247 | and its python section exactly when version, packages and everything before agree |
| `Invalidation.ExactInvalidation` | pybox/image/builder.py:86-106 | building a second specification executes exactly its layer-producing steps past the longest common prefix |
| `Invalidation.SameKeyOtherPython` | pybox/image/builder.py:236-243 | the python key holds neither the environment's path nor the order of packages |
| `Invalidation.DigestBaseIsStale` | pybox/image/builder.py:86-98 | a base reference that is the digest of other steps gets a layer that was built on other layers |
| `LayerCaches.LayerCache.Has` | pybox/storage/layer_cache.py:39-41 | whether the entry exists |
| `LayerCaches.LayerCache.Get` | pybox/storage/layer_cache.py:43-59 | the entry or a key error |
| `LayerCaches.LayerCache.Put` | pybox/storage/layer_cache.py:61-87 | adds or replaces one entry; a put that stops leaves nothing, a part of the tarball under the final name, or the whole entry |
| `LayerCaches.LayerCache.Evict` | pybox/storage/layer_cache.py:89-94 | removes one entry |
| `LayerCaches.LayerCache.Clear` | pybox/storage/layer_cache.py:96-101 | removes all entries |
| `Handshake.HandshakeSafety` | pybox/container/runtime.py:191-239 | in every interleaving, the child failing anywhere: second unshare only after the maps were attempted, maps attempted only after the user namespace exists or the child failed, RUNNING only after the byte; if and only if a parent crash is impossible or invisible to the child |
| `Handshake.HandshakeProgress` | pybox/container/runtime.py:196-239 | no reachable state is stuck on a pipe read if and only if the parent closes its unused ends, the child does too wherever the parent may crash, and the parent does not raise and live on |
| `Handshake.ParentMustNotRaise` | pybox/container/runtime.py:230-235 | a parent that raises while it writes the id maps keeps its write end, and the child waits as long as the parent lives |
| `Handshake.RunsEnd` | pybox/container/runtime.py:191-239 | every interleaving has at most nineteen steps |
| `Handshake.HandshakeSucceeds` | pybox/container/runtime.py:191-239 | an undisturbed handshake: RUNNING recorded, the child in its namespaces with its maps written, both pipes empty and all their ends closed |
| `Handshake.AlwaysTelling` | pybox/container/runtime.py:191-239 | in every run RUNNING is recorded exactly when the parent has come to its end, and the other effects show in where the processes are |
| `Handshake.DeadPeerIsNoticed` | pybox/container/runtime.py:191-239 | after any run a parent about to signal a child that is gone raises and does not record RUNNING; a child about to signal a parent that is gone fails |
| `Handshake.ParentMustClose` | pybox/container/runtime.py:221-228 | a parent that keeps its write end waits forever for a child that died |
| `Handshake.ChildMustClose` | pybox/container/init.py:108-166 | a child that keeps its write end waits forever for a parent that crashed |
| `Handshake.CrashLetsChildPass` | pybox/container/init.py:116-132 | after a parent crash the child reads the end of the pipe and goes on without id maps |
| `Handshake.SafetyInvariantHolds` | pybox/container/init.py:108-166 | the invariant of the order over every run |
| `Handshake.EndsHold` | pybox/container/init.py:110-166 | the invariant of the open pipe ends over every run |
| `Lifecycle.ContainerManager.Create` | pybox/container/runtime.py:116-136 | writes a fresh record in state CREATED without a process id, or raises and leaves none that can be read, or the old one |
| `Lifecycle.ContainerManager.Start` | pybox/container/runtime.py:157-239 | exactly which records can be started; only a handshake that succeeded and a record that could be rewritten make it RUNNING |
| `Lifecycle.ContainerManager.Wait` | pybox/container/runtime.py:254-277 | needs a process id; ends STOPPED with the exit code, 0 for a process reaped before, or raises when the record cannot be rewritten |
| `Lifecycle.ContainerManager.Stop` | pybox/container/runtime.py:289-328 | outcome and record for every answer of the kernel, the clock and the disk; at most ceil(10 * timeout) polls |
| `Lifecycle.ContainerManager.Remove` | pybox/container/runtime.py:341-361 | refuses exactly the RUNNING; what a deletion that raises leaves |
| `Lifecycle.ExitCodeKept` | pybox/container/runtime.py:254-277 | a wait that returns gives the exit status of the process, 0 for one reaped before; the record is STOPPED without a process id and holds that code until the next wait or creation |
| `Lifecycle.WaitExactly` | pybox/container/runtime.py:254-277 | after any run a wait returns exactly when the record has a process id |
| `Lifecycle.StartExactly` | pybox/container/runtime.py:157-239 | after any run: exactly which starts succeed, with which record; a RUNNING container is never started again |
| `Lifecycle.StopSignals` | pybox/container/runtime.py:296-328 | what stop does for every answer of the kernel to both signals and to the polls before the deadline |
| `Lifecycle.CreateExactly` | pybox/container/runtime.py:116-136 | a fresh CREATED record exactly when everything is prepared and the record could be written; one cut off cannot be read |
| `Lifecycle.OthersUntouched` | pybox/container/runtime.py:116-361 | an operation on one container leaves the records of all others as they are |
| `Lifecycle.RunningComesFromStart` | pybox/container/runtime.py:237-239 | in every run a container is RUNNING only since a start that succeeded, with that start's process id |
| `Lifecycle.StopStops` | pybox/container/runtime.py:254-328 | after any run: stop raises exactly when the record cannot be read, or the container is RUNNING and its process may not be signalled or its record not rewritten, and then, unless the write was cut off, changes nothing; otherwise the record is not RUNNING, and one it stopped keeps its process id until one wait has answered |
| `Lifecycle.ContainerManager.RecoverState` | pybox/daemon/main.py:82-92 | the loop turns every RUNNING record that can be rewritten into STOPPED, loses those whose writing is cut off, and changes no other |
| `Lifecycle.ContainerManager.HandleRm` | pybox/daemon/main.py:153-162 | a forced removal is stop, whatever it raises, then remove |
| `Lifecycle.ForcedRemoval` | pybox/daemon/main.py:153-162 | after any run: a forced removal meets the "is running" error exactly when the container is RUNNING and its record could not be read or rewritten, or its process not signalled; it returns exactly when none of this happens and the deletion succeeds; the record is gone exactly when the deletion took it |
| `Lifecycle.UnforcedRemoval` | pybox/daemon/main.py:153-162 | after any run a removal without force refuses exactly the RUNNING container and takes any other |
| `Lifecycle.UnwritableKeepsRunning` | pybox/daemon/main.py:153-162 | a record that cannot be rewritten: the process is gone, every signal permitted, and the forced removal still meets the "is running" error |
| `Lifecycle.RecoveryLeavesNoneRunning` | pybox/daemon/main.py:82-92 | after any run and recovery a container is RUNNING exactly when it was and rewriting its record was not begun; a record is lost exactly when its rewriting was cut off; every other one can be started |
| `Lifecycle.RunsConsistent` | pybox/container/state.py:145-199 | over every run of create, start, wait, stop, remove, forced removal and recovery, reads, writes and deletions failing in any way: states stay CREATED, RUNNING or STOPPED, RUNNING implies a process id, CREATED implies none and no exit code |
| `Lifecycle.TornStays` | pybox/container/state.py:159-175 | a state file that a write cut off cannot be read until the container is created anew |
| `Lifecycle.AbsentRaises` | pybox/container/state.py:120-165 | without a readable state file every operation but the creation raises and changes nothing |
| `AddressPools.HostsExact` | pybox/network/ipam.py:65-67 | the addresses tried are exactly the hosts of the block by RFC 4632, ascending |
| `AddressPools.NextIsLeastFree` | pybox/network/ipam.py:67-75 | the search yields the least usable free address and fails exactly when none is free |
| `AddressPools.IpamManager.Save` | pybox/network/ipam.py:112-117 | a save that raises leaves the file as it was, or cut off |
| `AddressPools.IpamManager.Allocate` | pybox/network/ipam.py:63-80 | for reads and saves failing in any way: the least usable address not listed, as far as the file could be read; exhausted exactly when none is free; the file after it, and the lock given back |
| `AddressPools.IpamManager.Release` | pybox/network/ipam.py:88-91 | for reads and saves failing in any way: the file after it, without the address and otherwise unchanged where it could be read, and the lock given back |
| `AddressPools.CallsUnderErrors` | pybox/network/ipam.py:63-117 | what allocate and release return and leave when the read, the save or the lock fails |
| `AddressPools.UsableCount` | pybox/network/ipam.py:65-70 | a block has 2^(32-p) - 2 hosts for prefixes up to 30, all addresses above, and one fewer is usable when the gateway is a host |
| `AddressPools.PoolBound` | pybox/network/ipam.py:63-91 | over every run of one manager, reads and saves failing in any way: only usable addresses, at most 2^(32-p) - 3 of them, and exhausted exactly when all are taken |
| `AddressLocking.MutualExclusion` | pybox/network/ipam.py:125-139 | any number of processes, any interleaving, under all conditions: at most one is between taking and giving back the lock |
| `AddressLocking.StaleLock` | pybox/network/ipam.py:125-139 | after a crash inside, the state file and the grants in force never change again |
| `AddressLocking.GivesUp` | pybox/network/ipam.py:129-136 | while the lock file stays a call gives up after exactly fifty attempts and has changed nothing |
| `AddressLocking.AllocateAlone` | pybox/network/ipam.py:63-75 | an undisturbed allocation in the concurrent machine is the sequential one |
| `AddressLocking.ReleaseAlone` | pybox/network/ipam.py:82-91 | an undisturbed release in the concurrent machine is the sequential one |
| `AddressLocking.DistinctExactly` | pybox/network/ipam.py:63-139 | with timeouts, crashes at any step and managers of different blocks on one directory: granted addresses are pairwise distinct in every run if and only if no read fails, no save fails short of a crash and callers release only what they hold |
| `AddressLocking.RecordedExactly` | pybox/network/ipam.py:63-139 | the same three conditions decide whether the state file, when readable, lists every address in force in every run |
| `AddressLocking.HeldIsRecorded` | pybox/network/ipam.py:102-117 | under those conditions the state file lists every address in force whenever it is readable, and is cut off only while the lock file exists |
| `AddressLocking.FailedLoadDuplicates` | pybox/network/ipam.py:104-110 | a read that raises counts as an empty pool: an address in force is granted again |
| `AddressLocking.FailedLoadForgets` | pybox/network/ipam.py:104-110 | a release whose read raises erases the record of all other addresses |
| `AddressLocking.FailedSaveEmpties` | pybox/network/ipam.py:112-117 | a save that raises half-way empties the recorded set |
| `AddressLocking.LooseReleaseEmpties` | pybox/network/ipam.py:82-91 | a release of an address held by another frees it |
| `Networks.NetworkManager.Setup` | pybox/network/manager.py:85-113 | pool and endpoints for every step that may raise, reads and saves of the address file included: an address allocated before a failure is not given back |
| `Networks.NetworkManager.Teardown` | pybox/network/manager.py:121-130 | without endpoint nothing; when the release raises, the endpoint stays; a missing `ip` binary is swallowed with nothing released; an undisturbed teardown frees exactly the address of the endpoint and deletes it; which failures are logged and which raised |
| `Networks.SetUpExactly` | pybox/network/manager.py:85-113 | a setup succeeds exactly when some usable address is free and no step it comes to raises; which pool and endpoints it leaves in each case |
| `Networks.TearDownExactly` | pybox/network/manager.py:121-130 | which teardowns free the address, which delete the endpoint, and which change nothing |
| `Networks.Accounting` | pybox/network/manager.py:85-130 | over every run without teardowns cut short, failing reads and half-written saves: endpoints have distinct addresses, allocated addresses are exactly endpoint addresses plus those leaked by failed or overwriting setups, and their numbers add up |
| `Networks.SetupThenTeardown` | pybox/network/manager.py:85-130 | setting up and tearing down leaves pool and endpoints as they were |
| `Networks.DistinctExactly` | pybox/network/manager.py:85-130 | addresses stay distinct, and the accounts balanced, in every run if and only if no teardown dies between release and deletion of the endpoint, no read of the address file fails and no save of it raises half-way |
| `Networks.FailedReadDuplicates` | pybox/network/manager.py:87-88 | a setup whose read of the address file raises gives out an address in use |
| `Networks.Capacity` | pybox/network/manager.py:87-88 | setups fail for want of an address exactly when endpoints and leaks together are as many as the usable addresses, 253 on the default network |
| `NetworkRaces.RunSound` | pybox/network/manager.py:85-130 | any number of processes, any interleaving, failing or dying anywhere but between release and deletion, one call per container at a time: endpoints in force and running setups have distinct addresses, and the recorded addresses are exactly theirs and the leaked ones |
| `NetworkRaces.DistinctExactly` | pybox/network/manager.py:85-130 | over all interleavings addresses of endpoints in force stay distinct, and the accounts balanced, if and only if no two calls work on one container at a time and no teardown ends between release and deletion of the endpoint |
| `NetworkRaces.OverlapDuplicates` | pybox/network/manager.py:121-126 | two overlapping teardowns of one container release its address twice: two other containers get one address |
| `NetworkRaces.CutDuplicates` | pybox/network/manager.py:121-126 | a teardown that ends after its release: the next setup gets the address of the endpoint still there |
| `NetworkRaces.AloneIsSequential` | pybox/network/manager.py:85-130 | an undisturbed setup or teardown in the concurrent machine is the sequential one |
| `ImageReferences.TagExactly` | pybox/registry/client.py:54-58 | the last component has a colon exactly when no slash follows the last colon, so the split takes the tag there |
| `ImageReferences.ParseIsNormal` | pybox/registry/client.py:55-71 | for every string: the tag has neither `/` nor `:`, the registry no `/`, and it is recognised as a registry |
| `ImageReferences.ReadBackExactly` | pybox/registry/client.py:55-71 | a printed triple is read back unchanged exactly when it has those properties |
| `ImageReferences.NormalForm` | pybox/registry/client.py:55-71 | for every string, printing the parse and parsing again gives the same triple; two strings have one normal form exactly when they parse alike |
| `ImageReferences.HubDefaults` | pybox/registry/client.py:60-69 | a bare name is looked up on the hub under `library/`, by default with tag `latest` |
| `ImageReferences.HubNamespace` | pybox/registry/client.py:62-69 | a first component that does not look like a registry is a namespace of the hub |
| `ImageReferences.RegistryIsRead` | pybox/registry/client.py:62-69 | a first component with a dot or a colon, or `localhost`, is the registry |
| `BlobStores.LayerDirectory.Receive` | pybox/registry/client.py:338-343 | the running hash is the hash of what was written |
| `BlobStores.LayerDirectory.PullLayer` | pybox/registry/client.py:312-363 | result, stored files and temporary files for every reply: stored exactly when complete and matching; a new file hashes to its digest, and a verified store stays verified |
| `BlobStores.PullAlone` | pybox/registry/client.py:312-363 | an undisturbed pull in the concurrent machine leaves the files of the sequential one, has its answer and returns the content of its file, for any chunking and reply |
| `BlobStores.VerifiedExactly` | pybox/registry/client.py:312-363 | any number of concurrent pulls and commits step by step, any chunking, mismatch, error or crash of a pull: every file that no commit is copying hashes to its name, at every point of every run, if and only if overlapping pulls have different digests and no commit dies in a copy; every pull that returns gives a verified file if and only if, besides, no pull looks for a file while a commit copies it |
| `BlobStores.MeetingReturnsPart` | pybox/registry/client.py:315-318 | a pull that comes while a commit is copying returns the part copied so far |
| `BlobStores.OverlapBreaks` | pybox/registry/client.py:337-355 | two overlapping pulls of one digest store a file that does not hash to it |
| `BlobStores.StaysStored` | pybox/registry/client.py:312-363 | a digest once stored stays stored |
| `BlobStores.FileNamesDiffer` | pybox/registry/client.py:313 | different digests without underscores have different files; `x_y:z` and `x:y_z` share one |
| `BlobStores.LayerDirectory.StoreAll` | pybox/image/commit.py:81-96 | the loop stores every layer not yet there and returns the digests in order; a copy that raises leaves its part under the final name |
| `BlobStores.CommitStores` | pybox/image/commit.py:81-89 | a commit whose copies succeed stores every layer of the image, all files hash to their names, nothing stored before is changed, and what is new is a layer under its own digest |
| `BlobStores.StopsExactly` | pybox/image/commit.py:81-89 | the copy of a layer is made, and can stop, exactly when neither the store nor an earlier layer has its digest |
| `BlobStores.CommitAlone` | pybox/image/commit.py:81-89 | an undisturbed storing in the concurrent machine leaves the files of the sequential commit |
| `BlobStores.CutCommitAlone` | pybox/image/commit.py:87-89 | and one that dies in its copy the part copied |
| `BlobStores.CommittedName` | pybox/image/commit.py:81-96 | a committed file is named `sha256_` and its hash |
| `BlobStores.CutCommitBreaks` | pybox/image/commit.py:87-89 | a commit that dies while copying leaves a file that does not hash to its name |
| `BlobStores.CutCommitReturned` | pybox/image/commit.py:87-89 | and every later pull of that digest returns it |
| `EnvironmentMerge.MergeEnv` | pybox/image/commit.py:175-181 | the loop through an insertion-ordered dictionary yields `Merged` |
| `EnvironmentMerge.EntryParts` | pybox/image/commit.py:179 | an entry is taken apart at its first equals sign, so values may hold more of them |
| `EnvironmentMerge.EntryRebuilt` | pybox/image/commit.py:179-181 | an entry is written back as it was exactly when it has an equals sign |
| `EnvironmentMerge.MergedExactly` | pybox/image/commit.py:175-181 | the result mentions every key of both lists once, in the order of first mention, with the value last mentioned |
| `EnvironmentMerge.OverrideWins` | pybox/image/commit.py:175-181 | a key of the second list has its value there |
| `EnvironmentMerge.MergeAssociative` | pybox/image/commit.py:175-181 | merging is associative on lists, order included |
| `EnvironmentMerge.MergedIsNormal` | pybox/image/commit.py:175-181 | merging a result with the empty list, on either side, changes nothing |
| `Framing.StreamReader.ReadExactly` | pybox/daemon/protocol.py:117-119 | for any chunking: the next n bytes, or the error with what was left |
| `Framing.StreamReader.ReadMessage` | pybox/daemon/protocol.py:104-119 | for any chunking: the message the byte stream begins with |
| `Framing.ReadEncoded` | pybox/daemon/protocol.py:73-119 | reading an encoded message gives it back and leaves the rest |
| `Framing.NetworkOrder` | pybox/daemon/protocol.py:74 | lengths are four bytes in network byte order |
| `Framing.EncodedFrames` | pybox/daemon/protocol.py:117-119 | every byte stream is the encoding of the messages read from it, followed by an incomplete one |
| `Framing.StreamIsItsMessages` | pybox/daemon/protocol.py:73-119 | a stream, however chunked, is read as given messages exactly when it is their encodings followed by an incomplete one |
| `Framing.ReadBack` | pybox/daemon/protocol.py:73-119 | any chunking of concatenated frames is read back as the same messages |
| `Framing.StreamReader.ReadAll` | pybox/daemon/main.py:101-105 | the read loop takes all whole messages of the stream and stops at its end |
| `Rpc.Connection.HandleClient` | pybox/daemon/main.py:100-117 | one response to each request until the stream ends, a request cannot be decoded or a response not encoded; then the connection is closed |
| `Rpc.RepliesUntilEnd` | pybox/daemon/main.py:100-117 | whole requests are answered, in order, until the first place where the connection ends, and nothing after it |
| `Rpc.RepliesInOrder` | pybox/daemon/main.py:101-115 | a stream of requests is answered, in order, by the encodings of their responses |
| `Rpc.DaemonClient.Call` | pybox/daemon/client.py:104-117 | the id counts up even when sending fails; the result is that of the next message on the stream, whatever its id |
| `Rpc.CallsAnswered` | pybox/daemon/client.py:106-117 | client and daemon composed on bytes: the first message answers the first request, by its handler for PS, INSPECT, STOP, RM and INFO and as not implemented for the others; the rest the other requests |
| `Rpc.ReadsShifted` | pybox/daemon/client.py:106-117 | in every interleaving the response about to be read answers the request sent as many requests earlier as calls were given up, so it is the call's own exactly when none was |
| `Rpc.PairedExactly` | pybox/daemon/client.py:106-117 | every returned call has the response to its own request, in every interleaving, if and only if no waiting call is cancelled |

## Left out

- SnapshotRoundTrip.SnapshotExtractIsOverlayView: names beginning with the reserved prefix `.wh.` are excluded; an opaque attribute on the upper directory's own root is never written by the walk and counts as absent in the view; an opaque attribute that the walk cannot read, which the source then takes for absent (`pybox/storage/snapshot.py:129-133`), is not modelled: an attribute is always readable.
- OverlayDrivers.DriverAgreement: the equivalence speaks of a stack together with its lower parts, because a clash of kinds can be hidden again by a layer above it.
- Flattening.FlatteningAgrees: assumes that every layer can be extracted, into an empty directory and in order onto the layers below, and that none stores `.extracted`; like the drivers it speaks of a stack together with its lower parts.
- LayerRestart.RestartSafety: within one member an interruption or an error leaves any mix of old and new entries and any content in the file being written; the order in which the file system deletes a subtree is not modelled. Histories with refused members are those of completed or failed calls; that an extraction with refused members is also interrupted is not modelled.
- LayerRestart.RestartAlwaysRepairs: the condition is sufficient, not necessary, for layers that delete a directory an opaque marker names.
- ImageBuilders.CacheTransparency: builds on one cache run one after the other, so a build that reads an entry another process is still copying is not modelled; digests do not collide; a layer tarball is a value: that the builder removes an ephemeral container before its tarball is cached (`pybox/image/builder.py:184-189`) is not modelled.
- ImageBuilders.ImageBuilder.Build: pulling the base, the directory made for a new layer, which the source never fills (`pybox/image/builder.py:96-98`), and committing the layers are not part of it; the commit's layer files and environment are modelled in `blob_store.dfy` and `env_merge.dfy`.
- LayerCaches.LayerCache.Evict: deletes the entry or is not called; an eviction or a clear that fails half-way is not modelled.
- OverlayDrivers.VFSCopyMount.Mount: errors of the file system while copying are not modelled; a copy that meets a clash of kinds is taken to leave everything else copied, as `copytree` does, and the layers after it uncopied.
- Invalidation.ExactInvalidation: both builds succeed; what a failing build leaves in the cache is covered by the soundness of the history only.
- Handshake.HandshakeSafety: namespaces, id maps, cgroup and mounts are steps that succeed or fail; the second fork of the child and what runs after it are one step. A parent that raised lives on; its later exit, which would close its pipe ends, is not modelled.
- Lifecycle.RunsConsistent: daemon handlers run one at a time; the watchers of the detached run and start commands, which write records unsynchronised, are not modelled. A state file that a write has cut off is one that cannot be read; an operation reads it, and each rewriting succeeds, changes nothing or cuts it off.
- Lifecycle.ContainerManager.Create: the image, command, name and root file system in the record are not modelled.
- AddressPools.IpamManager.Allocate: sequential, with no other process on the directory; the concurrent case is the state machine of `ipam_lock.dfy`.
- AddressLocking.DistinctExactly: a crash leaves the state file old, cut off or new; a process is the unit of interleaving, so two threads of one process count as two processes.
- Networks.Accounting: one process at a time, interleaved processes being those of `network_race.dfy`; bridge, veth and NAT commands are steps that succeed or fail; a half-written endpoint file counts as no endpoint.
- NetworkRaces.DistinctExactly: allocating and releasing an address is one step each, as under the lock; reads and saves of the address file that fail, and addresses released by hand, are those of `ipam_lock.dfy` and `network.dfy`.
- ImageReferences.NormalForm: strings are sequences of characters; whether a registry accepts the reference is not modelled.
- BlobStores.VerifiedExactly: files are named by their digests, so digests of one file name (`pybox/registry/client.py:313`; BlobStores.FileNamesDiffer says which) count as different files; two commits at once whose contents share a digest are taken to have the same content; a pull that lost its temporary file to another pull simply ends.
- BlobStores.LayerDirectory.StoreAll: a tarball does not change between being hashed and being copied (`pybox/image/commit.py:82-89`); one that is rewritten in between is stored under the digest of the old content.
- Rpc.PairedExactly: a call is cancelled before any byte of its response is read; cancellation between the length and the body of a message, which would shift the framing, is not modelled.
- Rpc.Connection.HandleClient: handlers are a function of the request; streaming calls and several clients at once are not modelled.
- Symbolic links, hard links, device nodes and file attributes; members with `..`; a bare `.wh.` member at the root.
- Tar, gzip, JSON, TOML and msgpack bytes, and validation of messages: injective encoders or parameters.
- HTTP, tokens, credentials, mirrors, pushing images and manifests of several platforms.
- Concurrent extraction of one layer by two processes.
- Parsing of build files, tag index, name resolution, cgroup limit strings, size and statistics helpers: simple lookups.
- The command line, output formatting, log following, port proxy, slirp and nftables.
