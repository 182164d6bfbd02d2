# Coordination and state machines, proved in Dafny

This project models the coordination code of the platform: the code that is short, runs in many
processes at once, and whose guarantees cover every interleaving or every byte stream. Each module
holds the source's own step functions, imperative methods proved equal to them, and the theorems that
hold over whole runs. `dafny verify dfyconfig.toml` checks all of it.

| module | what it models |
|---|---|
| `Lease`, `Election` | the controller's leader election on one versioned Lease: decide, compare-and-swap, promote, demote, hand back; the write fence. Pods have arbitrary clocks, crash and restart, writes time out and land late |
| `ManagedFields`, `ApplyCache` | the RFC 6902 patch that releases the agent's field ownership, and server-side apply behind a skip-if-unchanged memory |
| `SpaceGrants`, `SpaceReconcilers`, `SpaceConvergence`, `SpaceInterleaving` | the two reconcilers of space grants with their two memories; every request and every fence may go either way; whole passes, and passes interleaved request by request |
| `RollLock` | the probe and roll lock: create, get, judge, delete by uid and version, create again |
| `Frames`, `FrameFilter` | WebSocket frames (sections 5.2 and 5.3 of RFC 6455) and the streaming filter that takes clipboard frames out of them |
| `Retention`, `SyncBeat`, `SyncWake` | sync-point retention, the sync beat over a btrfs generation counter, the coalesced wake |
| `Claim`, `Capacity` | the placement race between nodes, and the capacity arithmetic behind it |
| `Tunnel`, `SingleUse` | the gateway's counted tunnel places and single-use session ids |
| `Idle` | the builder gate's connection counts and its stop decision |

Concurrency is modelled as a state machine over await-free steps (`Sys`, `Action`, `Enabled`, `Do`);
a theorem "over a run" quantifies over every sequence of enabled actions. (`ApplyCache` and
`SpaceConvergence` take whole calls and whole passes as steps; `SpaceInterleaving` proves convergence
without that.) Where the source updates an
object in place the model has a class whose methods carry the source's branches and are proved equal to
the step functions. The API server is a versioned object store with create, compare-and-swap replace,
conditional delete, and for each request three endings: it works, it is refused without effect, or it
takes effect and the reply is lost (`Wrappers.Net`). Clocks, network outcomes and what other writers do
are parameters.

## Where the code and its comments disagree

The model follows the code. Each of these is a theorem below.

- `bins/controller/src/lib.rs:125-132` says a lease echoed at term zero is advanced by `decide` on the
  next tick. It is renewed at zero for as long as beats come within the TTL, so the pod never leads
  (`Lease.EpochZeroBeat`, `Lease.EpochZeroIsSticky`). An acquire from term 2^31-1 wraps to term zero
  (`Lease.AcquireRaisesByOne`).
- `bins/controller/src/ctx.rs:164-165` says a skip means this is what the process last applied. An apply
  that lands and then fails (its reply is lost, or its release fails) leaves the body before it
  remembered, and going back to that body within the resync bound is skipped
  (`ApplyCache.StaleAfterFailedApply`); `ApplyCache.EnsureCoherentIff` says exactly when.
- `bins/controller/src/space.rs:205-250` writes its memory only after both applies. A pass that rendered
  from a memory of nothing, whose egress apply lands and that then fails strands the egress half
  (`SpaceConvergence.StrandedExactly`, `StrandedExample`).
- `bins/slo/src/coordination.rs:241-256` says takeover lets age decide for a roll lock without a pod. It
  calls `holder_is_live`, which judges such a lock dead at once, and `deploy/roll.sh:63-64` records
  neither pod nor job (`RollLock.UnrecordedIsTaken`).
- `bins/agent/src/snapshot.rs:71-76` says the API server drops the status a create carries, as the status
  subresource declared at `crates/workspaces/src/crd/snapshot.rs:22` makes it;
  `crates/workspaces/src/api/push.rs:147-149` says it is stored. `sync_one`'s one-cut-in-flight guard
  (`bins/agent/src/sync.rs:124-133`) sees a cut in flight if and only if it is stored. Dropped, every
  beat over a cut in flight creates another sync point (`SyncBeat.OverACutCreates`, `SyncBeat.Flood`).
- `bins/agent/src/snapshot.rs:367-371` calls any other Ready sync point safe to delete. Between a cut
  turning Ready (160-166) and its `retain` listing (382) come a node listing and calls to peers; a beat
  may create, and the new sync point turn Ready and be deleted by the older one's retention. The
  worktree is then cut once more without a change. From every state where a beat creates before such a
  listing that can follow (`SyncBeat.PendingPassExceeds`); over runs without one, and without a creation
  over a cut in flight, it cannot unless a re-stamp fails (`SyncBeat.GuardedRun`).
  Likewise `:361` promises exactly one Ready sync point; two passes over one worktree leave none when
  each listed the other's (`Retention.HeadsFall`).
- A write between a cut and the re-read of its generation leaves a sync point recorded as current
  without that write's bytes (`SyncBeat.CoveringPointIsCurrent`).
- `bins/gateway/src/tunnel.rs:94` says `spend` answers true once. It does while spends come before the
  token's expiry; `connect` checks the expiry at 236-242 and spends at 283, after resolving, charging
  and dialing, and a spend after the expiry is answered true every time (`SingleUse.TrueExactly`,
  `SingleUse.LateSpendsAllPass`).

Two limits the source admits or leaves open are stated exactly. While an environment's pods arrive the
capacity gate counts too little (`bins/agent/src/claim.rs:98-100`): `Capacity.HalfStartedOvercommits`
says which claims then overcommit the node. And a clone made while a retention pass runs may lose its
cut: `Retention.DeletesExactly` says which.

## Model

| member | source | states |
|---|---|---|
| Lease.LeaseApi.Write | bins/controller/src/lease.rs:97-152 | the new stored lease and the reply are those of a replace pinned to the version read, or of a create when nothing was read; a conflict stores nothing, a lost reply stores all the same |
| Lease.Ctx.Promote | bins/controller/src/ctx.rs:118-122 | the epoch is the term promoted under |
| Lease.Ctx.Demote | bins/controller/src/ctx.rs:123-128 | the epoch is zero, the sentinel of a follower |
| Lease.Ctx.TickOnce | bins/controller/src/lib.rs:106-147 | one beat leaves the store and the epoch as `Tick` says, for every reading failure and every ending of the write; what `Tick` says is the next five rows |
| Lease.BlindBeatFollows | bins/controller/src/lib.rs:109-119 | a pod that cannot read the lease follows and writes nothing |
| Lease.LiveLeaseIsLeft | bins/controller/src/lease.rs:53-60 | a lease another pod holds is untouched, and this pod follows, while the holder's TTL has not run out by this pod's clock |
| Lease.OwnLeaseIsRenewed | bins/controller/src/lease.rs:57-59 | one's own live lease keeps its term and acquire time and is renewed now, and the pod leads that term if it hears of it; a refused write changes nothing and ends the leadership |
| Lease.LapsedLeaseIsTaken | bins/controller/src/lease.rs:51-63 | a lease absent, without a spec or past its TTL is taken at the next term by whoever beats, with a new acquire time; the pod leads if it hears of it |
| Lease.SpecIsSeen | bins/controller/src/lease.rs:74-89 | absent fields read as empty and zero, negative ones as zero, a missing spec as no lease |
| Lease.Ctx.Fence | bins/controller/src/space.rs:128-149 | the fence passes if and only if the epoch is not zero, the lease can be read and its term is the epoch; a refusal leaves the epoch zero |
| Lease.Ctx.HandBack | bins/controller/src/lib.rs:63-68 | shutdown drops the epoch and then leaves the store as `HandedBack` says |
| Lease.HandBackFreesTheTerm | bins/controller/src/lease.rs:161-176 | handing back keeps the term, touches only a lease of one's own, and lets any pod whose clock is past the TTL acquire the next term at once |
| Lease.AcquireRaisesByOne | bins/controller/src/lease.rs:48-112 | a landed acquire raises the term by one if and only if it was below 2^31-1; from there it falls to zero |
| Lease.EpochZeroBeat | bins/controller/src/lib.rs:125-135 | a pod holding the lease at term zero leads after a beat if and only if the TTL had run out |
| Lease.EpochZeroIsSticky | bins/controller/src/lib.rs:125-135 | over any number of punctual beats it never leads and the term stays zero |
| Election.BeatIsTick | bins/controller/src/lib.rs:106-147 | the interleaved read, write and settle steps run in a row are one `Tick`, so the theorems below are about the code of `TickOnce` |
| Election.ExitIsHandBack | bins/controller/src/lib.rs:63-68 | the interleaved shutdown steps run in a row are one `HandedBack` |
| Election.FenceIsExact | bins/controller/src/space.rs:128-149 | an undisturbed interleaved fence passes if and only if the stored term is the pod's epoch, and demotes it otherwise |
| Election.BlindPodFollows | bins/controller/src/space.rs:133-142 | a beat or fence that cannot read the lease, and the start of a shutdown, leave the pod without an epoch and touch nothing else |
| Election.StepKeeps | bins/controller/src/lease.rs:48-176 | the invariant of the whole system is kept by every step of every pod, crashes and late writes included |
| Election.RunKeeps | bins/controller/src/lib.rs:89-147 | so it holds at every moment of every run |
| Election.RunGrows | bins/controller/src/lease.rs:95-176 | along any run the term never decreases, no election is forgotten or given to another pod, and the stored version only grows |
| Election.TermMovesByElection | bins/controller/src/lease.rs:48-67 | the stored term moves only when an acquire lands, and then by exactly one |
| Election.TermRisesOverLapsed | bins/controller/src/lease.rs:53-63 | over every run a term moves only over a lease that was absent, without a spec, or past its TTL by the clock of the pod taking it, so no live lease is ever taken |
| Election.ElectionsDiffer | bins/controller/src/lease.rs:95-152 | two elections of a run are of different terms, the later of the larger one |
| Election.WonMeansElected | bins/controller/src/lease.rs:95-152 | whoever is recorded as the winner of a term landed the acquire of that term in the run |
| Election.EpochsExclusive | bins/controller/src/lib.rs:121-147 | whatever the clocks, no two pods hold the same non-zero epoch, and an epoch held is a term its holder won |
| Election.PassedWasElected | bins/controller/src/space.rs:128-149 | a fence that passes compared equal to the term its own read found, and its pod is the one elected at that term |
| Election.PassesOrdered | bins/controller/src/space.rs:128-149 | passes ordered by their lease reads have non-decreasing terms and one pod per term, so after a read of a newer term no older leader passes |
| Election.ShutdownSilences | bins/controller/src/lib.rs:63-68 | once a pod has begun to shut down it holds no epoch and passes no fence until it boots again, whatever its passes in flight do |
| ManagedFields.ReleaseExact | bins/controller/src/ctx.rs:206-221 | applied to the list it was built from, the patch leaves exactly the other managers' entries in order, and it is empty if and only if the agent owns nothing |
| ManagedFields.WithoutAgentIsRest | bins/controller/src/ctx.rs:206-211 | what is left is every entry naming another manager or none, in order: it is so of one entry, and of two lists in a row |
| ManagedFields.ReleaseSafe | bins/controller/src/ctx.rs:206-232 | applied to any other stored list it fails and changes nothing, or removes agent entries only, one for each pair |
| ManagedFields.ReleasePrefix | bins/controller/src/ctx.rs:206-221 | on a longer list that starts with the one it was built from, every test passes and the rest is untouched |
| ApplyCache.Applier.Ensure | bins/controller/src/ctx.rs:168-195 | the objects, the memory and the answer after one call, for every ending of the apply and of the release |
| ApplyCache.Applier.DropObject | bins/controller/src/ctx.rs:246-256 | the memory is forgotten before the delete, whatever the delete answers |
| ApplyCache.EnsureMeans | bins/controller/src/ctx.rs:168-195 | over a true memory a call succeeds if and only if the body was applied less than 600 seconds ago or both requests work; a success leaves the object equal to the body, and the memory gains exactly an apply that was sent and succeeded |
| ApplyCache.DropMeans | bins/controller/src/ctx.rs:240-256 | a drop forgets its object however it ends, and deletes it unless refused |
| ApplyCache.EnsureCoherentIff | bins/controller/src/ctx.rs:168-195 | the memory stays true of the objects exactly unless an apply is sent, lands and fails while another body is remembered |
| ApplyCache.DropCoherent | bins/controller/src/ctx.rs:240-256 | a drop keeps the memory true, however it ends |
| ApplyCache.StaleAfterFailedApply | bins/controller/src/ctx.rs:181-194 | for any two bodies and any apply that lands and fails, three calls after which a reported success is not true of the object |
| ApplyCache.CoherentRunIff | bins/controller/src/ctx.rs:168-256 | over any run the memory is true at every moment if and only if no call sends an apply that lands and fails over another remembered body |
| ApplyCache.RefinesAlwaysApply | bins/controller/src/ctx.rs:168-256 | over any such run of a sole writer, whatever fails or loses its reply, skipping leaves the cluster as if every call that succeeded or took effect had written |
| ApplyCache.NeverTrusted | bins/controller/src/ctx.rs:77-80 | after a drop, even a failed one, or once an entry is older than the bound, the next call must send its apply |
| SpaceReconcilers.Reconciler.MayWrite | bins/controller/src/space.rs:128-149 | a refused fence ends leadership, a passed one keeps it |
| SpaceReconcilers.Reconciler.Ensure | bins/controller/src/ctx.rs:168-195 | one cached apply inside a pass, with the request it makes recorded only when it is not skipped |
| SpaceReconcilers.Reconciler.DropObject | bins/controller/src/ctx.rs:246-256 | one delete inside a pass, with its request recorded |
| SpaceReconcilers.Reconciler.ForgetGoneSpaces | bins/controller/src/space.rs:163-167 | the choices of vanished spaces go, and none from an unlisted cache |
| SpaceReconcilers.Reconciler.ReconcileSpace | bins/controller/src/space.rs:176-262 | the whole state and the outcome after one pass, for every ending of every fence and request |
| SpaceReconcilers.Reconciler.RenderHalves | bins/controller/src/space.rs:205-210 | both halves in order, the second only after the first succeeded |
| SpaceReconcilers.Reconciler.RetractEgress | bins/controller/src/space.rs:217-231 | the egress half goes on a transition, on a found orphan after a restart, and never when the memory says nothing was rendered |
| SpaceReconcilers.Reconciler.LeaveOld | bins/controller/src/space.rs:237-244 | the half in the environment named last pass goes, and only when that is another one |
| SpaceReconcilers.Reconciler.ReconcileEnvironment | bins/controller/src/space.rs:267-299 | the deletion loop over a listing, with a fence before each delete, stops at the first refusal or failure |
| SpaceConvergence.EventKeeps | bins/controller/src/space.rs:176-299 | no pass, sweep, restart or loss of leadership, however it ends, makes a right grant wrong; a completed one makes its own grants right |
| SpaceConvergence.PassKeeps | bins/controller/src/space.rs:176-262 | a pass of any space keeps every right grant right, and a completed one makes its own right |
| SpaceConvergence.SweepKeeps | bins/controller/src/space.rs:282-298 | so does the deletion loop for any listing, and a completed one removes every unwanted grant it lists |
| SpaceConvergence.Converges | bins/controller/src/space.rs:95-299 | whatever came before, one completed pass of every space naming an environment and one completed sweep of it, in any order among failed and fenced ones, leave its namespace with exactly the grants of those spaces, each with its own body |
| SpaceConvergence.ConvergesFromStart | bins/controller/src/space.rs:95-299 | so for a process just started, over any cluster it finds |
| SpaceInterleaving.StepKeeps | bins/controller/src/space.rs:176-299 | with any number of passes and sweeps under way, no request of any of them makes a right grant wrong or an unwanted one appear, and what a half-done sweep has left to look at holds every unwanted grant still there |
| SpaceInterleaving.RunKeeps | bins/controller/src/space.rs:176-299 | so at every moment of every run |
| SpaceInterleaving.PassIsSteps | bins/controller/src/space.rs:176-262 | however its requests end, the steps of a pass with nobody in between leave the cluster, both memories and the leadership as the whole pass does |
| SpaceInterleaving.SweepIsSteps | bins/controller/src/space.rs:282-298 | and so do the steps of a sweep |
| SpaceInterleaving.ConvergesInterleaved | bins/controller/src/space.rs:95-299 | once every space naming an environment has completed its ingress apply and the environment a sweep, in any interleaving of their requests with failures, fences and restarts, its namespace holds exactly the grants of those spaces, each with its own body |
| SpaceConvergence.NeverDeletesItsWish | bins/controller/src/space.rs:176-262 | for arbitrary memories and any earlier deletes, every delete a pass issues is of its egress half when the wish renders nothing, or of its own grant in another environment: never a half its wish and cache ask for |
| SpaceConvergence.PassIsFenced | bins/controller/src/space.rs:183-243 | a pass makes no request unless the environments are listed, it leads, its fence passes and the space has a uid, and no delete unless the fence asked just before it passes; refused at the first fence it changes no object and leads no more |
| SpaceConvergence.LeavesTheOld | bins/controller/src/space.rs:234-244 | a completed pass of a space that has moved has deleted its grant in the environment the memory held, by its last request and no other, and it is gone; one that has not moved deletes no grant |
| SpaceConvergence.RendersExactly | bins/controller/src/space.rs:151-157 | a completed pass leaves both halves, each naming the other side, its owner and the space's uid, when the environment exists in this region; otherwise it applies nothing and leaves no egress half but one the memory said was never rendered |
| SpaceConvergence.PassCompletes | bins/controller/src/space.rs:176-262 | a leading pass whose caches are listed and whose requests all work completes |
| SpaceConvergence.SweepsExactly | bins/controller/src/space.rs:267-299 | a sweep deletes only listed grants of spaces that do not name the environment and are not young, each behind a fence that passed; all of them if it completes; any other object stays |
| SpaceConvergence.FencedKeepsMemory | bins/controller/src/space.rs:223-243 | a pass that is fenced or fails leaves the choice memory, so its deletes are retried |
| SpaceConvergence.DoneRemembers | bins/controller/src/space.rs:245-250 | a completed pass remembers what it rendered, not what was wished |
| SpaceConvergence.RepeatIsQuietExactly | bins/controller/src/space.rs:211-262 | one pass over what is remembered deletes and asks nothing, exactly unless it was handed a space that has left the cache since and renders nothing |
| SpaceConvergence.SettledIsQuiet | bins/controller/src/space.rs:211-250 | after a completed pass of a cached space, any number of passes over the same inputs in the same term, however their applies end, delete and ask nothing |
| SpaceConvergence.EgressAfterPass | bins/controller/src/space.rs:205-232 | a completed pass leaves the egress half with its own body when the wish renders; when it does not, the half is gone if and only if the memory did not wrongly say it was |
| SpaceConvergence.StrandedExactly | bins/controller/src/space.rs:205-250 | a pass makes a truthful memory false if and only if it rendered from a memory of nothing, its egress apply took effect, and that call or the ingress apply it then sent failed |
| SpaceConvergence.StrandedExample | bins/controller/src/space.rs:205-250 | two passes after which an egress half stands that nobody wishes for |
| RollLock.Api.Create | bins/slo/src/coordination.rs:220-237 | a create makes a lock with a fresh uid, or changes nothing when one is there |
| RollLock.Api.DeleteIf | bins/slo/src/coordination.rs:261-271 | a delete takes exactly the uid and version it names, or changes nothing |
| RollLock.Api.CreateOrTakeOver | bins/slo/src/coordination.rs:214-239 | undisturbed, the lock is acquired if and only if it is free, or its recorded job is dead, or it records no job and its pod is dead, or it records neither; otherwise nothing changes and the holder is named |
| RollLock.Api.TakeOver | bins/slo/src/coordination.rs:248-290 | a takeover by the same rule replaces exactly the lock it judged by one with a fresh uid, or changes nothing |
| RollLock.Api.Release | bins/slo/src/coordination.rs:342-351 | a release deletes the lock only if it is still the version that was acquired |
| RollLock.StepKeeps | bins/slo/src/coordination.rs:165-351 | the invariant of any number of racing processes is kept by every request, crash, death and garbage collection |
| RollLock.LiveLockIsSafe | bins/slo/src/coordination.rs:248-276 | no single step takes away a lock whose recorded holder is live, save its own release |
| RollLock.RunKeeps | bins/slo/src/coordination.rs:165-351 | the invariant holds at every moment of every run |
| RollLock.RemovedOnlyByRelease | bins/slo/src/coordination.rs:248-290 | over every run, a lock whose recorded pod and job are live is removed by its own holder's release and by nothing else |
| RollLock.MutualExclusion | bins/slo/src/coordination.rs:165-290 | at most one live recorded holder believes it holds the lock, and the stored lock is the one it believes in |
| RollLock.UnrecordedIsTaken | bins/slo/src/coordination.rs:35-64 | the interleaved requests of a probe's takeover go through by the same rule exactly; so a lock recording neither pod nor job is always taken, while its maker still holds it |
| RollLock.HeldAndReleased | bins/slo/src/coordination.rs:220-237 | over a free lock a process holds what it created, and its release leaves the lock free |
| Frames.MaskTwice | bench/term/main.ts:66 | masking with the same key twice is the identity |
| Frames.MaskFlips | bench/term/main.ts:66 | bit by bit, octet i of the payload is flipped exactly where octet i modulo 4 of the key is set |
| Frames.MostSignificantFirst | bench/term/main.ts:45-49 | a length is read with its most significant byte first |
| Frames.BigEndianRoundTrip | bench/term/main.ts:45-51 | the 16-bit and 64-bit lengths read back as written |
| Frames.ClientBinaryWellFormed | bench/term/paste.js:42-55 | the frame a browser sends for a payload within the limit is well formed |
| FrameFilter.Filter.FilterFrames | bench/term/main.ts:38-78 | the updating loop logs and returns what the specification of draining the buffer says; each round takes at least two bytes |
| FrameFilter.Filter.ReadLength | bench/term/main.ts:40-52 | the announced length and the header's end, with the 64-bit length clipped just above the limit |
| FrameFilter.Filter.Feed | bench/term/main.ts:122-129 | after any chunk the whole state is a function of the bytes received, the chunks leaving no trace |
| FrameFilter.Unmask | bench/term/main.ts:65-66 | the in-place loop leaves the masked payload of section 5.3 of RFC 6455 |
| FrameFilter.Unmasked | bench/term/main.ts:65-66 | a fresh copy of the payload, unmasked only when the frame carries a key |
| FrameFilter.RoundIsFrame | bench/term/main.ts:39-77 | a round gives up exactly on a header announcing too long a payload, and takes exactly the wire form of a well-formed frame |
| FrameFilter.ReadsWire | bench/term/main.ts:39-62 | reading the wire form of a frame gives that frame back, whatever follows it |
| FrameFilter.WaitIsIncomplete | bench/term/main.ts:40-60 | a round waits if and only if the buffer holds no complete frame and announces none too long |
| FrameFilter.RoundStable | bench/term/main.ts:39-62 | a round decided on a buffer is decided the same when more bytes follow |
| FrameFilter.Continue | bench/term/main.ts:122-129 | draining two pieces at once is draining the first and feeding the second |
| FrameFilter.ChunkingInvariance | bench/term/main.ts:122-129 | any two splits of one stream forward the same bytes, save the same images at the same places and end in the same state |
| FrameFilter.FrameConservation | bench/term/main.ts:35-78 | however a stream is written as frames and a remainder, those frames are delivered in order and the remainder is held or passed through |
| FrameFilter.ForwardedExactly | bench/term/main.ts:35-78 | of any stream, the bytes forwarded are exactly those of the frames that are no clip, in order, and of a tail announcing too long a frame; the images saved are exactly the clips' payloads after the tag, in order |
| FrameFilter.SavedInPlace | bench/term/main.ts:64-76 | what was forwarded and saved before a clip is saved is exactly that of the frames before it |
| FrameFilter.ClipMeans | bench/term/main.ts:63-67 | a frame is a clip if and only if FIN is set, the opcode's four bits are 0010 and the payload starts with the letter K |
| FrameFilter.ParseCovers | bench/term/main.ts:38-78 | every stream can be written so |
| FrameFilter.ParseUnique | bench/term/main.ts:38-78 | there is only one way to write it so |
| FrameFilter.ClipRoundTrip | bench/term/paste.js:42-55 | an image within the sender's limit, under any mask key and after any frames, is saved as exactly itself before a later byte is forwarded |
| Retention.Api.SeededFromCuts | bins/agent/src/snapshot.rs:311-359 | the result holds exactly the cuts named by a volume not ready that is seeded from this one, or by a workspace or environment not ready that is a clone of it; nothing is returned from a failed listing |
| Retention.Api.GraftedOnto | bins/agent/src/snapshot.rs:333-357 | one listing of parents contributes exactly the cuts its unmaterialised clones graft onto |
| Retention.Api.Retain | bins/agent/src/snapshot.rs:380-439 | a pass deletes only Ready sync points of the head's worktree other than the head that no unserved claim names and no other node's row has as newest, and all of them if no delete is refused; any failed listing deletes nothing |
| Retention.PrunedIsExpendable | bins/agent/src/snapshot.rs:396-426 | which records a pass deletes, field by field of the record, the claims and the replica rows |
| Retention.WasListed | bins/agent/src/snapshot.rs:311-359 | over any run of concurrent passes, claims and records, what a pass holds as listed was listed at some moment of it and was the truth then |
| Retention.DeletesExactly | bins/agent/src/snapshot.rs:380-439 | of the older sync points a pass listed and no peer sends from, it may delete one if and only if nobody of any kind waited for it when that kind was listed, whatever happens in between |
| Retention.SparesAwaited | bins/agent/src/snapshot.rs:296-359 | no pass deletes a cut that some claim waited for when the pass listed that kind of claim |
| Retention.AwaitedSurvives | bins/agent/src/snapshot.rs:296-359 | while a claim waits, its cut survives any passes, claims and records, unless a pass deletes it that had listed the claim's kind before |
| Retention.LateClaimLoses | bins/agent/src/snapshot.rs:401-438 | and such a late claim does lose the cut the pass was going to delete |
| Retention.HeadSurvives | bins/agent/src/snapshot.rs:380-439 | over any interleaving of passes a sync point stays while no pass has it among what its listings let it delete |
| Retention.HeadsFall | bins/agent/src/snapshot.rs:361-439 | two passes over one worktree delete each other's heads if and only if each listed the other's as Ready and found it unprotected; the one that listed first spares the other's |
| SyncBeat.NewestIsHighest | bins/agent/src/sync.rs:110-119 | the newest recorded sync point is the one Ready record every other is below, by generation and then by name |
| SyncBeat.ReadyDecides | bins/agent/src/sync.rs:110-119 | two listings with the same Ready records have the same newest one |
| SyncBeat.ListOrderIrrelevant | bins/agent/src/sync.rs:103-119 | so the order of a listing does not matter |
| SyncBeat.Api.SyncOne | bins/agent/src/sync.rs:122-186 | a beat adds one record, of the generation it read and the definition it noted, exactly when it knows both, nothing it listed shows as in flight, the newest recorded point is behind and the create succeeds |
| SyncBeat.StepKeeps | bins/agent/src/snapshot.rs:137-188 | every step of the beat, of any number of cuts and of any number of retention passes, with a created status kept or dropped, keeps what a record's stamp and cut mean and what a beat under way knows |
| SyncBeat.QuietStep | bins/agent/src/sync.rs:36-54 | while quiet each idle creation is paid out of a debt of at most two (at most one when no beat under way noted an older definition), which grows only where a re-stamp fails or a retention pass deletes the newest sync point |
| SyncBeat.AtMostOneMore | bins/agent/src/sync.rs:36-54 | so while bytes and definition stand still, the creations by beats that listed nothing in flight are at most that debt plus those steps, however beats, cuts and passes interleave |
| SyncBeat.GuardedStep | bins/agent/src/sync.rs:124-133 | when beats create over nothing in flight and no retention pass still to list, sync points are made and stamped in order, no pass deletes the newest, and only a failed re-stamp unsettles |
| SyncBeat.GuardedRun | bins/agent/src/sync.rs:124-133 | so over such runs every creation is an idle one and the unsettling steps are failed re-stamps |
| SyncBeat.StoredIsIdle | bins/agent/src/sync.rs:124-133 | with the created status stored, every beat that creates listed nothing in flight |
| SyncBeat.PendingPassExceeds | bins/agent/src/snapshot.rs:160-188 | and only over such runs: from every state where an idle beat creates before a retention pass has listed, quiet steps without a failed re-stamp lead to a second idle creation |
| SyncBeat.OverACutCreates | bins/agent/src/sync.rs:124-133 | a beat that lists over a single cut in flight creates another sync point if and only if the created status was dropped, however late it reads the generation |
| SyncBeat.Flood | bins/agent/src/sync.rs:124-133 | with the status dropped, once a beat creates, every beat creates again until a cut turns Ready, whatever is written or cut in between |
| SyncBeat.Quiescence | bins/agent/src/sync.rs:42-186 | over whole runs from a worktree never synced, in either configuration: once quiet, at most one more idle creation (two if a beat under way noted an older definition) plus the unsettling steps; if every beat waited for cuts and listings, at most that many creations of any kind plus the failed re-stamps |
| SyncBeat.SkippedMeansCurrent | bins/agent/src/sync.rs:42-54 | a beat that lists with nothing in flight and then creates nothing has found the definition recorded, the generation unmoved, and the bytes recorded if and only if no write tore the newest point |
| SyncBeat.CoveringPointIsCurrent | bins/agent/src/snapshot.rs:210-239 | the covering point holds the live bytes if and only if no write landed between its cut and its re-stamp |
| SyncWake.Clock.WakeWorthy | bins/agent/src/snapshot.rs:201-208 | a person's cut always wakes and leaves the window alone; a background cut wakes if and only if the window is over and nobody exchanged in between |
| SyncWake.OneWakePerWindow | bins/agent/src/snapshot.rs:193-208 | over every interleaving of loads and exchanges two background wakes are a window apart |
| Claim.DecidesExactly | bins/agent/src/claim.rs:415-489 | a node claims if and only if the object names no node, it is not being retired, no other live node owns the volume, the bytes are nowhere, its own, or in its up-to-date replica, and a parent without bytes fits and is not still left to a roomier node; without the bytes it asks again later, without the room it says so |
| Claim.MergeIsClaim | bins/agent/src/claim.rs:415-489 | a decision to claim is an eligible node's, and its merged status differs in phase, node and conditions only |
| Claim.RunKeeps | bins/agent/src/claim.rs:531-605 | at every moment of every run a write in flight was decided on the very version it will be compared with |
| Claim.Api.ReplaceStatus | bins/agent/src/claim.rs:578-589 | the write lands if and only if the version is the one read |
| Claim.Api.ClaimIt | bins/agent/src/claim.rs:531-605 | two attempts at most; a won claim is an eligible node's over the very version decided on and keeps its other fields, a lost one changes nothing; let alone, it is won if and only if the node is eligible for what it holds and, that being stale, for what it re-reads |
| Claim.AttemptIsExact | bins/agent/src/claim.rs:543-589 | a node that decides on the stored version and is let alone writes its three fields over it if and only if it is eligible |
| Claim.LandedClaim | bins/agent/src/claim.rs:531-605 | in every interleaving a landed claim replaces a version with no node, changes only its three fields, and its node was eligible for that very version |
| Claim.ClaimedStays | bins/agent/src/claim.rs:415-422 | the object keeps its node, and no claim lands, until it is un-placed |
| Claim.OneWinner | bins/agent/src/claim.rs:491-605 | between two landed claims there is an un-placement |
| Capacity.ClaimedHere | bins/agent/src/claim.rs:104-134 | the two loops add up exactly what is owed to the running parents without a pod, the asker left out |
| Capacity.RequestedIsSum | bins/agent/src/claim.rs:65-74 | an ended pod requests nothing, any other the sum over its containers, and two listings in a row what both do |
| Capacity.PromiseOfOne | bins/agent/src/claim.rs:106-131 | a parent is owed its size if and only if it runs, is not the asker and has no pod: of its own label, or in its own namespace |
| Capacity.SizeOfOne | bins/agent/src/claim.rs:118-131 | a workspace's size is its own, an environment's one per service |
| Capacity.FitsMeans | bins/agent/src/claim.rs:165-172 | in each dimension a fit holds if and only if nothing is wanted or pods, promises and want are within the allocatable |
| Capacity.AdmitKeeps | bins/agent/src/claim.rs:459-468 | a fresh claim that fits keeps pods plus promises within the allocatable |
| Capacity.StartKeeps | bins/agent/src/claim.rs:86-100 | a parent turning into its pods leaves pods plus promises as they were |
| Capacity.BurstStaysWithin | bins/agent/src/claim.rs:86-134 | however claims and starts alternate, pods plus promises stay within the allocatable |
| Capacity.HalfStartedUndercounts | bins/agent/src/claim.rs:98-100 | between a parent's first pod and its last, on any node, pods plus promises fall short by exactly what the pods still to come request |
| Capacity.HalfStartedOvercommits | bins/agent/src/claim.rs:98-100 | a claim admitted in between is carried on top of all the node carried before, and overcommits it if and only if it runs and would have been refused before the first pod came |
| Capacity.SkipLeavesOut | bins/agent/src/claim.rs:101-117 | the start gate leaves out exactly what is owed to parents of the asking name |
| Capacity.SkipLeavesOutTheAsker | bins/agent/src/claim.rs:101-117 | with names unique that is the asker's own promise |
| Capacity.PromiseIsKept | bins/agent/src/claim.rs:193-215 | a node within its allocatable lets every parent it claimed start |
| Capacity.RoomiestIsBest | bins/agent/src/claim.rs:279-288 | the room chosen fits and has the most free cpu of those that fit, then the most memory, then the lowest name; none is chosen if and only if none fits |
| Capacity.PickIsBest | bins/agent/src/claim.rs:281-288 | and the node picked is the one of that room |
| Capacity.EveryoneElectsTheSame | bins/agent/src/claim.rs:279-288 | the choice depends on the rooms listed, not on their order |
| Tunnel.Counter.Take | bins/gateway/src/tunnel.rs:147-155 | a place is given if and only if the count is below the limit, and the map is that of `Taken` |
| Tunnel.Counter.Release | bins/gateway/src/tunnel.rs:135-145 | the map is that of `Released`, the entry gone with its last holder |
| Tunnel.Gateway.Reserve | bins/gateway/src/tunnel.rs:85-92 | a slot is given if and only if a permit is left and fewer than ten slots of the workspace live; a refusal leaves everything as it was |
| Tunnel.Slot.Charge | bins/gateway/src/tunnel.rs:116-122 | the owner is charged if and only if fewer than a hundred of its slots live; a refusal leaves everything as it was |
| Tunnel.Slot.Drop | bins/gateway/src/tunnel.rs:125-133 | dropping removes exactly this slot, gives back its permit and keeps the accounts |
| Tunnel.StepKeeps | bins/gateway/src/tunnel.rs:85-155 | every lock region of every connection keeps the accounts: counts equal live slots, within their caps, no zero entries, permits plus connections equal the global cap |
| Tunnel.RunKeeps | bins/gateway/src/tunnel.rs:85-155 | so does every interleaving of reservations, charges, refusals and drops |
| Tunnel.AccountsFollowConns | bins/gateway/src/tunnel.rs:104-107 | permits and both maps are determined by the connections alive, so no history leaks into them |
| Tunnel.AllGoneIsFresh | bins/gateway/src/tunnel.rs:104-145 | when every connection has gone the gateway is as it was started |
| Tunnel.PlaceGivenExactly | bins/gateway/src/tunnel.rs:85-92 | a reserving connection becomes a slot if and only if the slots of its workspace are below the cap |
| Tunnel.SecondChargeExactly | bins/gateway/src/tunnel.rs:115-123 | charging a slot keeps the accounts if and only if it was not charged before or the charge is refused |
| SingleUse.Sessions.Spend | bins/gateway/src/tunnel.rs:96-101 | the map is swept of expired ids and gains this one; the answer is whether it was still there |
| SingleUse.EntryIsLatest | bins/gateway/src/tunnel.rs:96-101 | over any call sequence and any clock, an id is held if and only if no call since its latest use came after the expiry it was given, and with that expiry |
| SingleUse.RefusedExactly | bins/gateway/src/tunnel.rs:96-101 | whatever the clock, an id is refused if and only if its latest use is still held when the call has swept |
| SingleUse.RefusedUntilExpiry | bins/gateway/src/tunnel.rs:94-101 | on a monotone clock an id is refused if and only if the expiry of its latest use has not come |
| SingleUse.TrueExactly | bins/gateway/src/tunnel.rs:94-101 | on a monotone clock true is answered to the first call of an id and to the calls after its expiry, and to no other |
| SingleUse.OncePerId | bins/gateway/src/tunnel.rs:94-101 | so two calls of one id are both answered true only if the later comes after the expiry |
| SingleUse.LateSpendsAllPass | bins/gateway/src/tunnel.rs:236-285 | and two calls after the expiry are both answered true |
| SingleUse.HoldsTheUnexpired | bins/gateway/src/tunnel.rs:94-101 | after a call the map holds exactly the id just spent and the spent ids that have not expired, each with its expiry |
| Idle.Idle.Opened | bins/builder-gate/src/idle.rs:33-40 | the slot counts one more, its countdown is cancelled and its stop re-armed |
| Idle.Idle.Closed | bins/builder-gate/src/idle.rs:42-50 | the count falls by one, not below zero, and at zero the countdown starts now; an unknown slug changes nothing |
| Idle.Idle.Seed | bins/builder-gate/src/idle.rs:55-61 | an unknown builder starts idle from now, a known one is left alone |
| Idle.Idle.Due | bins/builder-gate/src/idle.rs:65-76 | the loop returns each due slug once and no other, and marks exactly those stopped |
| Idle.Open.constructor | bins/builder-gate/src/splice.rs:15-21 | taking a guard keeps every builder's count equal to its live guards |
| Idle.Open.Drop | bins/builder-gate/src/splice.rs:23-28 | so does dropping one |
| Idle.SlotsMean | bins/builder-gate/src/idle.rs:18-61 | over any run each field of a slot means what its comment says: the live connections, the start of the idle period, a stop asked for in it |
| Idle.DueExactly | bins/builder-gate/src/idle.rs:63-76 | a builder is returned if and only if nothing has been connected since a close or seed at least the idle period ago and no stop was asked for since the last connection |
| Idle.ReturnedWasIdle | bins/builder-gate/src/idle.rs:20-27 | for the whole idle period before a return no connection was alive and none came |
| Idle.OneStopPerPeriod | bins/builder-gate/src/idle.rs:24-27 | between two returns of a builder something connected to it |

## Left out

- The API server beyond one object's create, compare-and-swap, conditional delete and failure: watches, reflectors, admission, timers, metrics and logging.
- Deletion of the election lease, foreign writers of it, and pods sharing a holder name are assumed away; an acquire from term 2^31-1 is excluded from runs (`Election.InRange`) and described by `Lease.AcquireRaisesByOne`.
- Fence and write as one step: a fence is check-then-act, and the theorems speak of the read and the comparison.
- SpaceConvergence: passes are atomic towards each other there, every fence and request inside one free to fail; `SpaceInterleaving` lifts that for convergence. A request still out when its process dies does not land later. Claims about the two memories across terms of leadership with another writer are not made.
- Hash collisions of the apply memory: a body stands for its hash. Policy and namespace names are injective.
- SpaceReconcilers.Reconciler.MayWrite: takes the fence's answer as given; the lease read and the comparison behind it are `Lease.Ctx.Fence`.
- Converges: takes the wishes and caches fixed and no grant young, as the source's own argument does.
- RollLock.MutualExclusion: speaks of locks that record a pod or a job; `UnrecordedIsTaken` is about the others. `fast_peek`, the wait functions and roll.sh's own loop beyond its judging rule are not part of this model.
- Frames.ClientBinaryWellFormed: that a browser sends an image as one unfragmented frame in the shortest length form is assumed; the filter forwards a first fragment, which has no FIN, instead of saving it.
- FrameFilter.ClipRoundTrip: `Save` is the request to write the clip file; a failing write is logged by the source and the frame is dropped all the same. The HTTP proxying around the filter is not modelled.
- Retention: hand deletion of cuts, `cleanup_parent` and their interleaving with a pass; snapshot names are not reused across volumes. `Retain` is the pass with nobody in between.
- SyncBeat: one worktree on one node (moving nodes changes the counter), one beat at a time, with stop and clone cuts as `OtherCut`; the loop over parents and `build_sync_spec` are left out. A reconcile acts on the record as stored, and a create still out when its process dies does not land later. `OverACutCreates` is about the first cut in flight.
- Claim: the placement lookup, pinned clone cuts, the `NoCapacity` condition's timing and `ensure_binding` are parameters or left out; foreign writers never place an object.
- Capacity.BurstStaysWithin: claims are decided one at a time, a parent starts with all its pods at once, and platform pods do not end on their own; `HalfStartedOvercommits` is what happens when they come one by one.
- Tunnel: authorization, resolving, dialing and the byte pump; the gauge; a poisoned lock reads as an ordinary one.
- Idle: the stop request racing a new connection after the decision, the beat's timer and the byte pump.
- `gc.rs`, `usage.rs`, `decommission.rs`, the janitor sweeps, the package and reference parsers, `lanes.rs`: small claims of their own, or resting on files outside this model.
