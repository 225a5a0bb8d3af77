# zrok operator: the reconciliation protocols, modelled and proved in Dafny

The operator keeps three stores in agreement that can each change behind its back: the Kubernetes resources (spec,
status, two annotations, a finalizer), the zrok controller (shares, and reserved names that outlive shares), and the
in-cluster agent's table of live shares, which every agent restart wipes. This project models the operator's three
reconcilers and the pure functions their decisions rest on, and proves what they keep over whole runs.

**ZrokShare.** `ShareSteps` is one reconcile as a function of the resource, the outside world and a `Plan` that says how
every read, write and remote call of that reconcile turns out. `ShareWorld` interleaves reconciles of any number of
resources with submissions, spec edits, deletions, agent restarts and other users of the account. `ShareController`
carries the same steps out in place, as a class whose fields the methods overwrite, and is proved to agree with the two
(`ShareCluster.Handle` is exactly one `Run` step), so what is proved about runs holds of the imperative code. Proofs:
`Gates` (what must be in order before the first call), `CallOrder` (in which order calls are made), `Served` (what Ready
stands for, which running share is kept), `Ownership`, `OwnReleases`, `NoLeak`, `ReleaseEvidence`, `ReclaimIntent`,
`Convergence`, `Rename`, `Deletion`, `AgentReleases`, `DuplicateClaims`, `ReadyStatus`. `PassedNames`, `RenameLimits` and `Leftovers` say exactly when these results need their
assumptions, `Handover` gives runs in which they fail without them, and `ShareFrames` says what each stage leaves alone.

**ZrokEnvironment.** `EnvironmentProtocol` runs any number of interleaved enable/adopt attempts, each on its own stale
view, call by call; `EnvironmentController` is the reconciler class, proved to be one of these interleavings.

**ZrokAccess.** `Access` holds the heal loop, its class, its fixpoint, and its whole-run invariant.

**Decisions on text.** `FrontendNames`, `Targets` with `TargetProofs`, `Upstream`, `Digest` with `Sorting`, `Conditions`;
`Inventory` is the classification built on them.

The main results are about every input and every run; failures are part of the runs unless a statement says otherwise.
`dafny verify dfyconfig.toml` verifies the project.

## Assumptions about the outside world

- Share tokens and frontend tokens are fresh and not empty; the agent serves only shares the controller lists, with
  equal token, target and endpoints (`ReleaseEvidence.AgentBacked`, `TokensIdentify`).
- At most one listed share carries the frontend name in question, where a lemma says `OneHolder`.
- A share that is created is reported back as requested; a creation call that fails creates nothing.
- A namespace of the cluster is a DNS label, where a lemma about restricted upstreams says so.
- Creating a name that exists succeeds, deleting a name or unsharing a share that does not exist succeeds
  (internal/zrokclient/client.go:130-226). Unsharing also ends the agent's entry.
- All resources of a run live in one environment with a fixed identity. A spec edit lands between reconciles, not
  inside one.

## Where the code falls short of a natural claim

Each of these is proved as an exact condition, and shown to happen.

- Changing the namespace token of a bound share, or dropping nameSelection, leaves the old name reserved
  (`RenameLimits.OldNameStaysExactly`, `Handover.DroppedNameStays`).
- A crash between the release and the annotation leaves the old name reserved (`RenameLimits.LostExactlyByCrash`,
  `RenameLimits.CrashLosesName`, `Handover.CrashKeepsName`).
- The annotation records a name without its namespace token: when the token changes before the name is deleted, another
  name is deleted in its place (`RenameLimits.RecordedNameStaysExactly`).
- A recorded name that another share is served under blocks the resource for as long as that lasts, even without faults
  (`Convergence.StaysBlocked`, `Convergence.ConvergesExactly`).
- Deleting an unbound second claimant while the list of resources cannot be read can take the incumbent's share and name
  (`Leftovers.UnseenClaimantLosesShareExactly`, `Leftovers.UnseenClaimantLosesNameExactly`, `Handover.IncumbentLost`).
- Deletion never looks at the reclaim annotation: a name still to be reclaimed stays reserved after its resource is gone
  (`Leftovers.RecordedNameStays`, `Leftovers.LeavesNoNameExactly`, `Leftovers.OldNameOutlives`).
- A deletion without identity or credential, or whose unshare is refused, finishes all the same and leaves the share
  listed with no resource to answer for it (`Leftovers.ForgottenExactly`, `Leftovers.ForgottenShares`).
- A deletion without identity or credential, or whose unshare is refused, also leaves the agent serving the share, exactly
  when the agent did not answer (`AgentReleases.AttemptReleases`).
- Normalising a target twice is not normalising it once when its query ends in a blank, which a fragment can hide the first
  time (`TargetProofs.NormalizeIdempotent`).
- A Ready patch that fails after creation leaves a share, or an access, that status does not name
  (`NoLeak.ForgetsExactly`, `Handover.CreatedButUnrecorded`, `Access.UntrackedExactly`, `Access.LeftBehind`); so does a
  failed release of an access. A Ready patch that lands rules it out for shares (`NoLeak.ReadyLandsForgetsNothing`).
- A reconcile can abandon the share in status even without faults: exactly when the agent has lost it and serves another
  share under the wanted name (`PassedNames.AbandonedExactly`, `Handover.NamePassesOn`).
- Without an environment identity the remote list is never read, and an agent share found by name is released whatever
  its target (`PassedNames.EvidenceWithoutIdentity`, `Handover.ReleasedWithoutEvidence`).
- Targets that differ in a trailing slash compare unequal exactly when the path holds one of `!'()*[]` and nothing that
  must be percent-encoded (`TargetProofs.TargetsEqualExactly`, `TargetProofs.TrailingSlashCounts`;
  `TargetProofs.TrailingSlashWitness` is one such pair).
- The digest text reads namespace and name together, so only slash-free names (all that the API admits) are told apart
  (`Digest.DigestExactly`, `Digest.DigestOfAdmitted`, `Digest.SlashAmbiguity`).
- Environment deletion goes by status.envZID alone: it leaves an identity enabled exactly when the Secret holds one that
  status does not name yet (`EnvironmentProtocol.TeardownMisses`, and for the reconciler
  `EnvironmentController.DeletionLeavesNothing`; what it does keep to is `EnvironmentController.DeletionContract`), a state that a failed status write after a successful
  Create reaches (`EnvironmentProtocol.UnrecordedReachable`).

## Model

| member | source | states |
|---|---|---|
| Gates.NothingLeavesUnlessAdmitted | internal/controller/share_controller.go:54-151 | unless finalizer, spec, upstream, environment, credential, basic auth and the name's claim are all in order (each said in terms of spec and reads) no call leaves the cluster and the binding stays; otherwise the reconcile goes on to the inventory |
| Gates.BarredUpstreamMakesNoCall | internal/controller/share_controller.go:86-95 | where upstreams are restricted, a URL that does not parse, has another scheme, or whose host is not a Service of the namespace, and the socks backend, never lead to a call |
| Gates.BarredNeverShared | internal/controller/share_controller.go:86-95 | in every run of any resources, with any failures, edits and restarts, a resource whose upstream is never allowed never gets a share |
| Gates.FirstObstacleTold | internal/controller/share_controller.go:78-151 | a resource that is not admitted is told the first obstacle as the reason it is not Ready; where a read failed nothing is written and the reconcile fails |
| Gates.LastExactly | internal/controller/share_controller.go:66-95 | a reconcile does not come back if and only if it just added the finalizer, or only an edit of the spec can help |
| Gates.DeletionLastExactly | internal/controller/share_controller.go:545-672 | a deletion does not come back if and only if the finalizer is gone |
| CallOrder.NamesFirst | internal/controller/share_controller.go:177-190 | whatever fails, no share is released, unshared or created before the wanted name was created and reserved and a recorded one deleted, refused or found wanted again |
| CallOrder.AgentFirst | internal/controller/share_controller.go:379-392 | whatever fails, every unshare of a reconcile comes right after the agent was asked to release the same share; with an identity every release is followed by its unshare, without one nothing is unshared |
| CallOrder.AgentFirstInDeletion | internal/controller/share_controller.go:605-646 | the same of a deletion, whose unshares also need a credential |
| CallOrder.RetainKeepsNames | internal/controller/share_controller.go:420-441 | under policy Retain, with nothing recorded, neither a reconcile nor a deletion gives back or records any name |
| CallOrder.RecordedOnlyFor | internal/controller/share_controller.go:420-441 | only the name that a reserved share was live under is recorded, read off agent, remote share or URL in that order, never the wanted one |
| Served.ReadyMeansServed | internal/controller/share_controller.go:715-785 | whatever fails, a reconcile that leaves the resource Ready either wrote no status, or reports field by field (token, URL, endpoints, reservation, conditions) a share that the agent serves as the spec asks for |
| Served.KeptExactly | internal/controller/share_apply.go:37-140 | a fault-free reconcile keeps the running share if and only if it is active, has the target, modes, closed flag, vanity token and name of the spec, the digest is unchanged, and no dropped name lingers; otherwise it releases it |
| Served.ForeignExactly | internal/controller/share_inventory.go:99-110 | a fault-free reconcile makes no call and reports a name conflict if and only if another share than the one in status is served under the wanted name for another target |
| Served.ListOutage | internal/controller/share_controller.go:155-165 | while the list of shares fails nothing is called outside; a share that the agent serves as asked for is reported, otherwise the failure |
| Served.ConvergedSurvivesOutage | internal/controller/share_controller.go:155-165 | so such an outage changes nothing at all about a converged resource |
| Served.ConvergedIsServed | internal/controller/share_controller.go:192-194 | converged means reported, served as asked for, under the current digest, with the wanted name reserved |
| Served.NameHadExactly | internal/controller/share_controller.go:341-377 | the wanted name is had if and only if it could be created, or was there, and reserved, and is no other account's; a name of another account is reported as a conflict, any other failure as the call that failed |
| Served.ConflictDecides | internal/controller/share_controller.go:280-315 | the 409 handler, question by question: nothing while the list fails or another share holds the name for another target, else report what can be kept, else release what has the desired target |
| Served.FailedTakeDownTold | internal/controller/share_controller.go:196-222 | when the old share cannot be unshared the reconcile stops there, with binding and listing as they were, and reports it |
| Served.FailedCreationTold | internal/controller/share_controller.go:230-276 | when a share cannot be created nothing outside changes, and the failure is reported |
| AgentReleases.AttemptReleases | internal/controller/share_controller.go:605-627 | a deletion asks the agent to release the bound share if and only if it gets to read the environment; afterwards the agent serves it if and only if it did not answer and nothing was unshared |
| AgentReleases.RetriesRelease | internal/controller/share_controller.go:545-627 | over any attempts the agent is asked if and only if one of them gets that far, and serves the share no more if it answers; until then nothing has happened |
| AgentReleases.FinishedMeansReleased | internal/controller/share_controller.go:605-672 | when the finalizer goes at an attempt that found the environment, the agent was asked to release the share, credential or not |
| AgentReleases.UnboundReleaseExactly | internal/controller/share_controller.go:586-646 | with nothing in status, exactly which share a deletion asks the agent to release: the holder it takes for its own, or the one the name turns out attached to |
| AgentReleases.AgentsShareFirst | internal/controller/share_controller.go:594-603 | whatever else the controller lists, the share that the agent serves under an unclaimed name is the first to be released, unless it is listed for another target |
| Convergence.ConvergesWithinThree | internal/controller/share_controller.go:54-315 | from any state with nothing foreign in the way, three fault-free reconciles, through a missing finalizer, a stale holder, a held vanity token or a 409, end in the converged state, and any further number stays there; a new resource is in such a state (`Convergence.NewIsReachable`) |
| Convergence.ConvergesExactly | internal/controller/share_controller.go:459-462 | the same without any word on a name recorded earlier: three or more fault-free reconciles reach the converged state if and only if no other share is served under the recorded name |
| Convergence.StaysBlocked | internal/controller/share_controller.go:459-462 | as long as another share is served under the recorded name, fault-free reconciles change neither status nor annotation nor any share |
| Convergence.Closer | internal/controller/share_controller.go:54-315 | each fault-free reconcile strictly decreases the measure: no finalizer, something in the way, nothing in the way, done |
| Convergence.Fixpoint | internal/controller/share_controller.go:188-194 | a further reconcile of a converged resource (reserved, ephemeral or private) makes no release, unshare, share or delete call and leaves resource, conditions and transition times as they are |
| Convergence.ConvergedMeansReady | internal/controller/share_apply.go:37-59 | converged means Ready=True, annotation equal to the digest of the spec, and a live agent share with the token in status that matches the spec |
| Ownership.OwnedThroughout | internal/controller/share_inventory.go:79-157 | in every run of any resources with any failures, every bound token belongs to its resource, as does every listed share under a claimed name or vanity token |
| Ownership.TokensDisjoint | internal/controller/share_controller.go:200-222 | distinct resources never hold the same share token in status |
| OwnReleases.OnlyOwnSharesReleased | internal/controller/share_controller.go:545-664 | in every run no reconcile, conflict or deletion step releases or unshares a share that was created for another resource |
| NoLeak.NoShareLeaks | internal/controller/share_controller.go:153-276 | in every run, with any pattern of failing lists, agent calls, releases, unshares and other writes, a listed share created for a resource is the one in its status, and a resource that is gone has none |
| NoLeak.ForgetsExactly | internal/controller/share_controller.go:230-276 | a reconcile leaves behind a share that status does not name if and only if it gets as far as creating one, the Ready patch fails, and status does not name that token already |
| NoLeak.ReadyLandsForgetsNothing | internal/controller/share_controller.go:230-276 | so a reconcile whose Ready patch lands leaves no share behind, whatever else fails |
| Handover.CreatedButUnrecorded | internal/controller/share_controller.go:736-773 | one such reconcile written out |
| Leftovers.ForgottenExactly | internal/controller/share_controller.go:605-672 | a deletion whose writes land finishes and leaves the bound share listed if and only if the environment could be read, there was no identity, no credential or the unshare was refused, and the name did not hold it up |
| Leftovers.FinishedForgetsExactly | internal/controller/share_controller.go:605-627 | for any deletion that finishes, under any policy: no identity, no credential, or a refused unshare, and nothing else |
| Leftovers.ForgottenShares | internal/controller/share_controller.go:605-627 | two such deletions written out: a refused unshare, and a missing environment |
| PassedNames.AbandonedExactly | internal/controller/share_controller.go:192-222 | a fault-free reconcile leaves the share in status listed but forgotten if and only if the agent lacks it and serves another one under the wanted name |
| Handover.NamePassesOn | internal/controller/share_controller.go:192-222 | a run of two resources: the agent restarts, the second heals and takes another name, the first takes over its name; a fault-free reconcile then leaves the first one's share listed with no resource naming it |
| PassedNames.EvidenceWithoutIdentity | internal/controller/share_controller.go:317-339 | without an identity every release a reconcile makes has evidence, if and only if it does not get as far as an agent share that it finds only by name and that has another target |
| Handover.ReleasedWithoutEvidence | internal/controller/share_controller.go:317-339 | one such reconcile written out |
| ReleaseEvidence.EvidenceForEveryRelease | internal/controller/share_controller.go:167-311 | whatever Reconcile or its 409 handler releases or unshares is the token in status or a listed share with the desired target; any other holder is never touched, even if found through the agent |
| ReclaimIntent.ReconcileFollows | internal/controller/share_controller.go:420-488 | whatever fails, a reconcile deletes only the recorded name, never the wanted one, records only when nothing is recorded, and forgets only what is settled or wanted again |
| ReclaimIntent.IntentSurvives | internal/controller/share_controller.go:443-470 | while the resource lives, through any run of edits, restarts, failures and retries a recorded name leaves the annotation only at a step that deleted it, was refused as unauthorized, or found it wanted again |
| Leftovers.RecordedNameStays | internal/controller/share_controller.go:545-672 | a deletion, whatever its attempts meet, never gives back a recorded name other than the wanted one |
| Leftovers.NamesAfterDeletion | internal/controller/share_controller.go:629-664 | the names after a deletion that goes through: all those before, less the wanted one exactly when it could be given back |
| Leftovers.LeavesNoNameExactly | internal/controller/share_controller.go:629-664 | neither the wanted nor the recorded name is left if and only if the wanted one was not there or could be given back, and no other was recorded |
| Leftovers.OldNameOutlives | internal/controller/share_controller.go:545-672 | a deletion without any failure after which the recorded name is still reserved |
| Rename.NamesConserved | internal/controller/share_controller.go:177-228 | over any renames, agent restarts and fault-free reconciles: when the status is current, the names held are those held before plus exactly the wanted one, which is reserved; in between there is at most one, reserved, and a bound share always has one |
| Rename.NewIsUnbound | internal/controller/share_controller.go:177-228 | every new resource in an account without shares is where such a run can start |
| Rename.BoundSync | internal/controller/share_controller.go:200-276 | one fault-free reconcile of a bound share, renamed or not, its agent entry there or gone, binds the wanted name and reserves no other |
| RenameLimits.OldNameStaysExactly | internal/controller/share_controller.go:420-458 | after any change of the selection of a bound share, one fault-free reconcile takes the share down with nothing recorded, and the old name stays if and only if the namespace token is no longer its own |
| RenameLimits.RecordedNameStaysExactly | internal/controller/share_controller.go:443-470 | a name recorded earlier under some namespace token stays after the next fault-free flush if and only if the namespace token is another one by then, or the name is wanted again |
| RenameLimits.DroppedSelectionKeepsName | internal/controller/share_inventory.go:66-69 | when the selection is dropped the old name stays |
| Handover.DroppedNameStays | internal/controller/share_inventory.go:66-69 | one such reconcile written out |
| RenameLimits.CrashLosesName | internal/controller/share_controller.go:204-228 | when the annotation after the release does not land, no later fault-free reconcile, rename or agent restart gives the old name back |
| RenameLimits.LostExactlyByCrash | internal/controller/share_controller.go:435-470 | after a rename, two reconciles fault-free but for that annotation leave the old name if and only if it did not land |
| Handover.CrashKeepsName | internal/controller/share_controller.go:204-228 | such a crash and the reconcile after it written out |
| Deletion.FinalizerContract | internal/controller/share_controller.go:545-672 | over any number of attempts with an identity, a credential and a successful list, everything else free to fail: once the finalizer is gone, the share in status at the start is gone or its unshare was refused, and under policy Delete the one attempt that dropped the finalizer, by its own calls alone, found the name gone, refused, claimed by a live resource, or attached to a share that the remote list it read shows not to be ours |
| Deletion.HolderContract | internal/controller/share_controller.go:594-603 | the same for an empty status, when the lists are read and nobody else claims the name: the share under the name with the desired target is gone or its unshare was refused |
| Deletion.DeletionEnds | internal/controller/share_controller.go:629-664 | with the calls it depends on succeeding, deletion ends after at most one attempt more than there are shares under the name |
| Deletion.TwoAttempts | internal/controller/share_controller.go:636-646 | with one holder at most, two attempts drop the finalizer |
| DuplicateClaims.Frozen | internal/controller/share_controller.go:143-151 | while two live resources claim one name, any reconciles of the two make no call at all outside the cluster and keep both bindings |
| DuplicateClaims.IncumbentSurvives | internal/controller/share_controller.go:590-634 | after any such reconciles, deleting the unbound claimant leaves the incumbent's share, agent entry, name and binding intact |
| Leftovers.UnseenClaimantLosesShareExactly | internal/controller/share_controller.go:590-664 | when the list of resources cannot be read, deleting the unbound claimant takes the share under the name if and only if it takes it for its own by agent or target and the unshare works, or the name turns out attached to that share, which looks like its own, and the second unshare works |
| Leftovers.UnseenClaimantLosesNameExactly | internal/controller/share_controller.go:590-664 | and the name goes too if and only if, under policy Delete, the first unshare works and so does deleting the name, which is the account's own |
| Handover.IncumbentLost | internal/controller/share_controller.go:590-593 | one such deletion written out: share and name of the other resource are gone |
| ReadyStatus.ReadyMeansBacked | internal/controller/share_controller.go:736-794 | in every reachable status, Ready=True comes with EnvironmentReady, ShareCreated and NameReady True and a non-empty token, and a status without token has neither URL nor endpoints |
| ShareController.ShareCluster.Handle | internal/controller/share_controller.go:54-70 | handling one request is exactly one step of the world: the resource, everyone else's resources, and the outside |
| ShareController.ShareReconciler.Reconcile | internal/controller/share_controller.go:54-278 | the in-place reconcile agrees with the step function on state and outcome |
| ShareController.ShareReconciler.HandleShareConflict | internal/controller/share_controller.go:280-315 | the in-place 409 handler agrees with the step function |
| ShareController.ShareReconciler.TakeDown | internal/controller/share_controller.go:196-228 | which share is released, the cleared binding, and the reclaimed name |
| ShareController.ShareReconciler.EnsureReservedName | internal/controller/share_controller.go:341-377 | create then promote, with the error paths |
| ShareController.ShareReconciler.ReclaimPreviousName | internal/controller/share_controller.go:420-441 | record the intent, then flush it |
| ShareController.ShareReconciler.FlushReclaimName | internal/controller/share_controller.go:443-470 | delete the recorded name and forget it, or keep it for a retry |
| ShareController.ShareReconciler.MarkShareReady | internal/controller/share_controller.go:715-785 | the whole ready status, then the digest annotation |
| ShareController.ShareReconciler.ReconcileDelete | internal/controller/share_controller.go:545-672 | the in-place deletion agrees with the step function |
| Inventory.ClassifyShare | internal/controller/share_inventory.go:79-111 | token first, then name, then vanity token; a holder with another target and token is foreign |
| Inventory.OtherShareWithFrontendName | internal/controller/share_inventory.go:139-157 | finds another live claimant of the name, and misses none |
| EnvironmentProtocol.EveryIdentityAccounted | internal/controller/environment_controller.go:270-385 | in every interleaving, with stale reads, planted or lost Secrets and any failures, the enabled identities are exactly, and without overlap, those held by a run in flight, the one in the owned Secret, and those given up; status names only recorded ones |
| EnvironmentProtocol.OneIdentity | internal/controller/environment_controller.go:335-346 | with successful Disable calls and nobody else touching the Secret, once no run holds an identity at most one is enabled, that of the owned Secret; status is empty or names it |
| EnvironmentProtocol.TwoTriesSettle | internal/controller/environment_controller.go:270-385 | from any quiet state two undisturbed runs leave one identity, in the owned Secret and in status, even past a planted or incomplete Secret |
| EnvironmentProtocol.EnabledOnceStays | internal/controller/environment_controller.go:378-384 | once enabled, no further run changes anything, whatever fails |
| EnvironmentProtocol.SecretDecides | internal/controller/environment_controller.go:361-385 | a Secret that is not owned or has no identity is deleted and never adopted; a good one is recorded in an empty status and otherwise only compared; nothing is enabled |
| EnvironmentProtocol.NoSecretEnables | internal/controller/environment_controller.go:290-357 | without a Secret, what is enabled, created, recorded and disabled again, for every pattern of failures |
| EnvironmentProtocol.AloneIsARun | internal/controller/environment_controller.go:270-357 | an undisturbed reconcile is one of the interleavings |
| EnvironmentProtocol.UnrecordedReachable | internal/controller/environment_controller.go:348-355 | a run without interference reaches that state |
| EnvironmentController.NothingEnabledUnlessAdmitted | internal/controller/environment_controller.go:76-97 | without finalizer, readable token and allowed image a reconcile enables and records nothing and says why; past these the store is the one ensureEnabled leaves |
| EnvironmentController.NeverAllowedNeverEnabled | internal/controller/environment_controller.go:92-97 | however often it is reconciled, an environment whose image is never allowed never gets an identity |
| EnvironmentController.WhatIsReported | internal/controller/environment_controller.go:99-190 | past the gate, the reason shown, and when uniqueID and agentService are recorded |
| EnvironmentController.AgentIsReported | internal/controller/environment_controller.go:133-190 | what AgentReady and Enabled say for an agent that is down, silent or up; a silent one leaves Enabled as it was |
| EnvironmentController.DeletionExactly | internal/controller/environment_controller.go:192-249 | deletion touches the store if and only if the shares are listed, no live one refers to the environment, and the identity in status is retained or was disabled; until then the finalizer stays, and a blocked deletion changes nothing of the status but the Ready condition |
| EnvironmentController.ReadyIsHonest | internal/controller/environment_controller.go:64-190 | from any state, a reconcile whose status writes land reports Ready if and only if every part succeeded, and then Enabled, AgentReady and the trusted identity agree |
| EnvironmentController.EnvironmentReconciler.EnsureEnabled | internal/controller/environment_controller.go:270-357 | the in-place run agrees with the undisturbed protocol run |
| EnvironmentController.EnvironmentReconciler.AdoptIdentitySecret | internal/controller/environment_controller.go:361-385 | trust, discard, record or reject, as in the protocol |
| EnvironmentController.EnvironmentReconciler.Reconcile | internal/controller/environment_controller.go:64-190 | the whole new status and store |
| EnvironmentController.EnvironmentReconciler.ReconcileDelete | internal/controller/environment_controller.go:192-249 | blocked by a live share, else disabled, dropped and released |
| Access.AtMostOneAccess | internal/controller/access_controller.go:45-140 | in every run with landed Ready patches and successful releases, each resource has at most one live access, the one in its status, and none once it is gone |
| Access.UntrackedExactly | internal/controller/access_controller.go:81-137 | a reconcile leaves an access behind if and only if it starts one and the Ready patch fails, or clears one that still runs because its release failed |
| Access.LeftBehind | internal/controller/access_controller.go:81-137 | both ways written out |
| Access.DeletionLeavesExactly | internal/controller/access_controller.go:201-219 | a deletion leaves the access running if and only if the environment cannot be read or the release fails |
| Access.KeptExactly | internal/controller/access_controller.go:81-106 | a running access is kept if and only if it is active, leads to the share of the spec, and listens where the spec asks, ":0" meaning any port; otherwise it is taken down or at least forgotten |
| Access.OneStepServes | internal/controller/access_controller.go:81-137 | after one fault-free reconcile the access in status is such a one, and status gives its address |
| Access.WaitsForEnvironment | internal/controller/access_controller.go:57-77 | before finalizer and environment are ready the agent is left alone, and status says why |
| Access.NoTokenNoAddress | internal/controller/access_controller.go:101-161 | in every run, with any failures, a status without token has no address and is not Ready |
| Access.OneStepHeals | internal/controller/access_controller.go:81-137 | from any state one fault-free reconcile leaves the access active, not drifted, reported as it is, and Ready |
| Access.HealedStays | internal/controller/access_controller.go:183-199 | a further reconcile changes nothing, binds to any port included |
| Access.AccessReconciler.Heal | internal/controller/access_controller.go:81-137 | the in-place heal loop agrees with the step function |
| Access.AccessReconciler.FindServing | internal/controller/access_controller.go:85-97 | the first active access under the token, unless it has drifted |
| Access.AccessReconciler.Reconcile | internal/controller/access_controller.go:45-140 | the in-place reconcile agrees with the step function |
| Access.AccessReconciler.ReconcileDelete | internal/controller/access_controller.go:201-219 | the finalizer goes whatever becomes of the release |
| Conditions.HistoryIsMap | internal/status/conditions.go:9-46 | over any history of updates types stay unique and the list acts as a map, one key at a time |
| Conditions.SinceIsLastFlip | internal/status/conditions.go:23-33 | each transition time is that of the type's last status flip in the history |
| Conditions.MessageShown | internal/status/conditions.go:11-46 | after any history no message is longer than 1024 bytes, and the one shown is the last one written, cut with three dots where longer |
| Conditions.ApplyNoOp | internal/status/conditions.go:17-22 | writing what is there changes nothing |
| Conditions.ApplyLookup | internal/status/conditions.go:49-66 | a lookup after an update sees it, and every other type unchanged |
| Conditions.ConditionList.SetCondition | internal/status/conditions.go:9-46 | the in-place upsert is the map update |
| Digest.DigestExactly | internal/controller/share_apply.go:87-117 | for fields without line breaks two specs hash the same text if and only if they agree on every digested field after defaulting, up to the order of grants and email domains, namespace and name read together |
| Digest.DigestOfAdmitted | internal/controller/share_apply.go:87-117 | for slash-free names that is agreement on every field |
| Digest.SlashAmbiguity | internal/controller/share_apply.go:93 | two different names with one text |
| Digest.ShareApplyDigest | internal/controller/share_apply.go:87-117 | the builder writes the specified lines, lists sorted |
| Sorting.SortIsMultiset | internal/controller/share_apply.go:96-97 | sorted lists are equal if and only if they are permutations of each other |
| FrontendNames.NameUrlAgreement | internal/zrokclient/share.go:55-100 | for a dotless name, an endpoint matches it if and only if its host has a dot and the name read off it is the lowered name |
| FrontendNames.HostRecovered | internal/zrokclient/share.go:86-100 | the host is recovered from any URL with a plain host, with or without scheme, port and path |
| FrontendNames.OneLabelPerEndpoint | internal/zrokclient/share.go:55-61 | an endpoint matches at most one dotless name, up to letter case |
| FrontendNames.NameRecovered | internal/controller/ingress_controller.go:172-188 | the name comes back from scheme, name, either zrok suffix and any path |
| FrontendNames.IngressReservedName | internal/controller/ingress_controller.go:172-188 | the trims in sequence, with the first suffix that fits cut off |
| TargetProofs.TargetsEqualExactly | internal/zrokclient/share.go:103-128 | targets are equal if and only if lowered scheme, lowered host, effective port, path spelling, query and decoded user information agree, whatever the fragments; without percent signs the path spelling is decided by SamePath |
| TargetProofs.PlainUsers | internal/zrokclient/share.go:112-127 | user information without percent signs is equal if and only if it is written the same |
| TargetProofs.UnparsedExactly | internal/zrokclient/share.go:112-115 | texts that do not parse are equal if and only if they agree up to case, outer blanks and trailing slashes |
| TargetProofs.BlanksIgnored | internal/zrokclient/share.go:108-111 | blanks around a target play no part |
| TargetProofs.NormalizeIdempotent | internal/zrokclient/share.go:107-128 | normalising twice is normalising once if and only if the query does not end in a blank |
| TargetProofs.NormalizeText | internal/zrokclient/share.go:107-128 | what normalising does to each part of a target: user information, host, port, path, query, fragment |
| TargetProofs.TrailingSlashCounts | internal/zrokclient/share.go:124-127 | the whole family of paths for which a trailing slash breaks equality |
| Upstream.HostGrammar | internal/controller/upstream.go:15-54 | a host passes if and only if it is l, l.ns, l.ns.svc or l.ns.svc.cluster.local for a DNS label l |
| Upstream.AllowedExactly | internal/controller/upstream.go:15-50 | a URL is allowed if and only if it parses, has one of the four schemes, and its lowered host is of that grammar |
| Upstream.JudgedByParts | internal/controller/upstream.go:15-50 | for a written target, which verdict it gets, decided by scheme and host alone |
| Upstream.BadOtherwise | internal/controller/upstream.go:16-29 | a bad URL is one that does not parse, or has an allowed scheme and an empty host |
| Upstream.LabelExactly | internal/controller/upstream.go:11-54 | the label test accepts the words of the pattern up to 63 bytes |
| Upstream.OneNamespace | internal/controller/upstream.go:34-48 | no dotted host passes for two namespaces |
| Upstream.NoServiceIsIP | internal/controller/upstream.go:15-54 | no host of that grammar looks like an IP address |
| Upstream.ValidateShareUpstream | internal/controller/upstream.go:15-50 | the loop over suffixes decides as specified, with each rejection |

## Left out

- Transport, error texts and their matching: a call answers with success, unauthorized, attached or failed.
- SHA-256: the annotation holds the hashed text itself, which amounts to taking the hash as injective.
- Basic auth, OAuth, insecure and access grants as parts of a share request: no inventory reports them back; they enter through the digest, which covers them all (`Digest.DigestExactly`).
- Served.ReadyMeansServed: takes the endpoints of a new share to carry the wanted name, and shareMode to be public or private.
- Events, metrics, logs, labels, requeue durations, watches, indexes and the work queue.
- Fixed condition messages go with their reasons; only texts from outside are carried. Reasons and modes are enumerations.
- PatchStatus as re-read, patch and retry: a status patch either lands as a whole or not, and no edit falls inside a reconcile.
- Several environments, and a change of environmentRef, which leaves the old environment's share behind.
- Construction and comparison of Deployment, Service, PVC and NetworkPolicy: the environment reconcile is told which of them failed first.
- Environment deletion while enable runs are in flight: deletion is modelled on the quiet state.
- The Ingress reconciler, except for the reserved name it derives.
- Host texts are byte strings with ASCII letters; url.Parse is modelled for hosts without brackets or percent signs, and other hosts count as unparsable. Of several colons in a host the last one starts the port, as in Go before 1.26, which refuses such hosts.
- Upstream.ValidateShareUpstream: an IPv6 address in brackets, or a percent sign in a host, is rejected as unparsable instead of as an address or as no Service. No such host is allowed either way.
- Upstream.AllowedExactly: for the same hosts, "parses" is what the model calls parsing.
- `nil` entries in the agent's lists.
- NoLeak.NoShareLeaks: assumes one resource per reserved name and vanity token over the run, Ready patches that land, and a deletion that is authorized; what the code does otherwise is stated by `PassedNames.AbandonedExactly`, `NoLeak.ForgetsExactly` and `Leftovers.ForgottenExactly`.
- Ownership.OwnedThroughout: assumes the same exclusive claims; two resources that pass a name to each other can adopt one share in turn.
- ReleaseEvidence.EvidenceForEveryRelease: assumes an environment identity and one holder per name; without an identity, `PassedNames.EvidenceWithoutIdentity` is exact.
- ReclaimIntent.IntentSurvives: is about resources that are not being deleted; for deletion see `Leftovers.RecordedNameStays`.
- Rename.NamesConserved: one resource, one namespace token, fault-free reconciles; `RenameLimits` says what a changed token or a lost annotation does.
- Convergence.ConvergesWithinThree: assumes shareMode public or private, one holder of the wanted name, a vanity token within reach, and that no other share is served under a name that is about to be reclaimed or is recorded for it; for a recorded one `Convergence.ConvergesExactly` is exact.
- DuplicateClaims.IncumbentSurvives: assumes that the deletion can list the resources; what it does otherwise is stated by `Leftovers.UnseenClaimantLosesShareExactly` and `Leftovers.UnseenClaimantLosesNameExactly`.
- Access.AtMostOneAccess: assumes Ready patches that land and releases that succeed; `Access.UntrackedExactly` is exact.
