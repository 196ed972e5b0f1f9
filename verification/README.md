# CommitGate: a verified model of workspace transactions

CommitGate promotes what an agent wrote only after trusted checks pass, by renaming a
staged tree over the live workspace. This project models the code that makes that safe
and proves what it promises: one outcome per crash, one use per permit, one meaning per
sealed proposal, one View per state.

## How the model is organised

**Promotion and recovery.** `Protocol` holds the durable state of one agent (live tree,
staging, backups, journals, permits, version index, database head, receipts, recovery
events, admission lock), the atomic effects on it (`Apply`), and the rule under which the
code applies each effect (`Allowed`). `Runs` proves safety over all sequences of allowed
effects; a kill is where a sequence stops. `RecoveryPlan` says what one undisturbed visit
of startup recovery does to a journal or receipt, `RecoveryPass` proves the all-or-nothing
and convergence theorems about complete passes. One effect, `ReleaseUnfinished`, unlocks an
agent over a swap that is not finished; the records of such orphaned swaps are kept apart
and `OnDisk` puts them back where they lie. `UnfinishedRelease` proves what a pass makes of
them, and exactly when that is what the database names; `Reinstatement` proves that the
invariant holds again after it and what any later history can rely on; `FailingHistories`
builds two histories in which recovery does not deliver. `HostState.Host` is the process: every
durable effect goes through one method that may fail and that may only be called where
`Allowed` holds, so `Transaction`, `Coordinator`, `AgentTransaction`, `VersionRollback`
and `StartupRecovery`, which follow the code step by step under arbitrary faults, are
proved to stay within the rules, and everything proved about runs holds of them.
`PermitMachine` splits each permit call into its file operations and interleaves any
number of processes; `PermitStore` is the store one process uses.

**Trees.** `PathPolicy`, `FileTree`, `TreeWalk`, `ManifestWalk`, `Changes`, `Sealing` and
`Staging` model the pipeline that seals a candidate and rebuilds it in staging: path
classes, the recursive copy and listing, permission bits, the payload check, the diff and
the static verdict. `ProposalChain` joins them to the protocol: it states when a promotion
goes through in terms of check results, payload, live tree and manifest.

**Product state.** `ViewFence` is the agent row whose generation and session epoch fence
stale runs; `WorkerProjection` rebuilds the product database from the Worker's facts.

**Smaller cores.** `TransitionLog` (hash-chained event files), `TrustedChecks` (three
implementations of one verdict), `Glob` (glob to regular expression), `RelayRegistry`
(pruned relay capabilities).

SHA-256 over canonical data is taken as injective: a digest is represented by what it
digests. `rename`, atomic JSON replacement and exclusive creation are atomic; a recursive
removal may stop half way and leave a torn tree.

## What the code does not deliver, and exactly when it does

- A consumed permit can read REVOKED later, when another process read it while it was
  still live and writes afterwards. It stays CONSUMED if and only if no such write is
  pending, hence always when one process runs at a time (`PermitMachine.ConsumedIsFinalIff`,
  `PermitMachine.ConsumedForGood`). At-most-once holds regardless.
- `stageRollback` re-reads its permit outside the block that undoes the swap
  (`apps/server/src/commitgate/version-store.ts:205-216`). If that read fails, the error
  counts as an ordinary one and the agent is unlocked with the swapped tree live, its
  journal waiting for the database and its backup in place
  (`apps/server/src/agent-service.ts:1832`); this happens if and only if the swap went
  through and the read failed (`VersionRollback.StageRollback`,
  `VersionRollback.PerformRollback`). A recovery pass takes such a swap back. It still
  realises what the database names, in every listing order, if and only if every backup
  that it puts back holds what the database names (`UnfinishedRelease.RealisesDatabaseIff`):
  always while no lock is released that way (`UnfinishedRelease.GuardedIsRealised`), and
  right after one (`UnfinishedRelease.RightAfterIsRealised`). When the same rollback is
  asked for again and committed, the next pass undoes it, whatever the order
  (`FailingHistories.CommittedRollbackIsLost`). On an unlocked agent that pass restores the
  invariant (`Reinstatement.UnlockedPassHeals`), and the content the database names comes back
  with the next commit and with nothing else (`Reinstatement.RecoversAfterwards`).
- An open promotion receipt that cannot be read when its run fails does not lock the agent
  (`apps/server/src/agent-service.ts:2641-2656`, `AgentTransaction.ExecuteRun`). A pass
  asks for manual intervention if and only if such a receipt has no journal and its base is
  no longer the outcome (`RecoveryPass.PassRecovers`); a history that ends there is
  `FailingHistories.UnreadReceiptNeedsRepair`.
- Two recovery passes are needed, not one: a receipt stays open after the first exactly
  when its journal was still PREPARING (`RecoveryPass.FirstPassLeaves`).
- A compiled `**` does not cross a line terminator: the compiled globs mean what the direct
  matcher says on exactly the paths that have none (`Glob.CompiledAgreesIff`).
- An event whose sequence has thirteen digits gets a name the log never lists
  (`TransitionLog.NamedBelowLimit`).
- Replaying the Worker's facts is idempotent exactly unless the agent is busy under another
  admission than that of the newest fact the product does not reflect yet, with no run
  queued or running save those the facts settle (`WorkerProjection.AppliesOnceIff`); an
  input on which it is not is `WorkerProjection.StrandedAgentMoves`, and load makes it
  impossible by clearing the leases (`WorkerProjection.IdempotentAfterLoad`).
- With a repeated required check id the runner and the coordinator disagree
  (`TrustedChecks.DecidersAgreeIff`).
- The pruned relay registry answers like one that never forgets if and only if no
  activation comes after the expiry of the revocation, or of the lease under another
  digest, that should have refused it (`RelayRegistry.InvisibleIff`). With one expiry per
  nonce that never happens (`RelayRegistry.PruningIsInvisible`); a revocation that names
  an earlier expiry than its lease brings it about (`RelayRegistry.ShortRevocationIsForgotten`).

## Model

| member | source | states |
|---|---|---|
| `Protocol.StepKeepsInv` | apps/server/src/commitgate/workspace-transaction.ts:186-366 | every durable effect the code applies keeps the invariant tying trees, journals, permits, versions, database head, receipts and events together |
| `Runs.RunKeepsInv` | apps/server/src/commitgate/recovery.ts:41-279 | the invariant holds wherever any legal history is cut off |
| `Runs.BaseNeverLost` | apps/server/src/commitgate/workspace-transaction.ts:253-366 | in every reachable state, orphaned swaps included, an unfinished swap the database head does not name has its base at the live path or intact in the backup, and the live path is missing only if the backup of the run under the lock is there |
| `Runs.TornBackupNeverRestored` | apps/server/src/commitgate/workspace-transaction.ts:325-335 | a backup is torn only after the database names its run; from then on it is never restored and that run never rolled back |
| `Runs.RunKeepsRecords` | apps/server/src/commitgate/receipt-store.ts:103-116 | over whole histories no begun swap is forgotten, no journal changes its permit, no TERMINAL receipt is rewritten |
| `Runs.OneSwapPerPermit` | apps/server/src/commitgate/promotion-permit-store.ts:114-208 | a swap begins only after its permit is durably CONSUMED, and no two swaps of a history share a permit |
| `Runs.ExactPromotion` | apps/server/src/commitgate/promotion-permit-store.ts:74-89 | every committed run promoted exactly the sealed tree its consumed permit names, which is the verifier's input, with complete passing evidence, over the permit's base; the check before the swap saw exactly the View and the evaluation context the permit names; receipt, live tree and database agree |
| `Runs.CommitPoint` | apps/server/src/commitgate/recovery.ts:153-173 | at the database commit the live tree is the journalled target, the run holds the lock and the index head records the target |
| `Runs.TheCommitDecides` | apps/server/src/agent-service.ts:2177-2219 | the database commit moves the outcome from the admitted base to the target |
| `Runs.OnlyTheCommitDecides` | apps/server/src/commitgate/recovery.ts:146-215 | no other effect of a transaction or of recovery moves the outcome, an unfinished release excepted |
| `Runs.UnfinishedReleaseDecides` | apps/server/src/agent-service.ts:1832 | unlocking over an unfinished swap moves the outcome from the base to the swapped tree although the database still does not name the run |
| `Runs.GuardedRunsAreFaithful` | apps/server/src/commitgate/recovery.ts:153-173 | without such a release, the outcome of a crash anywhere has the content the database head names |
| `Runs.FaithfulIff` | apps/server/src/commitgate/recovery.ts:153-173 | from any state of the invariant and without such a release, the outcome has the content the database names iff it had it at the start or the history commits |
| `Runs.FateOfRun` | apps/server/src/commitgate/recovery.ts:146-215 | a stretch of history without a commit leaves the outcome where it was |
| `Runs.AuditIsConsistent` | apps/server/src/commitgate/receipt-store.ts:118-158 | recovery events never repeat over a whole history and never report one run both ways |
| `RecoveryPlan.CommittedIffNamed` | apps/server/src/commitgate/recovery.ts:153-185 | for a reachable pending journal, the ladder's test of version, database head and tree succeeds exactly when the database head names the run, and then the rollback version agrees |
| `RecoveryPlan.RestoreBackupKeeps` | apps/server/src/commitgate/workspace-transaction.ts:345-366 | undoing an uncommitted swap always succeeds and keeps everything of other runs |
| `RecoveryPlan.UpdateRecoveredReceiptKeeps` | apps/server/src/commitgate/recovery.ts:332-353 | the acknowledged event is present once, an open receipt becomes terminal, a terminal one is untouched |
| `RecoveryPlan.MarkReceiptRolledBackKeeps` | apps/server/src/commitgate/recovery.ts:355-387 | the same for the rolled-back event and receipt |
| `RecoveryPlan.RevertKeeps` | apps/server/src/commitgate/version-store.ts:273-286 | reverting a rolled-back run's version makes the index agree with the database and keeps the rest |
| `RecoveryPlan.RecoverJournalCloses` | apps/server/src/commitgate/recovery.ts:97-223 | one visit closes any reachable journal, acknowledged exactly past the commit point, without manual intervention, keeping the outcome and all other runs' records |
| `RecoveryPass.RecoverJournalsCloses` | apps/server/src/commitgate/recovery.ts:80-224 | the loop over all journals, in any listing order |
| `RecoveryPass.RecoverReceiptKeeps` | apps/server/src/commitgate/recovery.ts:230-264 | a pending receipt without a journal is disposed of, and left to manual repair exactly when the live tree is not its base |
| `RecoveryPass.PassRecovers` | apps/server/src/commitgate/recovery.ts:41-279 | a pass over any reachable disk without an orphaned swap realises its outcome, closes every journal, leaves no backup or staging, settles the head, and reports manual intervention iff a stale promotion receipt is open |
| `RecoveryPass.AllOrNothing` | apps/server/src/commitgate/recovery.ts:146-215 | kill anywhere a history that releases no lock over an unfinished swap: after one pass the tree is exactly the base or exactly the target, the target iff the database head names the run under the lock, and its content is the one the database names |
| `UnfinishedRelease.RealisesDatabaseIff` | apps/server/src/commitgate/recovery.ts:146-215 | over every history, whatever locks it released: a pass in any listing order leaves the content the database names live and the run it names acknowledged iff every swap it takes back has in its backup what the database names |
| `UnfinishedRelease.GuardedIsRealised` | apps/server/src/agent-service.ts:1805-1834 | that is so in every history that releases no lock over an unfinished swap |
| `UnfinishedRelease.RightAfterIsRealised` | apps/server/src/agent-service.ts:1832 | and in a history that ends with such a release |
| `UnfinishedRelease.UnlockedPassUndoes` | apps/server/src/commitgate/recovery.ts:199-206 | a pass over an agent unlocked over unfinished swaps ends in the base of one of them, whatever the database names |
| `Reinstatement.VisitBesideOrphans` | apps/server/src/commitgate/recovery.ts:146-215 | the visit of a closed or prepared journal does the same whether or not orphaned swaps lie beside it |
| `Reinstatement.UnlockedPassHeals` | apps/server/src/commitgate/recovery.ts:41-279 | a pass over an unlocked agent, whatever swaps were orphaned, leaves no orphan, backup, staging tree or open journal, index and database agreed on the head, and a disk that satisfies the invariant |
| `Reinstatement.UnlockedConverges` | apps/server/src/commitgate/recovery.ts:41-279 | from there too the second pass is the last that changes anything, whatever the listing orders |
| `Reinstatement.RecoversAfterwards` | apps/server/src/commitgate/recovery.ts:41-279 | after that pass any later history without such a release recovers to its outcome with everything closed; the content the database names is live iff it was after the pass or the history has committed since |
| `FailingHistories.CommittedRollbackIsLost` | apps/server/src/commitgate/version-store.ts:215 | a history from a fresh agent in which a committed and acknowledged rollback is replaced by the base of an abandoned one in every pass, while the database still names it |
| `FailingHistories.UnreadReceiptNeedsRepair` | apps/server/src/commitgate/recovery.ts:257-264 | a history whose every pass asks for manual intervention, with no unfinished swap |
| `RecoveryPass.RestartedRecovery` | apps/server/src/commitgate/recovery.ts:41-279 | recovery killed and restarted any number of times ends in the same tree |
| `RecoveryPass.Converges` | apps/server/src/commitgate/recovery.ts:97-152 | two passes reach a fixpoint of every further pass, whatever the listing orders |
| `RecoveryPass.FirstPassLeaves` | apps/server/src/commitgate/recovery.ts:147-152 | after one pass a journalled receipt is open iff it was open and its journal PREPARING; terminal receipts are unchanged |
| `HostState.Host.Do` | apps/server/src/commitgate/workspace-transaction.ts:368-376 | an effect happens whole or not at all, is one more legal step of the history, and keeps the outcome unless it is the commit |
| `HostState.Host.AdmitRun` | apps/server/src/agent-service.ts:1992-2013 | admission records the run and the tree it starts from, and only on an unlocked agent |
| `HostState.Host.ReleaseAgent` | apps/server/src/agent-service.ts:2864-2893 | the lock is dropped where no swap is unfinished and index and database agree |
| `HostState.Host.ReleaseOverSwap` | apps/server/src/agent-service.ts:1832 | the lock is dropped over an unfinished rollback, whose journal and backup stay |
| `HostState.Host.DeleteBackup` | apps/server/src/commitgate/workspace-transaction.ts:332 | a failed recursive removal leaves at most a torn backup of that run, and only past the commit |
| `Transaction.Stage` | apps/server/src/commitgate/workspace-transaction.ts:195-213 | staging holds exactly the assembled tree or the step failed; nothing else changes, no backup is ever deleted here |
| `Transaction.UndoSwap` | apps/server/src/commitgate/workspace-transaction.ts:284-306 | base back at the live path, backup gone, journal ROLLED_BACK; or the journal is unchanged and a fault is recorded |
| `Transaction.Swap` | apps/server/src/commitgate/workspace-transaction.ts:273-320 | target live with the base in the backup and PENDING_DB, or undone and ROLLED_BACK, or recovery required with the journal PROMOTING |
| `Transaction.Compare` | apps/server/src/commitgate/workspace-transaction.ts:253-257 | the compare of the compare-and-swap against the bound View and context, with a failing check kept apart from a differing View |
| `Transaction.Consume` | apps/server/src/commitgate/promotion-permit-store.ts:196-208 | only a CONSUMING permit becomes CONSUMED |
| `Transaction.Promote` | apps/server/src/commitgate/workspace-transaction.ts:186-343 | every outcome's exact state; a conflict only if tree or View differs; without faults promoted iff hashes, View, base and permit all agree |
| `Coordinator.PromoteAuthorized` | apps/server/src/commitgate/workspace-transaction.ts:108-159 | promotes only a bound, unexpired, intact capability whose View and context are current, and then exactly its proposal |
| `Coordinator.RollbackJournal` | apps/server/src/commitgate/workspace-transaction.ts:345-366 | equals the planned restoration whenever it returns or no fault occurs; an already rolled-back journal is left alone |
| `Coordinator.RestoreSucceeds` | apps/server/src/commitgate/workspace-transaction.ts:345-366 | before the commit point the undoing cannot meet an unexpected hash |
| `Coordinator.Authorize` | apps/server/src/commitgate/coordinator.ts:689-714 | a capability exists only for sufficient evidence, and then in state CONSUMING and bound to it |
| `Coordinator.Recheck` | apps/server/src/commitgate/coordinator.ts:775-783 | the confirmation after the swap changes no durable state |
| `Coordinator.Reject` | apps/server/src/commitgate/coordinator.ts:1044-1095 | a rejection records base as final tree with the next session epoch and changes nothing else |
| `Coordinator.FinalizePromotion` | apps/server/src/commitgate/coordinator.ts:685-828 | live outcomes are exhaustive: committed with exactly the sealed tree, or recovery required, or the tree as before with the journal absent, PREPARING or ROLLED_BACK; without faults committed iff evidence suffices and the world agrees |
| `AgentTransaction.RecordCommit` | apps/server/src/commitgate/version-store.ts:115-148 | the index head becomes the run's version of the target, on top of the database's |
| `AgentTransaction.Retreat` | apps/server/src/commitgate/coordinator.ts:903-907 | base restored, journal ROLLED_BACK, index back on the database's version |
| `AgentTransaction.Acknowledge` | apps/server/src/commitgate/coordinator.ts:831-849 | returns only with the journal ACKNOWLEDGED and the receipt TERMINAL; a failure never goes back before the commit point |
| `AgentTransaction.CommitRun` | apps/server/src/agent-service.ts:2167-2219 | published, retreated or locked, each with its exact state; never locked without a fault; the lock may be released in the other two |
| `AgentTransaction.PersistFailure` | apps/server/src/agent-service.ts:2630-2741 | a failed run leaves tree and database as they were; the agent is unlocked with the receipt still open exactly in the ending that says so, which needs a fault |
| `AgentTransaction.ExecuteRun` | apps/server/src/agent-service.ts:2093-2229 | a run from admission to release publishes exactly the sealed tree, or leaves tree and database as they were and the agent unlocked, or keeps the lock after a fault; without faults it publishes iff evidence suffices and the world agrees, the bound View and context included |
| `VersionRollback.SwapToVersion` | apps/server/src/commitgate/workspace-transaction.ts:162-184 | the snapshot swap's outcomes, and without faults exactly when it happens |
| `VersionRollback.StageRollback` | apps/server/src/commitgate/version-store.ts:161-238 | staged, untouched, stuck or unguarded, each with its exact state; unguarded iff the swap went through and the permit could not be re-read; without faults staged iff feasible and re-read |
| `VersionRollback.PerformRollback` | apps/server/src/agent-service.ts:1682-1851 | from admission to release: the target version's content live and named by the database; or tree and database as before; or locked after a fault; or, iff the swap is orphaned, unlocked over it with the old tree in its backup; each ending iff its cause when no step fails |
| `StartupRecovery.NoteOnce` | apps/server/src/commitgate/receipt-store.ts:118-158 | an event that repeats an earlier one is not appended |
| `StartupRecovery.Reconcile` | apps/server/src/commitgate/recovery.ts:146-223 | the ladder for an unfinished swap, under faults; without one it does what the plan says |
| `StartupRecovery.VisitReceipt` | apps/server/src/commitgate/recovery.ts:230-264 | one receipt without a journal, as planned unless a failure escapes |
| `StartupRecovery.Recover` | apps/server/src/commitgate/recovery.ts:80-275 | the two loops and the sweep equal the planned pass without faults, and decide nothing with them |
| `StartupRecovery.RecoverAfterKill` | apps/server/src/commitgate/recovery.ts:41-279 | from any disk without an orphaned swap: the outcome is kept under faults and realised without them, and the result is healthy iff no stale receipt is open |
| `PermitMachine.StepKeepsInv` | apps/server/src/commitgate/promotion-permit-store.ts:114-222 | every interleaved file operation of any instance keeps the permit invariant |
| `PermitMachine.AtMostOnce` | apps/server/src/commitgate/promotion-permit-store.ts:132-172 | over all interleavings, kills and restarts: at most one capability and one successful consume |
| `PermitMachine.ConsumeIsDurable` | apps/server/src/commitgate/promotion-permit-store.ts:196-208 | the step by which consume succeeds is the write of CONSUMED by the claimant |
| `PermitMachine.ConsumedIsFinalIff` | apps/server/src/commitgate/promotion-permit-store.ts:210-222 | CONSUMED persists on every continuation iff no instance holds a pending stale revocation |
| `PermitMachine.StaleRevocationHappens` | apps/server/src/commitgate/promotion-permit-store.ts:210-222 | a reachable history in which a consumed permit ends REVOKED |
| `PermitMachine.ConsumedForGood` | apps/server/src/commitgate/rollback-permit-store.ts:144-165 | with one process at a time a consumed permit, of either kind, stays CONSUMED |
| `PermitStore.Store.Issue` | apps/server/src/commitgate/promotion-permit-store.ts:69-112 | a permit is stored iff all inputs name one another and the evidence is complete and passed |
| `PermitStore.Store.Claim` | apps/server/src/commitgate/promotion-permit-store.ts:114-174 | exact success condition, error cases and files, as an uninterrupted run of the machine |
| `PermitStore.Store.Consume` | apps/server/src/commitgate/promotion-permit-store.ts:159-208 | succeeds iff first use and CONSUMING, and then it is the only consumption ever |
| `PermitStore.Store.MarkConsumed` | apps/server/src/commitgate/promotion-permit-store.ts:176-194 | idempotent confirmation, refused in other states |
| `PermitStore.Store.Revoke` | apps/server/src/commitgate/promotion-permit-store.ts:210-222 | revokes everything except a consumed permit |
| `PathPolicy.PrefixBySegments` | apps/server/src/commitgate/policy.ts:145 | the textual prefix test on joined paths is the segment-wise prefix |
| `FileTree.CopyRestricts` | apps/server/src/commitgate/file-ops.ts:46-96 | copying a class set and listing it gives the source's manifest of that set, and can be listed iff the source can |
| `FileTree.CopyTwice` | apps/server/src/commitgate/file-ops.ts:46-96 | versioned then managed into one place equals one copy of both, which is the tree without ignored paths |
| `TreeWalk.Volume.MakeDirectories` | apps/server/src/commitgate/file-ops.ts:75 | succeeds iff nothing but directories is in the way, keeps existing ones, adds private ones |
| `TreeWalk.CopyDirectory` | apps/server/src/commitgate/file-ops.ts:73-80 | directory entries: created, walked unless skipped, mode set last |
| `TreeWalk.Walk` | apps/server/src/commitgate/file-ops.ts:61-94 | the recursive walk overlays exactly the selected nodes below a directory, and fails iff it meets a special file or a blocked directory |
| `TreeWalk.CopyWorkspace` | apps/server/src/commitgate/file-ops.ts:46-96 | the same for the whole workspace, into an empty or class-disjoint destination |
| `ManifestWalk.AssertNoPathIdentityCollisions` | apps/server/src/commitgate/manifest.ts:17-34 | the two tables accept iff no two different paths share the case-folded normal form |
| `ManifestWalk.List` | apps/server/src/commitgate/manifest.ts:85-139 | the recursive listing yields exactly the selected entries, and fails iff a special file is met or a link selected |
| `ManifestWalk.BuildManifest` | apps/server/src/commitgate/manifest.ts:67-144 | built exactly when defined, and then it is the manifest |
| `Changes.DiffManifests` | apps/server/src/commitgate/manifest.ts:170-188 | exactly the differing paths, each once, with both entries |
| `Changes.PatchDiff` | apps/server/src/commitgate/manifest.ts:170-188 | patching the old manifest with the difference gives the new one; it is empty iff they are equal |
| `Changes.ValidateCandidate` | apps/server/src/commitgate/validators.ts:15-51 | reports exactly the budget, platform-managed, protected-path and size failures the changes earn |
| `Changes.NoManagedFailureIff` | apps/server/src/commitgate/validators.ts:39-41 | no platform-managed failure iff the platform-managed parts are equal, modes included |
| `Sealing.AssertReadonlySealedPayload` | apps/server/src/commitgate/sealed-proposal-store.ts:328-390 | accepts iff the root is read-only and the payload lists as the stored manifest with exactly the write bits cleared, distinct rows and matching digest |
| `Sealing.Normalize` | apps/server/src/commitgate/sealed-proposal-store.ts:346-363 | succeeds iff every physical entry is the read-only form of its expected one |
| `Sealing.MakeReadonly` | apps/server/src/commitgate/sealed-proposal-store.ts:392-414 | succeeds iff only files and directories are present, and clears exactly the write bits |
| `Sealing.ReadonlyManifest` | apps/server/src/commitgate/sealed-proposal-store.ts:392-414 | stripping a tree strips its manifest entry by entry |
| `Sealing.SealedIsAccepted` | apps/server/src/commitgate/sealed-proposal-store.ts:110-162 | sealing any listable candidate gives a payload the check accepts against the candidate's own manifest |
| `Staging.ApplyManifestModes` | apps/server/src/commitgate/file-ops.ts:99-114 | succeeds iff every listed path exists, and sets exactly their modes |
| `Staging.Assemble` | apps/server/src/commitgate/workspace-transaction.ts:207-216 | the assembly yields the versioned payload, the live managed entries and the listed modes, or throws exactly when blocked or a listed path is missing |
| `Staging.StagingIsExactIff` | apps/server/src/commitgate/workspace-transaction.ts:207-228 | the staged tree lists as the sealed manifest iff live and sealed platform-managed entries agree up to mode |
| `Staging.ValidatedStagingIsExact` | apps/server/src/commitgate/workspace-transaction.ts:225-228 | after a verdict without platform-managed failures and a matching base, the target-hash check never fails spuriously |
| `ProposalChain.CommitsIff` | apps/server/src/commitgate/coordinator.ts:660-760 | a promotion goes through iff every required check has its one passing result, the verifier read exactly the sealed manifest, the payload is sealed exactly, live and sealed platform-managed entries agree up to mode, and the permit is in time and bound to the current View and context |
| `ViewFence.Agent.RefreshViewId` | apps/server/src/state-view.ts:51-53 | the one place that records a View appends it only where it is later than all before it, so that no View and no pair of counters recurs and no callback bound to an earlier View is accepted again |
| `ViewFence.Agent.PersistCompleted` | apps/server/src/agent-service.ts:2231-2307 | a stale callback changes nothing; otherwise a new View with advanced generation |
| `ViewFence.Agent.PersistRejected` | apps/server/src/agent-service.ts:2397-2487 | a stale callback changes nothing; otherwise a new session and View |
| `ViewFence.Agent.PersistFailure` | apps/server/src/agent-service.ts:2678-2741 | the same for failures and cancellations |
| `ViewFence.Agent.PublishRollback` | apps/server/src/agent-service.ts:1744-1768 | a published rollback advances generation and epoch |
| `ViewFence.Agent.UpdateConfiguration` | apps/server/src/agent-service.ts:1001-1081 | refused iff View or configuration moved; otherwise both counters advance |
| `ViewFence.Agent.RollbackNeedsRecovery` | apps/server/src/agent-service.ts:1816-1839 | the epoch is past the rollback's start and no lease remains |
| `ViewFence.Agent.MarkRecoveryRequired` | apps/server/src/agent-service.ts:2840-2862 | a new session and View, no lease, recovery required |
| `ViewFence.Agent.RepairFailedAcknowledge` | apps/server/src/agent-service.ts:2775-2838 | a locked agent keeps its View |
| `ViewFence.CommitAgreesWithReceipt` | apps/server/src/commitgate/coordinator.ts:871-898 | in every reachable row, after a verdict without a platform-managed failure, the View the commit stores is the one the receipt names |
| `WorkerProjection.AllAt` | apps/server/src/agent-service.ts:557-628 | each run is projected from its own original row, whatever the order; other rows are untouched |
| `WorkerProjection.AppliesOnceIff` | apps/server/src/agent-service.ts:528-674 | applying the same facts again, in any order and later, is the identity iff product and facts do not strand the agent: busy under another lease than that of the newest unreflected fact, with no active run the facts leave alone |
| `WorkerProjection.StrandedAgentMoves` | apps/server/src/agent-service.ts:660-664 | an input that strands the agent, on which the second projection differs from the first |
| `WorkerProjection.IdempotentAfterLoad` | apps/server/src/agent-service.ts:523-527 | with leases cleared by load the projection is idempotent |
| `WorkerProjection.LatestWorkerTerminalProjectionGap` | apps/server/src/agent-service.ts:684-714 | none iff no terminal fact is unreflected; otherwise the latest such fact |
| `WorkerProjection.NoGapAfter` | apps/server/src/agent-service.ts:684-714 | with one fact per run, no gap is left by a projection |
| `WorkerProjection.AuthorityAndFrame` | apps/server/src/agent-service.ts:571-616 | projected assistant messages are authoritative iff committed; other runs, agents, versions and leases are unchanged |
| `WorkerProjection.Database.LatestByRun` | apps/server/src/agent-service.ts:540-548 | the loop keeps the latest fact of each run |
| `WorkerProjection.Database.ApplyWorkerAuthorityProjection` | apps/server/src/agent-service.ts:528-674 | the loop equals the projection, and an error leaves the database as it was |
| `WorkerProjection.VersionRowsTwice` | apps/server/src/agent-service.ts:846-900 | re-projected versions keep what their rows carried |
| `TransitionLog.SameDigestSameLog` | apps/server/src/transition-log.ts:158-167 | two accepted logs with the same last digest are the same log |
| `TransitionLog.NameOrder` | apps/server/src/transition-log.ts:94 | below the limit, name order is sequence order |
| `TransitionLog.NamedBelowLimit` | apps/server/src/transition-log.ts:94-113 | a name is listed iff its sequence is below ten to the twelfth |
| `TransitionLog.SortedUnique` | apps/server/src/transition-log.ts:113 | the sorted listing of a directory is unique |
| `TransitionLog.ReadLog` | apps/server/src/transition-log.ts:109-125 | succeeds iff the listed files form an accepted chain, and then returns it |
| `TransitionLog.StoredIsRead` | apps/server/src/transition-log.ts:109-125 | a stored log is read back whatever lies beside it |
| `TransitionLog.EventLog.Append` | apps/server/src/transition-log.ts:71-107 | killed anywhere, the directory holds the old log or that log plus the one event; returning means the event is stored, below the limit |
| `TrustedChecks.AssessTrustedChecks` | apps/server/src/commitgate/coordinator.ts:168-199 | no evidence failure iff one usable result per required id and no other; then no result failure iff all pass |
| `TrustedChecks.RunnerDecides` | apps/server/src/worker-commitgate-runner.ts:357-371 | for distinct ids the coverage-and-pass test is the intended verdict |
| `TrustedChecks.WorkerDecides` | apps/server/src/worker-gate-policy.ts:217-246 | for distinct ids the Worker accepts a report iff it claims coverage and success and the results earn the intended verdict |
| `TrustedChecks.DecidersAgreeIff` | apps/server/src/worker-gate-policy.ts:224-246 | coordinator, runner and Worker agree on every list of results iff the required ids are distinct |
| `TrustedChecks.OrderIrrelevant` | apps/server/src/commitgate/coordinator.ts:168-199 | the verdict is invariant under permuting the results |
| `Glob.GlobToRegExp` | apps/server/src/commitgate/policy.ts:151-167 | the loop emits the anchored translation of every glob character |
| `Glob.EmittedIsRead` | apps/server/src/commitgate/policy.ts:151-167 | read by the ECMA-262 pattern grammar, the emitted text is the glob's terms, metacharacters included |
| `Glob.CompiledMeaning` | apps/server/src/commitgate/policy.ts:151-167 | for every glob and path, the emitted text is a pattern that accepts what the direct matcher accepts with runs kept within a line |
| `Glob.CompiledAgreesIff` | apps/server/src/commitgate/policy.ts:155-157 | the compiled globs agree with the direct matcher, all of them, on exactly the paths without line terminators |
| `RelayRegistry.InvisibleIff` | apps/server/src/model-relay-server.ts:35-153 | under a monotone clock every call answers as a registry that never forgets iff no activation comes after the expiry of the revocation or foreign lease that should refuse it |
| `RelayRegistry.PruningIsInvisible` | apps/server/src/model-relay-server.ts:35-153 | with one expiry per nonce nothing lapses, so pruning is invisible |
| `RelayRegistry.RevokedStaysRevoked` | apps/server/src/model-relay-server.ts:73-81 | while nothing lapses, a revoked nonce is never active again |
| `RelayRegistry.ResolvedIffUnanimous` | apps/server/src/model-relay-server.ts:83-105 | while unexpired, a model is resolved iff one was recorded and all recorded ones agree |
| `RelayRegistry.ShortRevocationIsForgotten` | apps/server/src/model-relay-server.ts:73-81 | a revocation shorter than its lease lapses, and the nonce is active again |
| `RelayRegistry.Registry.Prune` | apps/server/src/model-relay-server.ts:143-153 | the three loops drop exactly what has expired |
| `RelayRegistry.Registry.ActivateNonce` | apps/server/src/model-relay-server.ts:47-61 | activation with its three refusals, on the pruned registry |
| `RelayRegistry.Registry.CheckActive` | apps/server/src/model-relay-server.ts:63-71 | active iff leased under the same digest after pruning |
| `RelayRegistry.Registry.RevokeNonce` | apps/server/src/model-relay-server.ts:73-81 | the lease goes and the revocation stays, on the pruned registry |
| `RelayRegistry.Registry.RecordResolvedModel` | apps/server/src/model-relay-server.ts:83-100 | the first model is kept, a different one marks the record conflicted for good |

## Left out

- Platform-state regeneration is a rule of `Protocol`, not a method; the regeneration that precedes a version rollback counts as before admission. The lock is the agent's busy or recovery-required row.
- The in-process startup mutation of runs and messages is not modelled.
- Recover: the step-by-step pass under faults is for disks without an orphaned swap, because its visits would otherwise have to break the very invariant the other methods rely on; what complete passes make of orphaned swaps is proved in `UnfinishedRelease` and `Reinstatement`.
- RecoverAfterKill: the same restriction.
- UnlockedPassHeals: it is for an unlocked agent; a pass that takes an orphaned swap back under the lock of another run may leave a live tree that run does not expect, and histories that go on from there are not followed.
- Converges: with orphaned swaps convergence is proved for unlocked agents only (`Reinstatement.UnlockedConverges`), for the same reason.
- ExecuteRun: the runner, sealing and the verifier enter as the evidence, the sealed tree and the answers of `World`; the return after a stale callback, which leaves a promoted journal pending and the agent busy, is a run that is cut off there.
- PersistFailure: when the rejecting receipt itself is the one that cannot be read the agent is unlocked all the same, and the finishing of that receipt is left out.
- FinalizePromotion: the part of `verifyAndFinalize` before the permit (resource audit, sealing, verifier call) enters as the evidence, the sealed tree and the answers of `World`; a sealed tree is a pair of class-wise manifests.
- StageRollback: the target snapshot's retention and pruning are one input, `resolves`.
- Claim: the comparison of the presented proposal's digest and manifest with the stored files is one input, `sound`.
- PermitStore: queues per permit are the assumption that one instance has at most one unfinished call; claim files hold no nonce text.
- External writers to the workspace, power loss, clock skew and hash collisions are outside the model, as they are outside the program's claims.
- Path normalisation, back-slash names and Unicode tables: paths are segment sequences, and the case-folded normal form is a parameter.
- List: manifest refusals for ownership, hard links and sparse files, and permission checks of the operating system, are not modelled; `chmod` through a symbolic link leaves the link as it is.
- BuildManifest: the same refusals are left out.
- CopyWorkspace: copying over an entry of the same class that already exists is excluded, as no caller does it.
- Manifests are maps: the sorted listing of a map is canonical, so list order and its hash need no separate treatment; entry sizes are content lengths.
- ValidateCandidate: canary and sensitive-value scanning of file contents is left out.
- UpdateConfiguration: an update while a commit is staged is excluded; the code admits one only while no run of the agent is active.
- RepairFailedAcknowledge: the projected head is required to be the row's head, which the database mutation before it has written.
- The atomicity of event files within one `append` is per step; the per-agent queue of the log, of the store and of the workspace writer is not modelled beyond it.
- Digests in the Worker's summaries, policy profiles beyond one identifier, run lifecycles and effect proofs are carried or dropped without interpretation in `WorkerProjection`.
- Glob: only the grammar fragment the compiler emits is read; characters stand for UTF-16 code units.
- Relay resolution promises and their time-outs, HTTP, Docker, RPC, the user interface, redaction and configuration parsing would only add easy members.
