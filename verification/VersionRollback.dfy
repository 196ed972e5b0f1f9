/**
 Rolling an agent back to a recorded version: the same swap under a snapshot
 permit, staged by the version store and published by the agent service.
 */
module VersionRollback {
  import opened Wrappers
  import opened Protocol
  import opened Runs
  import opened RecoveryPlan
  import opened HostState
  import opened Transaction
  import opened Coordinator
  import AgentTransaction

  datatype StageEnd = StagedRollback | NotStaged | StuckStaging | Unguarded

  function SnapshotPlan(base: Tree, id: PermitId, target: VersionId, snapshot: string): Plan {
    Plan(Rollback, base, id, Some(target), None, Some(snapshot), None)
  }

  lemma RollbackJournalStep(d: Disk, r: RunId, base: Tree, id: PermitId, target: VersionId, staged: Tree)
    requires Inv(d) && Owner(d, r) && r !in d.journals && r !in d.receipts && target in d.versions
    requires id in d.permits && d.permits[id].run == r
    requires d.permits[id].grant == SnapshotGrant(base, d.versions[target].snapshot, target)
    requires staged.versioned == d.versions[target].snapshot
    ensures JournalStep(d, r, JournalOf(SnapshotPlan(base, id, target, d.versions[target].snapshot), staged))
  {
    assert VersionOk(d, target);
    NoEvents(d, r);
  }

  /** The swap to a recorded snapshot, up to the journal that waits for the database. */
  method SwapToVersion(h: Host, r: RunId, id: PermitId, base: Tree, target: VersionId, w: World) returns (out: Outcome)
    requires h.Valid() && h.disk.lock == Some(Lock(r, base)) && r !in h.disk.journals && r !in h.disk.receipts
    requires h.disk.persistent == Some(base) && id !in h.disk.permits && target in h.disk.versions
    modifies h
    ensures h.Valid() && Fate(h.disk) == old(Fate(h.disk)) && Confined(old(h.disk), h.disk, r, id)
    ensures h.disk.receipts == old(h.disk).receipts
    ensures r in h.disk.journals ==>
              && h.disk.journals[r].kind == Rollback && h.disk.journals[r].base == base
              && h.disk.journals[r].targetVersion == Some(target)
              && h.disk.journals[r].target.versioned == h.disk.versions[target].snapshot
    ensures out == Promoted ==>
              && InState(h.disk, r, PendingDb) && h.disk.persistent == Some(h.disk.journals[r].target)
              && r in h.disk.backups && h.disk.backups[r] == base
              && id in h.disk.permits && h.disk.permits[id].state == Consumed
    ensures out in {Conflict, Refused} ==> Undone(h.disk, r, Some(base))
    ensures out == RecoveryRequired ==> InState(h.disk, r, Promoting) && h.faulted
    ensures !h.faulted ==>
              (out == Promoted <==> !w.expiresEarly && !w.expires && w.assembled.Some? &&
                                    w.assembled.value.versioned == h.disk.versions[target].snapshot)
  {
    hide Host.Valid, Fate, Confined, Granted, JournalStep, Elsewhere;
    HostInv(h);
    Admitted(h.disk, r);
    var snapshot := h.disk.versions[target].snapshot;
    hide Inv;
    var claimed := IssueAndClaim(h, r, id, SnapshotGrant(base, snapshot, target), true, w.expiresEarly);
    ghost var granted := h.disk;
    GrantedConfined(old(h.disk), granted, r, id, SnapshotGrant(base, snapshot, target));
    if !claimed || w.expires { return Refused; }
    HostInv(h);
    var plan := SnapshotPlan(base, id, target, snapshot);
    forall staged | Meets(plan, staged) ensures JournalStep(h.disk, r, JournalOf(plan, staged)) {
      RollbackJournalStep(h.disk, r, base, id, target, staged);
    }
    out := Promote(h, r, plan, w.assembled, w.partial, w.latest);
    ElsewhereFacts(granted, h.disk, r, id);
    ConfinedTrans(old(h.disk), granted, h.disk, r, id);
  }

  /** What the world must answer for a rollback to be swapped in. */
  predicate Feasible(d: Disk, target: VersionId, expectedHead: VersionId, w: World) {
    && d.head == Some(expectedHead) && target in d.versions && w.resolves && !w.expiresEarly && !w.expires
    && w.assembled.Some? && w.assembled.value.versioned == d.versions[target].snapshot
  }

  /** A swap to `target` that waits for the database with its base in the backup. */
  ghost predicate SwappedTo(d: Disk, r: RunId, base: Tree, target: VersionId) {
    && AgentTransaction.Promoted(d, r, Rollback) && target in d.versions
    && d.journals[r].targetVersion == Some(target) && d.journals[r].base == base
    && d.journals[r].target.versioned == d.versions[target].snapshot
    && d.persistent == Some(d.journals[r].target)
  }

  /** The swap and, when it fails, the revocation of its permit. */
  method SwapOrRevoke(h: Host, r: RunId, id: PermitId, base: Tree, target: VersionId, expectedHead: VersionId, w: World)
    returns (out: Outcome)
    requires h.Valid() && h.disk.lock == Some(Lock(r, base)) && r !in h.disk.journals && r !in h.disk.receipts
    requires id !in h.disk.permits
    modifies h
    ensures h.Valid() && Fate(h.disk) == old(Fate(h.disk)) && Confined(old(h.disk), h.disk, r, id)
    ensures h.disk.receipts == old(h.disk).receipts
    ensures out == Promoted ==>
              && old(h.disk).head == Some(expectedHead) && SwappedTo(h.disk, r, base, target)
              && r in h.disk.backups && h.disk.backups[r] == base
    ensures out in {Conflict, Refused} ==> Undone(h.disk, r, Some(base))
    ensures out == RecoveryRequired ==> InState(h.disk, r, Promoting) && h.faulted
    ensures !h.faulted ==> (out == Promoted <==> Feasible(old(h.disk), target, expectedHead, w))
  {
    hide Host.Valid, Fate, Confined, RestoreBackup;
    HostInv(h);
    Admitted(h.disk, r);
    hide Inv;
    UnchangedIsConfined(h.disk, r, id);
    if h.disk.head != Some(expectedHead) || target !in h.disk.versions || !w.resolves { return Refused; }
    var current := h.ReadLive();
    if current.None? { return Refused; }
    out := SwapToVersion(h, r, id, base, target, w);
    ConfinedFacts(old(h.disk), h.disk, r, id);
    if out in {Conflict, Refused} {
      ghost var swapped := h.disk;
      Revoke(h, r, id);
      ConfinedTrans(old(h.disk), swapped, h.disk, r, id);
    }
  }

  lemma UnchangedIsConfined(d: Disk, r: RunId, id: PermitId)
    ensures Confined(d, d, r, id)
  {
  }

  /** The staged version of the swap, or the swap undone again. */
  method RecordOrUndo(h: Host, r: RunId, vid: VersionId, base: Tree, target: VersionId) returns (end: StageEnd)
    requires h.Valid() && SwappedTo(h.disk, r, base, target) && SettledHead(h.disk) && vid !in h.disk.versions
    modifies h
    ensures h.Valid() && Fate(h.disk) == old(Fate(h.disk)) && h.disk.lock == old(h.disk).lock && h.disk.db == old(h.disk).db
    ensures h.disk.receipts == old(h.disk).receipts && h.disk.orphans == old(h.disk).orphans
    ensures end in {StagedRollback, NotStaged, StuckStaging}
    ensures end == StagedRollback ==>
              && SwappedTo(h.disk, r, base, target) && AgentTransaction.Staged(h.disk, r, vid)
              && h.disk.versions[target] == old(h.disk).versions[target]
    ensures end == NotStaged ==> Undone(h.disk, r, Some(base)) && SettledHead(h.disk)
    ensures end == StuckStaging ==> Swapping(h.disk, r)
    ensures (old(h.faulted) ==> h.faulted) && (!h.faulted ==> end == StagedRollback)
  {
    hide Host.Valid, Fate, Inv, RestoreBackup;
    var ok := AgentTransaction.RecordCommit(h, r, vid);
    if ok { return StagedRollback; }
    var undone := RollbackJournal(h, r);
    end := if undone then NotStaged else StuckStaging;
  }

  /** Staging of a rollback.  Every failure leaves the tree as it was or asks for
      recovery, except one: when the permit cannot be re-read right after the swap
      the error escapes with the swapped tree in place and nothing undone. */
  method StageRollback(h: Host, r: RunId, id: PermitId, vid: VersionId, base: Tree, target: VersionId,
                       expectedHead: VersionId, rereads: bool, w: World) returns (end: StageEnd)
    requires h.Valid() && h.disk.lock == Some(Lock(r, base)) && r !in h.disk.journals && r !in h.disk.receipts
    requires id !in h.disk.permits && vid !in h.disk.versions && SettledHead(h.disk)
    modifies h
    ensures h.Valid() && Fate(h.disk) == old(Fate(h.disk)) && h.disk.lock == old(h.disk).lock && h.disk.db == old(h.disk).db
    ensures h.disk.receipts == old(h.disk).receipts && h.disk.orphans == old(h.disk).orphans
    ensures end == StagedRollback ==>
              && old(h.disk).head == Some(expectedHead) && target in old(h.disk).versions && rereads
              && SwappedTo(h.disk, r, base, target) && AgentTransaction.Staged(h.disk, r, vid)
              && h.disk.versions[target] == old(h.disk).versions[target]
    ensures end == NotStaged ==> Undone(h.disk, r, Some(base)) && SettledHead(h.disk)
    ensures end == StuckStaging ==> h.faulted && Swapping(h.disk, r)
    ensures end == Unguarded <==> !rereads && InState(h.disk, r, PendingDb)
    ensures end == Unguarded ==>
              && SwappedTo(h.disk, r, base, target) && r in h.disk.backups && h.disk.backups[r] == base
              && SettledHead(h.disk) && h.disk.versions == old(h.disk).versions
    ensures !h.faulted ==>
              && (end == StagedRollback <==> rereads && Feasible(old(h.disk), target, expectedHead, w))
              && (end == Unguarded <==> !rereads && Feasible(old(h.disk), target, expectedHead, w))
  {
    hide Host.Valid, Fate, Inv, Confined, Feasible;
    var out := SwapOrRevoke(h, r, id, base, target, expectedHead, w);
    ConfinedFacts(old(h.disk), h.disk, r, id);
    match out
    case RecoveryRequired => end := StuckStaging;
    case Promoted =>
      if rereads { end := RecordOrUndo(h, r, vid, base, target); } else { end := Unguarded; }
    case Conflict => end := NotStaged;
    case Refused => end := NotStaged;
  }

  datatype RollbackEnd = PublishedRollback | UnchangedRollback | LockedRollback | UnfinishedRollback

  /** From the staged version to the acknowledged run, or back. */
  method CommitRollback(h: Host, r: RunId, vid: VersionId, base: Tree, target: VersionId, remains: Tree)
    returns (end: RollbackEnd)
    requires h.Valid() && SwappedTo(h.disk, r, base, target) && AgentTransaction.Staged(h.disk, r, vid)
    requires r !in h.disk.receipts && h.disk.db.Some? && h.disk.lock == Some(Lock(r, base))
    modifies h
    ensures h.Valid() && h.disk.lock == old(h.disk).lock && h.disk.orphans == old(h.disk).orphans
    ensures end in {PublishedRollback, UnchangedRollback, LockedRollback}
    ensures end == PublishedRollback ==>
              && InState(h.disk, r, Acknowledged) && DbNames(h.disk, r) && h.disk.db.value.version == vid
              && h.disk.persistent == Some(h.disk.db.value.live) && h.disk.db.value.live == old(h.disk).journals[r].target
    ensures end == UnchangedRollback ==> Undone(h.disk, r, Some(base)) && h.disk.db == old(h.disk).db
    ensures end != LockedRollback ==> Settled(h.disk)
    ensures (old(h.faulted) ==> h.faulted) && (!h.faulted ==> end == PublishedRollback)
  {
    hide Host.Valid, Fate, PastCommit, Inv;
    var published := PublishRollback(h, r, vid);
    if published {
      end := SettleRollback(h, r, remains);
    } else {
      var back := AgentTransaction.Retreat(h, r);
      end := if back then UnchangedRollback else LockedRollback;
    }
  }

  lemma MayReleaseOverSwap(d: Disk, r: RunId, base: Tree, target: VersionId)
    requires SwappedTo(d, r, base, target) && r in d.backups && SettledHead(d)
    ensures Allowed(ReleaseUnfinished(r), d)
  {
  }

  lemma UnswappedIsNoOrphan(d: Disk, r: RunId)
    requires Inv(d) && r !in d.swapped
    ensures r !in d.orphans
  {
  }

  /** What the agent service makes of the staging's end. */
  method Conclude(h: Host, r: RunId, vid: VersionId, base: Tree, target: VersionId, staged: StageEnd, remains: Tree)
    returns (end: RollbackEnd)
    requires h.Valid() && h.disk.lock == Some(Lock(r, base)) && r !in h.disk.receipts && r !in h.disk.orphans && h.disk.db.Some?
    requires staged == StagedRollback ==> SwappedTo(h.disk, r, base, target) && AgentTransaction.Staged(h.disk, r, vid)
    requires staged == NotStaged ==> Undone(h.disk, r, Some(base)) && SettledHead(h.disk)
    requires staged == Unguarded ==>
               SwappedTo(h.disk, r, base, target) && r in h.disk.backups && h.disk.backups[r] == base && SettledHead(h.disk)
    requires staged == StuckStaging ==> h.faulted
    modifies h
    ensures h.Valid() && (old(h.faulted) ==> h.faulted)
    ensures end == PublishedRollback ==>
              && staged == StagedRollback && h.disk.lock.None? && InState(h.disk, r, Acknowledged) && DbNames(h.disk, r)
              && h.disk.db.value.version == vid && h.disk.persistent == Some(h.disk.db.value.live)
              && h.disk.db.value.live == old(h.disk).journals[r].target
    ensures end == UnchangedRollback ==> h.disk.lock.None? && h.disk.persistent == Some(base) && h.disk.db == old(h.disk).db
    ensures end == LockedRollback ==> h.faulted && Owner(h.disk, r)
    ensures h.disk.orphans == if staged == Unguarded && end == UnfinishedRollback
                              then old(h.disk).orphans[r := Orphan(old(h.disk).journals[r], base)]
                              else old(h.disk).orphans
    ensures end == UnfinishedRollback ==>
              && staged == Unguarded && h.disk.lock.None? && h.disk.db == old(h.disk).db
              && h.disk.persistent == Some(old(h.disk).journals[r].target)
    ensures !h.faulted ==>
              match staged
              case StagedRollback => end == PublishedRollback
              case NotStaged => end == UnchangedRollback
              case Unguarded => end == UnfinishedRollback
              case StuckStaging => false
  {
    hide Host.Valid, Fate, PastCommit, Inv, Settled;
    if staged == StuckStaging { return LockedRollback; }
    if staged == Unguarded {
      MayReleaseOverSwap(h.disk, r, base, target);
      var ok := h.ReleaseOverSwap(r);
      return if ok then UnfinishedRollback else LockedRollback;
    }
    end := UnchangedRollback;
    if staged == StagedRollback {
      end := CommitRollback(h, r, vid, base, target, remains);
      if end == LockedRollback { return; }
    } else {
      AgentTransaction.UndoneIsSettled(h.disk, r, base);
    }
    var ok := h.ReleaseAgent();
    if !ok { end := LockedRollback; }
  }

  /** A rollback from admission to release.  It publishes the target version's content,
      or leaves tree and database as they were, or keeps the agent locked after a fault;
      or, exactly when it swapped the tree and could not re-read its permit, it unlocks
      the agent over the unfinished swap. */
  method PerformRollback(h: Host, r: RunId, id: PermitId, vid: VersionId, target: VersionId, expectedHead: VersionId,
                         rereads: bool, w: World) returns (end: RollbackEnd)
    requires h.Valid() && h.disk.lock.None? && r !in h.disk.journals && r !in h.disk.receipts && r !in h.disk.swapped
    requires id !in h.disk.permits && vid !in h.disk.versions
    modifies h
    ensures h.Valid()
    ensures end == PublishedRollback ==>
              && h.disk.lock.None? && target in old(h.disk).versions && InState(h.disk, r, Acknowledged) && DbNames(h.disk, r)
              && h.disk.db.value.version == vid && h.disk.persistent == Some(h.disk.db.value.live)
              && h.disk.persistent.value.versioned == old(h.disk).versions[target].snapshot
    ensures end == UnchangedRollback ==>
              h.disk.lock.None? && h.disk.persistent == old(h.disk).persistent && h.disk.db == old(h.disk).db
    ensures end == LockedRollback ==> h.faulted && Owner(h.disk, r)
    ensures end == UnfinishedRollback <==> r in h.disk.orphans
    ensures end == UnfinishedRollback ==>
              && !rereads && h.disk.lock.None? && h.disk.db == old(h.disk).db && target in old(h.disk).versions
              && Some(h.disk.orphans[r].backup) == old(h.disk).persistent
              && h.disk.persistent == Some(h.disk.orphans[r].journal.target)
              && h.disk.persistent.value.versioned == old(h.disk).versions[target].snapshot
    ensures h.disk.orphans.Keys <= old(h.disk).orphans.Keys + {r}
    ensures !h.faulted ==>
              && end != LockedRollback
              && (end == PublishedRollback <==> rereads && Feasible(old(h.disk), target, expectedHead, w))
              && (end == UnfinishedRollback <==> !rereads && Feasible(old(h.disk), target, expectedHead, w))
  {
    hide Host.Valid, Fate, PastCommit, Settled;
    HostInv(h);
    AgentTransaction.Unlocked(h.disk);
    UnswappedIsNoOrphan(h.disk, r);
    hide Inv;
    var ok := h.AdmitRun(r);
    if !ok { return UnchangedRollback; }
    var base := h.disk.lock.value.tree;
    var staged := StageRollback(h, r, id, vid, base, target, expectedHead, rereads, w);
    end := Conclude(h, r, vid, base, target, staged, w.partial);
  }
  method PublishRollback(h: Host, r: RunId, vid: VersionId) returns (ok: bool)
    requires h.Valid() && AgentTransaction.Promoted(h.disk, r, Rollback) && AgentTransaction.Staged(h.disk, r, vid)
    requires h.disk.persistent == Some(h.disk.journals[r].target)
    modifies h
    ensures h.Valid() && Remembered(ok, h.faulted, old(h.faulted))
    ensures h.disk == old(h.disk).(db := h.disk.db) && (!ok ==> h.disk.db == old(h.disk).db)
    ensures ok ==> PastCommit(h.disk, r) && DbNames(h.disk, r) && SettledHead(h.disk) && h.disk.db.value.version == vid
    ensures ok ==> h.disk.db.value.live == h.disk.journals[r].target
  {
    hide Host.Valid, Fate, Allowed;
    ok := h.Attempt();
    if !ok { return; }
    AgentTransaction.MayPublish(h.disk, r, vid);
    ok := h.PublishHead(r);
    HostInv(h);
    if ok { NamedLive(h.disk, r); }
  }

  lemma NamedLive(d: Disk, r: RunId)
    requires Inv(d) && DbNames(d, r)
    ensures r in d.journals && d.db.value.live == d.journals[r].target
  {
    hide TreesOk, JournalsOk, AuditOk;
  }

  /** After the commit point: the session's fence, then the acknowledgement with one retry. */
  method SettleRollback(h: Host, r: RunId, remains: Tree) returns (end: RollbackEnd)
    requires h.Valid() && PastCommit(h.disk, r)
    modifies h
    ensures h.Valid() && h.disk == old(h.disk).(backups := h.disk.backups, journals := h.disk.journals)
    ensures r in h.disk.journals && SameButState(old(h.disk).journals[r], h.disk.journals[r])
    ensures end == PublishedRollback ==> InState(h.disk, r, Acknowledged)
    ensures end == PublishedRollback || (end == LockedRollback && h.faulted)
    ensures old(h.faulted) ==> h.faulted
  {
    hide Host.Valid, Fate, Inv;
    var ok := h.Attempt();
    if !ok { return LockedRollback; }
    ok := AgentTransaction.AcknowledgeHandle(h, r, remains);
    if !ok { ok := AgentTransaction.AcknowledgeHandle(h, r, remains); }
    end := if ok then PublishedRollback else LockedRollback;
  }
}
