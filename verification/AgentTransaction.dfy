/**
 A promoted run's way to the database and back: staging its version, the commit
 point, acknowledgement with one retry, and the fail-closed retreat before it.
 */
module AgentTransaction {
  import opened Wrappers
  import opened Protocol
  import opened Runs
  import opened RecoveryPlan
  import opened HostState
  import opened Coordinator
  import opened Transaction

  datatype Ending = Published | Retreated | Locked

  /** A promoted run that still waits for the database. */
  ghost predicate Promoted(d: Disk, r: RunId, kind: Kind) {
    && Owner(d, r) && InState(d, r, PendingDb) && !DbNames(d, r) && d.journals[r].kind == kind
  }

  function NewVersion(d: Disk, r: RunId): Version
    requires r in d.journals && d.db.Some?
  {
    var j := d.journals[r];
    Version(Expected(j.kind), j.target.versioned, Some(d.db.value.version),
            if j.kind == Rollback then j.targetVersion else None, Some(r))
  }

  lemma MayRecord(d: Disk, r: RunId, id: VersionId)
    requires Owner(d, r) && InState(d, r, PendingDb) && !DbNames(d, r) && SettledHead(d) && id !in d.versions
    ensures Allowed(RecordVersion(r, id, NewVersion(d, r)), d)
  {
  }

  /** The version index names the staged version of run `r`. */
  ghost predicate Staged(d: Disk, r: RunId, id: VersionId) {
    d.head == Some(id) && id in d.versions && d.versions[id].run == Some(r)
  }

  /** The code first looks for a version it already recorded for the run.  There is none:
      while the index agrees with the database, no version belongs to a promoted run. */
  lemma NoVersionYet(d: Disk, r: RunId, id: VersionId)
    requires Inv(d) && InState(d, r, PendingDb) && !DbNames(d, r) && SettledHead(d) && id in d.versions
    ensures d.versions[id].run != Some(r)
  {
    hide TreesOk, JournalsOk, AuditOk;
    assert VersionOk(d, id);
  }

  method RecordCommit(h: Host, r: RunId, id: VersionId) returns (ok: bool)
    requires h.Valid() && Owner(h.disk, r) && InState(h.disk, r, PendingDb) && !DbNames(h.disk, r)
    requires SettledHead(h.disk) && id !in h.disk.versions
    modifies h
    ensures h.Valid() && Fate(h.disk) == old(Fate(h.disk)) && Remembered(ok, h.faulted, old(h.faulted))
    ensures h.disk == old(h.disk).(
              versions := if ok then old(h.disk).versions[id := NewVersion(old(h.disk), r)] else old(h.disk).versions,
              head := if ok then Some(id) else old(h.disk).head)
    ensures ok ==> Staged(h.disk, r, id)
  {
    hide Host.Valid, Fate, Inv, Allowed;
    MayRecord(h.disk, r, id);
    ok := h.AppendVersion(r, id, NewVersion(h.disk, r));
  }

  /** The fail-closed retreat: restore the tree, then take the staged version off the index. */
  method Retreat(h: Host, r: RunId) returns (ok: bool)
    requires h.Valid() && Owner(h.disk, r) && InState(h.disk, r, PendingDb) && !DbNames(h.disk, r)
    modifies h
    ensures h.Valid() && Fate(h.disk) == old(Fate(h.disk))
    ensures h.disk == old(h.disk).(persistent := h.disk.persistent, staging := h.disk.staging, backups := h.disk.backups,
                                   failed := h.disk.failed, journals := h.disk.journals, versions := h.disk.versions,
                                   head := h.disk.head)
    ensures r in h.disk.journals && SameButState(old(h.disk).journals[r], h.disk.journals[r])
    ensures ok ==> InState(h.disk, r, RolledBack) && h.disk.persistent == Some(h.disk.journals[r].base)
    ensures ok ==> r !in h.disk.backups && SettledHead(h.disk) && !HeadIsRun(h.disk, r)
    ensures Remembered(ok, h.faulted, old(h.faulted))
  {
    hide Host.Valid, Fate, RestoreBackup, Inv, Apply;
    HostInv(h);
    RestoreSucceeds(h.disk, r);
    ok := RollbackJournal(h, r);
    if !ok { return; }
    HostInv(h);
    if HeadIsRun(h.disk, r) {
      InvParts(h.disk);
      RevertedHead(h.disk, r);
      RevertsOnly(h.disk, r);
      ok := h.DropVersion(r);
      HostInv(h);
      if ok { SettledNotRun(h.disk, r); }
    } else {
      UnstagedHead(h.disk, r);
    }
  }

  lemma SettledNotRun(d: Disk, r: RunId)
    requires Inv(d) && InState(d, r, RolledBack) && SettledHead(d)
    ensures !HeadIsRun(d, r)
  {
    hide TreesOk, JournalsOk, AuditOk;
  }

  /** The handle's acknowledgement: drop the backup, close the journal. */
  method AcknowledgeHandle(h: Host, r: RunId, remains: Tree) returns (ok: bool)
    requires h.Valid() && PastCommit(h.disk, r)
    modifies h
    ensures h.Valid() && Fate(h.disk) == old(Fate(h.disk)) && PastCommit(h.disk, r)
    ensures h.disk == old(h.disk).(backups := h.disk.backups, journals := h.disk.journals)
    ensures r in h.disk.journals && SameButState(old(h.disk).journals[r], h.disk.journals[r])
    ensures ok ==> InState(h.disk, r, Acknowledged)
    ensures Remembered(ok, h.faulted, old(h.faulted))
  {
    hide Host.Valid, Fate, Inv, JournalStep;
    if h.disk.journals[r].state == Acknowledged { return true; }
    ok := h.DeleteBackup(r, remains);
    if !ok { return; }
    MayAcknowledge(h.disk, r);
    ok := h.WriteJournal(r, h.disk.journals[r].(state := Acknowledged));
  }

  lemma MayAcknowledge(d: Disk, r: RunId)
    requires InState(d, r, PendingDb) && DbNames(d, r) && r !in d.backups
    ensures JournalStep(d, r, d.journals[r].(state := Acknowledged))
  {
  }

  function TerminalReceipt(rc: Receipt, version: VersionId): Receipt {
    rc.(phase := Terminal, version := Some(version))
  }

  /** The coordinator's acknowledgement: the handle's, then the terminal receipt. */
  method Acknowledge(h: Host, r: RunId, version: VersionId, remains: Tree) returns (ok: bool)
    requires h.Valid() && PastCommit(h.disk, r) && h.disk.journals[r].kind == Promotion
    requires r in h.disk.receipts && h.disk.receipts[r].phase == PendingPromotion
    modifies h
    ensures h.Valid() && Fate(h.disk) == old(Fate(h.disk)) && PastCommit(h.disk, r)
    ensures h.disk == old(h.disk).(backups := h.disk.backups, journals := h.disk.journals, receipts := h.disk.receipts)
    ensures r in h.disk.journals && SameButState(old(h.disk).journals[r], h.disk.journals[r])
    ensures r in h.disk.receipts && h.disk.receipts ==
              if ok then old(h.disk).receipts[r := TerminalReceipt(old(h.disk).receipts[r], version)] else old(h.disk).receipts
    ensures ok ==> InState(h.disk, r, Acknowledged)
    ensures Remembered(ok, h.faulted, old(h.faulted))
  {
    hide Host.Valid, Fate, Inv, ReceiptStep;
    ok := AcknowledgeHandle(h, r, remains);
    if !ok { return; }
    HostInv(h);
    MayFinish(h.disk, r, version);
    ok := h.WriteReceipt(r, TerminalReceipt(h.disk.receipts[r], version));
  }

  /** The acknowledgement with its one retry. */
  method AcknowledgeTwice(h: Host, r: RunId, version: VersionId, remains: Tree) returns (ok: bool)
    requires h.Valid() && PastCommit(h.disk, r) && h.disk.journals[r].kind == Promotion
    requires r in h.disk.receipts && h.disk.receipts[r].phase == PendingPromotion
    modifies h
    ensures h.Valid() && PastCommit(h.disk, r) && (old(h.faulted) ==> h.faulted) && (!ok ==> h.faulted)
    ensures h.disk == old(h.disk).(backups := h.disk.backups, journals := h.disk.journals, receipts := h.disk.receipts)
    ensures r in h.disk.journals && SameButState(old(h.disk).journals[r], h.disk.journals[r])
    ensures r in h.disk.receipts && h.disk.receipts ==
              if ok then old(h.disk).receipts[r := TerminalReceipt(old(h.disk).receipts[r], version)] else old(h.disk).receipts
    ensures ok ==> InState(h.disk, r, Acknowledged)
  {
    hide Host.Valid, Fate, PastCommit, Inv;
    ok := Acknowledge(h, r, version, remains);
    if !ok { ok := Acknowledge(h, r, version, remains); }
  }

  lemma MayFinish(d: Disk, r: RunId, version: VersionId)
    requires Inv(d) && InState(d, r, Acknowledged) && r in d.receipts && d.receipts[r].phase == PendingPromotion
    ensures ReceiptStep(d, r, TerminalReceipt(d.receipts[r], version))
  {
    hide TreesOk, JournalsOk, VersionsOk;
    AcknowledgedReceipt(d, r);
  }

  lemma MayPublish(d: Disk, r: RunId, id: VersionId)
    requires Owner(d, r) && InState(d, r, PendingDb) && !DbNames(d, r) && Staged(d, r, id)
    requires d.persistent == Some(d.journals[r].target)
    ensures Allowed(CommitDatabase(r), d)
  {
  }

  /** The staged version's id, written into the open receipt. */
  method NoteVersion(h: Host, r: RunId, id: VersionId) returns (ok: bool)
    requires h.Valid() && Owner(h.disk, r) && InState(h.disk, r, PendingDb)
    requires r in h.disk.receipts && h.disk.receipts[r].phase == PendingPromotion
    modifies h
    ensures h.Valid() && Fate(h.disk) == old(Fate(h.disk)) && Remembered(ok, h.faulted, old(h.faulted))
    ensures h.disk == old(h.disk).(
              receipts := if ok then old(h.disk).receipts[r := old(h.disk).receipts[r].(version := Some(id))] else old(h.disk).receipts)
  {
    hide Host.Valid, Fate, ReceiptStep, Inv;
    HostInv(h);
    MayStage(h.disk, r, id);
    ok := h.WriteReceipt(r, h.disk.receipts[r].(version := Some(id)));
  }

  /** Version staging, receipt and database mutation; before the last of them nothing is decided. */
  method TryToPublish(h: Host, r: RunId, id: VersionId) returns (ok: bool)
    requires h.Valid() && Promoted(h.disk, r, Promotion) && SettledHead(h.disk) && id !in h.disk.versions
    requires h.disk.persistent == Some(h.disk.journals[r].target)
    requires r in h.disk.receipts && h.disk.receipts[r].phase == PendingPromotion
    modifies h
    ensures h.Valid() && Remembered(ok, h.faulted, old(h.faulted))
    ensures h.disk == old(h.disk).(versions := h.disk.versions, head := h.disk.head, db := h.disk.db, receipts := h.disk.receipts)
    ensures r in h.disk.receipts && h.disk.receipts == old(h.disk).receipts[r := h.disk.receipts[r]]
    ensures h.disk.receipts[r].phase == PendingPromotion
    ensures !ok ==> h.disk.db == old(h.disk).db
    ensures ok ==> DbNames(h.disk, r) && h.disk.db.value.version == id && SettledHead(h.disk)
  {
    hide Host.Valid, Fate, Allowed, Inv;
    assert h.disk.receipts[r := h.disk.receipts[r]] == h.disk.receipts;
    ok := h.Attempt();
    if ok { ok := RecordCommit(h, r, id); }
    if ok { ok := NoteVersion(h, r, id); }
    if !ok { return; }
    ok := h.Attempt();
    if !ok { return; }
    MayPublish(h.disk, r, id);
    ok := h.PublishHead(r);
  }

  lemma MayStage(d: Disk, r: RunId, id: VersionId)
    requires Inv(d) && Owner(d, r) && InState(d, r, PendingDb) && r in d.receipts && d.receipts[r].phase == PendingPromotion
    ensures ReceiptStep(d, r, d.receipts[r].(version := Some(id)))
  {
    hide TreesOk, JournalsOk, VersionsOk;
    assert ReceiptOk(d, r);
  }

  function AbortedReceipt(rc: Receipt, base: Tree): Receipt {
    Receipt(Terminal, Aborted, rc.base, base, None, false, rc.epoch + 1)
  }

  /** Publishes a promoted run, or takes it back, or leaves it to recovery. */
  method CommitRun(h: Host, r: RunId, id: VersionId, remains: Tree) returns (end: Ending)
    requires h.Valid() && Promoted(h.disk, r, Promotion) && SettledHead(h.disk) && id !in h.disk.versions
    requires h.disk.persistent == Some(h.disk.journals[r].target)
    requires r in h.disk.receipts && h.disk.receipts[r].phase == PendingPromotion
    modifies h
    ensures h.Valid() && h.disk.lock == old(h.disk).lock
    ensures r in h.disk.journals && SameButState(old(h.disk).journals[r], h.disk.journals[r])
    ensures end == Published ==>
              && InState(h.disk, r, Acknowledged) && DbNames(h.disk, r) && h.disk.db.value.version == id
              && h.disk.persistent == Some(h.disk.journals[r].target) && SettledHead(h.disk)
              && r in h.disk.receipts && h.disk.receipts[r].phase == Terminal
              && h.disk.receipts[r].decision == Committed && h.disk.receipts[r].version == Some(id)
    ensures end == Retreated ==>
              && InState(h.disk, r, RolledBack) && h.disk.db == old(h.disk).db && SettledHead(h.disk)
              && h.disk.persistent == Some(h.disk.journals[r].base) && r !in h.disk.backups
              && r in h.disk.receipts && h.disk.receipts[r].phase == Terminal && h.disk.receipts[r].decision == Aborted && h.disk.receipts[r].final == h.disk.journals[r].base
    ensures end != Locked ==> Settled(h.disk)
    ensures end == Locked ==> Swapping(h.disk, r) || (r in h.disk.receipts && h.disk.receipts[r].phase == PendingPromotion)
    ensures !h.faulted ==> end == Published
  {
    hide Host.Valid, Fate, ReceiptStep, PastCommit, Inv;
    var published := TryToPublish(h, r, id);
    if published {
      assert PastCommit(h.disk, r) by { NamedIsPast(h.disk, r); }
      HostInv(h);
      PublishedReceipt(h.disk, r);
      var ok := AcknowledgeTwice(h, r, id, remains);
      return if ok then Published else Locked;
    }
    var back := Retreat(h, r);
    if !back { return Locked; }
    MayAbort(h.disk, r);
    var ok := h.WriteReceipt(r, AbortedReceipt(h.disk.receipts[r], h.disk.journals[r].base));
    end := if ok then Retreated else Locked;
  }

  lemma PublishedReceipt(d: Disk, r: RunId)
    requires Inv(d) && r in d.journals && d.journals[r].kind == Promotion && r in d.receipts && d.receipts[r].phase == PendingPromotion
    ensures d.receipts[r].decision == Committed && d.receipts[r].final == d.journals[r].target
  {
    hide TreesOk, JournalsOk, OrphansOk, VersionsOk;
    assert ReceiptOk(d, r);
  }

  lemma NamedIsPast(d: Disk, r: RunId)
    requires InState(d, r, PendingDb) && DbNames(d, r)
    ensures PastCommit(d, r)
  {
  }

  lemma MayAbort(d: Disk, r: RunId)
    requires InState(d, r, RolledBack) && r in d.receipts && d.receipts[r].phase == PendingPromotion
    ensures ReceiptStep(d, r, AbortedReceipt(d.receipts[r], d.journals[r].base))
  {
  }

  /** How a run ends for the agent row: the last of them is unlocked although its receipt is still open. */
  datatype RunEnd = PublishedRun | UnchangedRun | LockedRun | UnreadRun

  /** What admission relies on: an unlocked agent is whole, and its index agrees with its database. */
  lemma Unlocked(d: Disk)
    requires Inv(d) && d.lock.None?
    ensures d.persistent.Some? && SettledHead(d)
  {
    hide JournalsOk, AuditOk;
  }

  /** After a failure without a rejection: one more attempt to reject, then the agent is
      unlocked unless its receipt can be read and is still open. */
  method PersistFailure(h: Host, r: RunId, base: Tree, epoch: nat) returns (end: RunEnd)
    requires h.Valid() && Owner(h.disk, r) && SettledHead(h.disk) && Undone(h.disk, r, Some(base))
    requires r in h.disk.receipts ==> h.disk.receipts[r].phase == PendingPromotion
    modifies h
    ensures h.Valid() && (old(h.faulted) ==> h.faulted)
    ensures end != PublishedRun && (end == LockedRun ==> h.faulted)
    ensures end == UnreadRun <==>
              end != LockedRun && r in h.disk.receipts && h.disk.receipts[r].phase == PendingPromotion
    ensures end == UnreadRun ==> h.faulted
    ensures h.disk == old(h.disk).(lock := if end == LockedRun then old(h.disk).lock else None, receipts := h.disk.receipts)
  {
    hide Host.Valid, Fate, Inv, Settled, Confined;
    var rejected := Reject(h, r, Aborted, base, epoch);
    var readable := h.Attempt();
    var pending := r in h.disk.receipts && h.disk.receipts[r].phase == PendingPromotion;
    var released := false;
    if !readable || !pending { released := ReleaseUnchanged(h, r, base); }
    end := if !released then LockedRun else if pending then UnreadRun else UnchangedRun;
  }

  method ReleaseUnchanged(h: Host, r: RunId, base: Tree) returns (ok: bool)
    requires h.Valid() && Owner(h.disk, r) && SettledHead(h.disk) && Undone(h.disk, r, Some(base))
    modifies h
    ensures h.Valid() && Remembered(ok, h.faulted, old(h.faulted))
    ensures h.disk == old(h.disk).(lock := if ok then None else old(h.disk).lock)
  {
    hide Host.Valid, Fate, Inv, Settled;
    UndoneIsSettled(h.disk, r, base);
    ok := h.ReleaseAgent();
  }

  lemma UndoneIsSettled(d: Disk, r: RunId, base: Tree)
    requires Owner(d, r) && SettledHead(d) && Undone(d, r, Some(base))
    ensures Settled(d)
  {
  }

  /** One run from admission to release.  It publishes exactly the sealed tree, or leaves
      tree and database as they were, or keeps the agent locked after a fault; without
      faults it publishes if and only if the evidence suffices and the world agrees. */
  method ExecuteRun(h: Host, r: RunId, permit: PermitId, id: VersionId, binding: ViewBinding, sealed: Tree, evidence: Evidence,
                    epoch: nat, w: World)
    returns (end: RunEnd)
    requires h.Valid() && h.disk.lock.None? && r !in h.disk.journals && r !in h.disk.receipts && r !in h.disk.swapped
    requires permit !in h.disk.permits && id !in h.disk.versions
    modifies h
    ensures h.Valid()
    ensures end == PublishedRun ==>
              && Sufficient(evidence, sealed) && w.latest == Some(binding) && h.disk.persistent == Some(sealed)
              && DbNames(h.disk, r) && h.disk.db.value.version == id && InState(h.disk, r, Acknowledged)
    ensures end in {UnchangedRun, UnreadRun} ==> h.disk.persistent == old(h.disk).persistent && h.disk.db == old(h.disk).db
    ensures end == LockedRun ==> h.faulted && Owner(h.disk, r)
    ensures end != LockedRun ==> h.disk.lock.None?
    ensures end == UnreadRun ==>
              h.faulted && r in h.disk.receipts && h.disk.receipts[r].phase == PendingPromotion && !Swapping(h.disk, r)
    ensures !h.faulted ==> (end == PublishedRun <==> Sufficient(evidence, sealed) && Willing(w, sealed, binding))
  {
    hide Host.Valid, Fate, Settled, Confined;
    HostInv(h);
    Unlocked(h.disk);
    hide Inv;
    var ok := h.AdmitRun(r);
    if !ok { return UnchangedRun; }
    HostInv(h);
    Transaction.Admitted(h.disk, r);
    ghost var admitted := h.disk;
    var base := h.disk.lock.value.tree;
    var fin := FinalizePromotion(h, r, permit, base, binding, sealed, evidence, epoch, w);
    ConfinedFacts(admitted, h.disk, r, permit);
    if fin == NeedsRecovery { return LockedRun; }
    if fin == Unreported {
      end := PersistFailure(h, r, base, epoch);
      return;
    }
    end := UnchangedRun;
    if fin == CommittedRun {
      var published := CommitRun(h, r, id, w.partial);
      if published == Locked { return LockedRun; }
      if published == Published { end := PublishedRun; }
    }
    ok := h.ReleaseAgent();
    if !ok { end := LockedRun; }
  }
}
