/**
 Startup recovery as the code runs it: loops over journals and receipts that
 apply one durable effect at a time, each of which may fail.  An undisturbed pass
 computes `RecoveryPlan.Pass`; a disturbed or killed one is still a legal stretch
 of the run that decides nothing, so it can simply be started again.
 */
module StartupRecovery {
  import opened Wrappers
  import opened Protocol
  import opened Runs
  import opened RecoveryPlan
  import opened RecoveryPass
  import opened HostState
  import opened Coordinator
  import AgentTransaction
  import Transaction

  /** No recovery step admits, releases, commits, or forgets a journal or receipt. */
  ghost predicate Steady(d: Disk, e: Disk) {
    && Fate(e) == Fate(d) && e.lock == d.lock && e.db == d.db && e.orphans == d.orphans
    && e.journals.Keys == d.journals.Keys && e.receipts.Keys == d.receipts.Keys
  }

  lemma SteadyTrans(d: Disk, e: Disk, f: Disk)
    requires Steady(d, e) && Steady(e, f)
    ensures Steady(d, f)
  {
    hide Fate;
  }

  /** Append-once. */
  method NoteOnce(h: Host, e: Event) returns (ok: bool)
    requires h.Valid() && EventOk(h.disk, e)
    modifies h
    ensures h.Valid() && Fate(h.disk) == old(Fate(h.disk)) && Remembered(ok, h.faulted, old(h.faulted))
    ensures h.disk == old(h.disk).(events := h.disk.events)
    ensures ok ==> h.disk == Note(old(h.disk), e)
  {
    hide Host.Valid, Fate, Inv;
    ok := h.Attempt();
    if !ok || exists f <- h.disk.events :: SameEvent(e, f) { return; }
    MayNote(h.disk, e);
    ok := h.AddEvent(e);
  }

  lemma MayNote(d: Disk, e: Event)
    requires EventOk(d, e) && !(exists f <- d.events :: SameEvent(e, f))
    ensures Allowed(AppendEvent(e), d)
  {
  }

  lemma MayRecover(d: Disk, r: RunId, version: Option<VersionId>, final: Option<Tree>)
    requires Inv(d) && InState(d, r, Acknowledged) && (final.Some? ==> final.value == d.journals[r].target)
    requires r in d.receipts && d.receipts[r].phase != Terminal
    ensures ReceiptStep(d, r, RecoveredReceipt(d.receipts[r], version, final))
  {
    hide TreesOk, JournalsOk, VersionsOk;
    AcknowledgedReceipt(d, r);
  }

  method AcknowledgeReceipt(h: Host, r: RunId, version: Option<VersionId>, final: Option<Tree>) returns (ok: bool)
    requires h.Valid() && InState(h.disk, r, Acknowledged) && (final.Some? ==> final.value == h.disk.journals[r].target)
    modifies h
    ensures h.Valid() && Steady(old(h.disk), h.disk) && Remembered(ok, h.faulted, old(h.faulted))
    ensures SameButAudit(old(h.disk), h.disk)
    ensures ok ==> h.disk == UpdateRecoveredReceipt(old(h.disk), r, version, final)
  {
    hide Host.Valid, Fate, ReceiptStep, Note, Inv;
    var e := AcknowledgedEvent(h.disk, r, final);
    ok := NoteOnce(h, e);
    if !ok || r !in h.disk.receipts || h.disk.receipts[r].phase == Terminal { return; }
    HostInv(h);
    MayRecover(h.disk, r, version, final);
    ok := h.WriteReceipt(r, RecoveredReceipt(h.disk.receipts[r], version, final));
  }

  lemma MayAbortReceipt(d: Disk, r: RunId, base: Tree)
    requires r in d.receipts && d.receipts[r].phase != Terminal && (r in d.journals ==> InState(d, r, RolledBack))
    ensures ReceiptStep(d, r, RolledBackReceipt(d.receipts[r], base))
  {
  }

  lemma MarkedIs(d: Disk, r: RunId, base: Tree)
    ensures (if r in d.journals then InState(d, r, RolledBack) else r in d.receipts) ==> EventOk(d, RolledBackEvent(d, r, base))
    ensures var noted := Note(d, RolledBackEvent(d, r, base));
            MarkReceiptRolledBack(d, r, base) ==
              if r in d.receipts && d.receipts[r].phase != Terminal
              then noted.(receipts := noted.receipts[r := RolledBackReceipt(d.receipts[r], base)]) else noted
  {
    hide Note;
  }

  method AbortReceipt(h: Host, r: RunId, base: Tree) returns (ok: bool)
    requires h.Valid() && (if r in h.disk.journals then InState(h.disk, r, RolledBack) else r in h.disk.receipts)
    modifies h
    ensures h.Valid() && Steady(old(h.disk), h.disk) && Remembered(ok, h.faulted, old(h.faulted))
    ensures SameButAudit(old(h.disk), h.disk)
    ensures ok ==> h.disk == MarkReceiptRolledBack(old(h.disk), r, base)
  {
    MarkedIs(h.disk, r, base);
    hide Host.Valid, Fate, ReceiptStep, Note, Inv, MarkReceiptRolledBack, EventOk, RolledBackEvent, RolledBackReceipt;
    var e := RolledBackEvent(h.disk, r, base);
    ok := NoteOnce(h, e);
    if ok && r in h.disk.receipts && h.disk.receipts[r].phase != Terminal {
      MayAbortReceipt(h.disk, r, base);
      ok := h.WriteReceipt(r, RolledBackReceipt(h.disk.receipts[r], base));
    }
  }

  method RevertRun(h: Host, r: RunId) returns (ok: bool)
    requires h.Valid() && InState(h.disk, r, RolledBack)
    modifies h
    ensures h.Valid() && Steady(old(h.disk), h.disk) && Remembered(ok, h.faulted, old(h.faulted))
    ensures h.disk == old(h.disk).(versions := h.disk.versions, head := h.disk.head)
    ensures ok ==> h.disk == Revert(old(h.disk), r)
  {
    hide Host.Valid, Fate, Inv;
    ok := true;
    if HeadIsRun(h.disk, r) && h.disk.versions[h.disk.head.value].kind != Initial {
      ok := h.DropVersion(r);
    }
  }

  /** Version index, event and receipt of a rolled-back journal. */
  method CleanUp(h: Host, r: RunId, base: Tree) returns (ok: bool)
    requires h.Valid() && InState(h.disk, r, RolledBack)
    modifies h
    ensures h.Valid() && Steady(old(h.disk), h.disk) && Remembered(ok, h.faulted, old(h.faulted))
    ensures ok ==> h.disk == MarkReceiptRolledBack(Revert(old(h.disk), r), r, base)
  {
    hide Host.Valid, Fate, Inv, Revert, MarkReceiptRolledBack;
    ok := RevertRun(h, r);
    if !ok { return; }
    ghost var reverted := h.disk;
    ok := AbortReceipt(h, r, base);
    hide Steady;
    SteadyTrans(old(h.disk), reverted, h.disk);
  }

  /** PREPARING: discard the staging tree and close. */
  method Discard(h: Host, r: RunId) returns (ok: bool)
    requires h.Valid() && InState(h.disk, r, Preparing)
    modifies h
    ensures h.Valid() && Steady(old(h.disk), h.disk) && Remembered(ok, h.faulted, old(h.faulted))
    ensures ok ==> h.disk == old(h.disk).(staging := old(h.disk).staging - {r},
                      journals := old(h.disk).journals[r := old(h.disk).journals[r].(state := RolledBack)])
  {
    hide Host.Valid, Fate, Inv, JournalStep;
    ok := h.DeleteStaging(r);
    if !ok { return; }
    Transaction.MayAbandon(h.disk, r);
    ok := h.WriteJournal(r, h.disk.journals[r].(state := RolledBack));
  }

  /** Database and workspace agree: drop the backup, acknowledge, finish the receipt. */
  method Confirm(h: Host, r: RunId, remains: Tree) returns (ok: bool)
    requires h.Valid() && InState(h.disk, r, PendingDb) && DbNames(h.disk, r)
    modifies h
    ensures h.Valid() && Steady(old(h.disk), h.disk) && Remembered(ok, h.faulted, old(h.faulted))
    ensures ok ==>
              var acknowledged := Mark(Apply(RemoveBackup(r), old(h.disk)), r, Acknowledged);
              h.disk == if old(h.disk).journals[r].kind == Promotion
                        then UpdateRecoveredReceipt(acknowledged, r, old(h.disk).head, None) else acknowledged
  {
    hide Host.Valid, Fate, Inv, JournalStep, UpdateRecoveredReceipt;
    ok := h.DeleteBackup(r, remains);
    if !ok { return; }
    AgentTransaction.MayAcknowledge(h.disk, r);
    ok := h.WriteJournal(r, h.disk.journals[r].(state := Acknowledged));
    if !ok || h.disk.journals[r].kind == Rollback { return; }
    ghost var acknowledged := h.disk;
    assert Steady(old(h.disk), acknowledged);
    hide Steady;
    ok := AcknowledgeReceipt(h, r, h.disk.head, None);
    SteadyTrans(old(h.disk), acknowledged, h.disk);
  }

  /** Put the backup back, then clean up. */
  method RestoreAndCleanUp(h: Host, r: RunId) returns (ok: bool)
    requires h.Valid() && Swapping(h.disk, r) && !DbNames(h.disk, r)
    modifies h
    ensures h.Valid() && Steady(old(h.disk), h.disk) && Remembered(ok, h.faulted, old(h.faulted))
    ensures RestoreBackup(old(h.disk), r).1
    ensures ok ==> var m := RestoreBackup(old(h.disk), r).0;
                   h.disk == MarkReceiptRolledBack(Revert(m, r), r, old(h.disk).journals[r].base)
  {
    hide Host.Valid, Fate, Inv, Revert, MarkReceiptRolledBack, RestoreBackup;
    HostInv(h);
    RestoreSucceeds(h.disk, r);
    ok := RollbackJournal(h, r);
    if !ok { return; }
    ghost var restored := h.disk;
    assert Steady(old(h.disk), restored);
    hide Steady;
    ok := CleanUp(h, r, h.disk.journals[r].base);
    SteadyTrans(old(h.disk), restored, h.disk);
  }

  /** The tree is already the base: close, then clean up. */
  method CloseAndCleanUp(h: Host, r: RunId) returns (ok: bool)
    requires h.Valid() && Swapping(h.disk, r) && !DbNames(h.disk, r)
    requires r !in h.disk.backups && h.disk.persistent == Some(h.disk.journals[r].base)
    modifies h
    ensures h.Valid() && Steady(old(h.disk), h.disk) && Remembered(ok, h.faulted, old(h.faulted))
    ensures ok ==> h.disk == MarkReceiptRolledBack(Revert(Mark(old(h.disk), r, RolledBack), r), r, old(h.disk).journals[r].base)
  {
    hide Host.Valid, Fate, Inv, Revert, MarkReceiptRolledBack, JournalStep;
    Transaction.MayUndo(h.disk, r);
    ok := h.WriteJournal(r, h.disk.journals[r].(state := RolledBack));
    if !ok { return; }
    ghost var closed := h.disk;
    assert Steady(old(h.disk), closed);
    hide Steady;
    ok := CleanUp(h, r, h.disk.journals[r].base);
    SteadyTrans(old(h.disk), closed, h.disk);
  }

  /** The ladder of tests for one unfinished swap. */
  method Reconcile(h: Host, r: RunId, remains: Tree) returns (v: Verdict)
    requires h.Valid() && Swapping(h.disk, r)
    modifies h
    ensures h.Valid() && Steady(old(h.disk), h.disk) && (old(h.faulted) ==> h.faulted)
    ensures !h.faulted ==> (h.disk, v) == RecoverJournal(old(h.disk), r)
  {
    hide Host.Valid, Fate, Revert, MarkReceiptRolledBack, RestoreBackup, UpdateRecoveredReceipt, Steady;
    HostInv(h);
    var j := h.disk.journals[r];
    SteadySame(h.disk);
    var live := h.ReadLive();
    var readable := h.Attempt();
    if !readable || (live.None? && h.disk.persistent.Some?) { return ManualIntervention; }
    var ok: bool;
    if j.state == PendingDb && DatabaseCommitted(h.disk, r) && live == Some(j.target) {
      assert Agreed(h.disk, r);
      CommittedIffNamed(h.disk, r);
      CommittedBranch(h.disk, r);
      hide Inv, RecoverJournal;
      if !RollbackVersionAgrees(h.disk, r) { return ManualIntervention; }
      ok := Confirm(h, r, remains);
      return if ok then AcknowledgedRun else ManualIntervention;
    }
    assert !Agreed(h.disk, r);
    NotCommitted(h.disk, r);
    UncommittedBase(h.disk, r);
    UncommittedBranch(h.disk, r);
    hide Inv, RecoverJournal, DatabaseCommitted, Agreed;
    if r in h.disk.backups {
      ok := RestoreAndCleanUp(h, r);
    } else if live == Some(j.base) {
      ok := CloseAndCleanUp(h, r);
    } else {
      ok := false;
    }
    v := if ok then RolledBackRun else ManualIntervention;
  }

  lemma SteadySame(d: Disk)
    ensures Steady(d, d)
  {
  }

  lemma NotCommitted(d: Disk, r: RunId)
    requires Inv(d) && Swapping(d, r) && !Agreed(d, r)
    ensures !DbNames(d, r)
  {
    if InState(d, r, PendingDb) {
      hide Inv, Agreed;
      CommittedIffNamed(d, r);
    } else {
      InvParts(d);
      hide Inv;
      PromotingUnnamed(d, r);
    }
  }

  /** One journal of the pass. */
  method VisitJournal(h: Host, r: RunId, remains: Tree) returns (v: Verdict)
    requires h.Valid() && r in h.disk.journals
    modifies h
    ensures h.Valid() && Steady(old(h.disk), h.disk) && (old(h.faulted) ==> h.faulted)
    ensures !h.faulted ==> (h.disk, v) == RecoverJournal(old(h.disk), r)
  {
    hide Host.Valid, Fate, Inv, Revert, MarkReceiptRolledBack, UpdateRecoveredReceipt, Steady;
    var j := h.disk.journals[r];
    SteadySame(h.disk);
    if j.state == Acknowledged {
      var ok := true;
      if j.kind == Promotion { ok := AcknowledgeReceipt(h, r, None, Some(j.target)); }
      return if ok then AcknowledgedRun else ManualIntervention;
    }
    if j.state == RolledBack {
      var ok := CleanUp(h, r, j.base);
      return if ok then RolledBackRun else ManualIntervention;
    }
    if j.state == Preparing {
      MarkOnly(h.disk, r, RolledBack);
      MarkOnly(Apply(RemoveStaging(r), h.disk), r, RolledBack);
      var ok := Discard(h, r);
      return if ok then Cleaned else ManualIntervention;
    }
    hide RecoverJournal;
    v := Reconcile(h, r, remains);
  }

  /** One receipt of the pass; a failure here escapes the whole pass. */
  method VisitReceipt(h: Host, r: RunId) returns (v: Option<Verdict>, ok: bool)
    requires h.Valid() && r in h.disk.receipts
    modifies h
    ensures h.Valid() && Steady(old(h.disk), h.disk) && (old(h.faulted) ==> h.faulted)
    ensures ok ==> (h.disk, v) == RecoverReceipt(old(h.disk), r)
    ensures !ok ==> h.faulted
  {
    hide Host.Valid, Fate, Inv, MarkReceiptRolledBack, Steady;
    var rc := h.disk.receipts[r];
    SteadySame(h.disk);
    if rc.phase != PendingPromotion || r in h.disk.journals { return None, true; }
    var live := h.ReadLive();
    if live.None? && h.disk.persistent.Some? { return None, false; }
    if live != Some(rc.base) { return Some(ManualIntervention), true; }
    ok := AbortReceipt(h, r, rc.base);
    v := Some(RolledBackRun);
  }

  /** A startup pass over a disk without orphaned swaps: it may be killed at any effect
      and started again. */
  method Recover(h: Host, journals: seq<RunId>, receipts: seq<RunId>, remains: Tree)
    returns (verdicts: seq<Verdict>, completed: bool)
    requires h.Valid() && h.disk.orphans == map[]
    modifies h
    ensures h.Valid() && Steady(old(h.disk), h.disk)
    ensures !h.faulted ==> completed && (h.disk, verdicts) == Pass(old(h.disk), journals, receipts)
  {
    hide Host.Valid, Fate, Inv, RecoverJournal, RecoverReceipt, Steady;
    ghost var start := h.disk;
    SteadySame(start);
    verdicts := [];
    for i := 0 to |journals|
      invariant h.Valid() && Steady(start, h.disk)
      invariant !h.faulted ==> (h.disk, verdicts) == RecoverJournals(start, journals[..i])
    {
      ghost var before := h.disk;
      assert journals[..i + 1][..i] == journals[..i];
      if journals[i] in h.disk.journals {
        var v := VisitJournal(h, journals[i], remains);
        SteadyTrans(start, before, h.disk);
        verdicts := verdicts + [v];
      }
    }
    assert journals[..|journals|] == journals;
    ghost var middle, first := h.disk, verdicts;
    var second: seq<Verdict> := [];
    for i := 0 to |receipts|
      invariant h.Valid() && Steady(start, h.disk)
      invariant !h.faulted ==> (middle, first) == RecoverJournals(start, journals)
      invariant !h.faulted ==> (h.disk, second) == RecoverReceipts(middle, receipts[..i])
    {
      ghost var before := h.disk;
      assert receipts[..i + 1][..i] == receipts[..i];
      if receipts[i] in h.disk.receipts {
        var v, ok := VisitReceipt(h, receipts[i]);
        SteadyTrans(start, before, h.disk);
        if !ok { return verdicts, false; }
        if v.Some? { second := second + [v.value]; }
      }
    }
    assert receipts[..|receipts|] == receipts;
    ghost var before := h.disk;
    completed := SweepStaging(h);
    SteadyTrans(start, before, h.disk);
    verdicts := verdicts + second;
  }

  /** Startup after a kill at any point.  Disturbed, it has decided nothing and can be
      run again; undisturbed, it leaves the one outcome the crash already had and every
      journal closed, and it is healthy exactly when no stale receipt is open. */
  method RecoverAfterKill(h: Host, journals: seq<RunId>, receipts: seq<RunId>, remains: Tree) returns (healthy: bool)
    requires h.Valid() && h.disk.orphans == map[]
    requires Listing(journals, h.disk.journals.Keys) && Listing(receipts, h.disk.receipts.Keys)
    modifies h
    ensures h.Valid() && Fate(h.disk) == old(Fate(h.disk)) && h.disk.db == old(h.disk).db && h.disk.lock == old(h.disk).lock
    ensures !h.faulted ==> Recovered(old(h.disk), h.disk)
    ensures !h.faulted ==> (healthy <==> forall r <- old(h.disk).receipts :: !Stale(old(h.disk), r))
  {
    hide Host.Valid, Inv, Fate, Pass, Recovered, Listing, Stale;
    HostInv(h);
    PassRecovers(h.disk, journals, receipts);
    var verdicts, completed := Recover(h, journals, receipts, remains);
    healthy := completed && ManualIntervention !in verdicts;
  }

  /** Orphaned staging directories, removed one by one until one removal fails. */
  method SweepStaging(h: Host) returns (ok: bool)
    requires h.Valid()
    modifies h
    ensures h.Valid() && Steady(old(h.disk), h.disk) && Remembered(ok, h.faulted, old(h.faulted))
    ensures ok ==> h.disk == old(h.disk).(staging := map[])
  {
    hide Host.Valid, Inv, Fate;
    var names := h.disk.staging.Keys;
    while names != {}
      invariant h.Valid() && Fate(h.disk) == old(Fate(h.disk)) && h.faulted == old(h.faulted)
      invariant h.disk == old(h.disk).(staging := h.disk.staging)
      invariant h.disk.staging.Keys <= names
      decreases |names|
    {
      var name :| name in names;
      ok := h.DeleteStaging(name);
      if !ok { return; }
      names := names - {name};
    }
    ok := true;
  }
}
