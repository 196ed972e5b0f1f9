/**
 After a pass has taken orphaned swaps back.  On an unlocked agent the pass leaves a
 disk that satisfies the invariant again, with every journal closed, whether or not the
 tree it leaves is the one the database names; so everything proved from the invariant
 holds of what happens next.
 */
module Reinstatement {
  import opened Wrappers
  import opened Protocol
  import opened Runs
  import opened RecoveryPlan
  import opened RecoveryPass
  import opened UnfinishedRelease

  /** The orphaned swap undone: its base live, its journal closed and back among the others. */
  function Reinstated(d: Disk, r: RunId): Disk
    requires r in d.orphans
  {
    var j := d.orphans[r].journal;
    d.(persistent := Some(j.base), staging := d.staging - {r}, orphans := d.orphans - {r},
       failed := if d.persistent.Some? then d.failed + [d.persistent.value] else d.failed,
       journals := d.journals[r := j.(state := RolledBack)])
  }

  lemma ReinstatedTrees(d: Disk, r: RunId)
    requires Inv(d) && d.lock.None? && r in d.orphans
    ensures TreesOk(Reinstated(d, r)) && OrphansOk(Reinstated(d, r))
  {
    hide JournalsOk, VersionsOk, AuditOk, Covers;
    var e := Reinstated(d, r);
    forall s <- e.orphans ensures OrphanOk(e, s) { assert OrphanOk(d, s); }
  }

  lemma ReinstatedJournals(d: Disk, r: RunId)
    requires Inv(d) && d.lock.None? && r in d.orphans
    ensures JournalsOk(Reinstated(d, r))
  {
    hide TreesOk, VersionsOk, AuditOk, TargetRecorded;
    var e := Reinstated(d, r);
    assert OrphanOk(d, r);
    forall s <- e.journals ensures JournalOk(e, s) { if s in d.journals { assert JournalOk(d, s); } }
  }

  lemma ReinstatedVersions(d: Disk, r: RunId)
    requires Inv(d) && d.lock.None? && r in d.orphans
    ensures VersionsOk(Reinstated(d, r))
  {
    hide TreesOk, JournalsOk, AuditOk, Covers;
    var e := Reinstated(d, r);
    assert OrphanOk(d, r);
    forall id <- e.versions ensures VersionOk(e, id) { assert VersionOk(d, id); }
  }

  lemma ReinstatedAudit(d: Disk, r: RunId)
    requires Inv(d) && d.lock.None? && r in d.orphans
    ensures AuditOk(Reinstated(d, r))
  {
    hide TreesOk, JournalsOk, VersionsOk, Covers;
    var e := Reinstated(d, r);
    assert OrphanOk(d, r);
    forall s <- e.receipts ensures ReceiptOk(e, s) { assert ReceiptOk(d, s); }
    forall f <- e.events ensures EventOk(e, f) { assert EventOk(d, f); }
  }

  lemma ReinstatedInv(d: Disk, r: RunId)
    requires Inv(d) && d.lock.None? && r in d.orphans
    ensures Inv(Reinstated(d, r)) && r !in d.journals
  {
    ReinstatedTrees(d, r);
    ReinstatedJournals(d, r);
    ReinstatedVersions(d, r);
    ReinstatedAudit(d, r);
    assert OrphanOk(d, r);
    hide TreesOk, JournalsOk, OrphansOk, VersionsOk, AuditOk;
  }

  // -------------------------------------------- the files of orphans left aside

  lemma AuditBeside(d: Disk, e: Disk)
    requires SameButAudit(d, e)
    ensures OnDisk(e) == OnDisk(d).(receipts := e.receipts, events := e.events)
    ensures OnDisk(d).receipts == d.receipts && OnDisk(d).events == d.events
  {
  }

  lemma NotedBeside(d: Disk, e: Event)
    ensures Note(OnDisk(d), e) == OnDisk(Note(d, e))
  {
    NoteOnly(d, e);
    AuditBeside(d, Note(d, e));
    hide OnDisk;
  }

  lemma ReceiptBeside(d: Disk, r: RunId, rc: Receipt)
    ensures Apply(PutReceipt(r, rc), OnDisk(d)) == OnDisk(Apply(PutReceipt(r, rc), d))
  {
  }

  lemma MarkedBeside(d: Disk, r: RunId, base: Tree)
    ensures MarkReceiptRolledBack(OnDisk(d), r, base) == OnDisk(MarkReceiptRolledBack(d, r, base))
  {
    AuditBeside(d, d);
    NotedBeside(d, RolledBackEvent(d, r, base));
    if r in d.receipts {
      ReceiptBeside(Note(d, RolledBackEvent(d, r, base)), r, RolledBackReceipt(d.receipts[r], base));
    }
    hide OnDisk, Note, Apply, RolledBackReceipt;
  }

  lemma UpdatedBeside(d: Disk, r: RunId, version: Option<VersionId>, final: Option<Tree>)
    ensures UpdateRecoveredReceipt(OnDisk(d), r, version, final) == OnDisk(UpdateRecoveredReceipt(d, r, version, final))
  {
    AuditBeside(d, d);
    NotedBeside(d, AcknowledgedEvent(d, r, final));
    if r in d.receipts {
      ReceiptBeside(Note(d, AcknowledgedEvent(d, r, final)), r, RecoveredReceipt(d.receipts[r], version, final));
    }
    hide OnDisk, Note, Apply, RecoveredReceipt;
  }

  lemma VersionsBeside(d: Disk, e: Disk)
    requires e == d.(versions := e.versions, head := e.head)
    ensures OnDisk(e) == OnDisk(d).(versions := e.versions, head := e.head)
    ensures OnDisk(d).versions == d.versions && OnDisk(d).head == d.head
  {
  }

  lemma RevertedBeside(d: Disk, r: RunId)
    ensures Revert(OnDisk(d), r) == OnDisk(Revert(d, r))
  {
    RevertOnly(d, r);
    VersionsBeside(d, Revert(d, r));
    hide OnDisk;
  }

  lemma DiscardedBeside(d: Disk, r: RunId)
    requires r in d.journals && r !in d.orphans
    ensures Mark(Apply(RemoveStaging(r), OnDisk(d)), r, RolledBack) == OnDisk(Mark(Apply(RemoveStaging(r), d), r, RolledBack))
  {
    MarkOnly(d, r, RolledBack);
    MarkOnly(Apply(RemoveStaging(r), d), r, RolledBack);
    MarkOnly(OnDisk(d), r, RolledBack);
    MarkOnly(Apply(RemoveStaging(r), OnDisk(d)), r, RolledBack);
    hide Mark, Apply;
  }

  /** The visit of a journal that no orphaned swap owns does not see the orphans. */
  lemma VisitBesideOrphans(d: Disk, r: RunId)
    requires r in d.journals && r !in d.orphans && !Swapping(d, r)
    ensures RecoverJournal(OnDisk(d), r).0 == OnDisk(RecoverJournal(d, r).0)
  {
    var j := d.journals[r];
    assert OnDisk(d).journals[r] == j;
    ClosedBranch(d, r);
    ClosedBranch(OnDisk(d), r);
    UpdatedBeside(d, r, None, Some(j.target));
    RevertedBeside(d, r);
    MarkedBeside(Revert(d, r), r, j.base);
    DiscardedBeside(d, r);
    hide RecoverJournal, UpdateRecoveredReceipt, MarkReceiptRolledBack, Revert, Mark, Apply, OnDisk;
  }

  lemma RestoredOrphan(d: Disk, r: RunId)
    requires r in d.orphans && r !in d.journals && r !in d.backups && d.orphans[r].backup == d.orphans[r].journal.base
    ensures RestoreBackup(OnDisk(d), r) == (OnDisk(Reinstated(d, r)), true)
  {
    RestoreBackupResult(OnDisk(d), r);
    MoveOnly(OnDisk(d), r);
    OrphanFiles(d, r);
    hide RestoreBackup, MoveBackup, OnDisk;
  }

  lemma JournalMoves(journals: map<RunId, Journal>, orphans: map<RunId, Orphan>, r: RunId, j: Journal)
    requires r in orphans
    ensures (journals[r := j]) + (map s <- (orphans - {r}) :: (orphans - {r})[s].journal)
            == (journals + map s <- orphans :: orphans[s].journal)[r := j]
  {
  }

  lemma BackupLeaves(backups: map<RunId, Tree>, orphans: map<RunId, Orphan>, r: RunId)
    requires r in orphans && r !in backups
    ensures backups + (map s <- (orphans - {r}) :: (orphans - {r})[s].backup)
            == (backups + map s <- orphans :: orphans[s].backup) - {r}
  {
  }

  lemma OrphanFiles(d: Disk, r: RunId)
    requires r in d.orphans && r !in d.journals && r !in d.backups
    ensures var j, o, e := d.orphans[r].journal, OnDisk(d), Reinstated(d, r);
            && r in o.journals && o.journals[r] == j && r in o.backups && o.backups[r] == d.orphans[r].backup
            && OnDisk(e) ==
                 o.(persistent := Some(j.base), staging := o.staging - {r}, backups := o.backups - {r},
                    failed := if o.persistent.Some? then o.failed + [o.persistent.value] else o.failed,
                    journals := o.journals[r := j.(state := RolledBack)])
  {
    JournalMoves(d.journals, d.orphans, r, d.orphans[r].journal.(state := RolledBack));
    BackupLeaves(d.backups, d.orphans, r);
  }

  lemma OrphanUnversioned(d: Disk, r: RunId)
    requires Inv(d) && r in d.orphans
    ensures !HeadIsRun(OnDisk(d), r)
  {
    assert OrphanOk(d, r);
    hide TreesOk, JournalsOk, AuditOk;
    assert VersionOk(d, d.head.value);
  }

  /** The visit of an orphan takes its swap back and leaves the other orphans aside. */
  lemma VisitOrphan(d: Disk, r: RunId) returns (e: Disk)
    requires Inv(d) && d.lock.None? && r in d.orphans
    ensures r in OnDisk(d).journals && RecoverJournal(OnDisk(d), r).0 == OnDisk(e)
    ensures Inv(e) && e.lock.None? && e.db == d.db && e.receipts.Keys == d.receipts.Keys
    ensures e.orphans == d.orphans - {r}
    ensures e.journals == d.journals[r := d.orphans[r].journal.(state := RolledBack)]
  {
    var base := d.orphans[r].journal.base;
    assert OrphanOk(d, r);
    OrphanIsUndone(d, r);
    UnnamedDisagrees(OnDisk(d), r);
    UncommittedBranch(OnDisk(d), r);
    OrphanUnversioned(d, r);
    RestoredOrphan(d, r);
    MarkedBeside(Reinstated(d, r), r, base);
    ReinstatedInv(d, r);
    hide Inv, RecoverJournal, RestoreBackup, MarkReceiptRolledBack, Agreed, Fate;
    MarkReceiptRolledBackKeeps(Reinstated(d, r), r, base);
    assert Revert(OnDisk(Reinstated(d, r)), r) == OnDisk(Reinstated(d, r));
    e := MarkReceiptRolledBack(Reinstated(d, r), r, base);
  }

  lemma VisitOwned(d: Disk, r: RunId) returns (e: Disk)
    requires Inv(d) && d.lock.None? && r in d.journals
    ensures r in OnDisk(d).journals && RecoverJournal(OnDisk(d), r).0 == OnDisk(e)
    ensures Inv(e) && e.lock.None? && e.db == d.db && e.receipts.Keys == d.receipts.Keys
    ensures e.orphans == d.orphans
    ensures e.journals.Keys == d.journals.Keys && (forall s <- d.journals :: s != r ==> e.journals[s] == d.journals[s])
    ensures TerminalState(e, r)
  {
    OwnedIsClosed(d, r);
    VisitBesideOrphans(d, r);
    hide Inv, RecoverJournal, Fate, PastCommit, TerminalState;
    RecoverJournalCloses(d, r);
    e := RecoverJournal(d, r).0;
  }

  lemma OwnedIsClosed(d: Disk, r: RunId)
    requires Inv(d) && d.lock.None? && r in d.journals
    ensures r !in d.orphans && !Swapping(d, r)
  {
    hide TreesOk, VersionsOk, AuditOk;
    assert JournalOk(d, r);
    assert r in d.orphans ==> OrphanOk(d, r);
  }

  /** What the journal part of a pass has made of an unlocked disk once it has visited `runs`. */
  ghost predicate Healing(d: Disk, m: Disk, runs: seq<RunId>) {
    && Inv(m) && m.lock.None? && m.db == d.db && m.receipts.Keys == d.receipts.Keys
    && (forall r :: r in m.orphans <==> r in d.orphans && r !in runs)
    && (forall r :: r in m.journals <==> r in d.journals || (r in d.orphans && r in runs))
    && (forall r <- runs :: r in m.journals ==> TerminalState(m, r))
  }

  lemma HealOrphan(d: Disk, m: Disk, runs: seq<RunId>, r: RunId) returns (e: Disk)
    requires Healing(d, m, runs) && r in m.orphans
    ensures r in OnDisk(m).journals && RecoverJournal(OnDisk(m), r).0 == OnDisk(e) && Healing(d, e, runs + [r])
  {
    hide Inv, RecoverJournal, OnDisk;
    e := VisitOrphan(m, r);
  }

  lemma HealOwned(d: Disk, m: Disk, runs: seq<RunId>, r: RunId) returns (e: Disk)
    requires Healing(d, m, runs) && r in m.journals
    ensures r in OnDisk(m).journals && RecoverJournal(OnDisk(m), r).0 == OnDisk(e) && Healing(d, e, runs + [r])
  {
    hide Inv, RecoverJournal, OnDisk;
    OwnedIsClosed(m, r);
    e := VisitOwned(m, r);
  }

  lemma {:induction false} JournalsHeal(d: Disk, runs: seq<RunId>) returns (m: Disk)
    requires Inv(d) && d.lock.None?
    ensures RecoverJournals(OnDisk(d), runs).0 == OnDisk(m) && Healing(d, m, runs)
  {
    hide Inv, RecoverJournal, OnDisk, Healing;
    if runs == [] {
      m := d;
      NothingHealed(d);
    } else {
      var init, r := runs[..|runs| - 1], runs[|runs| - 1];
      var before := JournalsHeal(d, init);
      assert runs == init + [r];
      if r in before.orphans {
        m := HealOrphan(d, before, init, r);
      } else if r in before.journals {
        m := HealOwned(d, before, init, r);
      } else {
        m := before;
        HealAbsent(d, before, init, r);
      }
    }
  }

  lemma NothingHealed(d: Disk)
    requires Inv(d) && d.lock.None?
    ensures Healing(d, d, [])
  {
    hide Inv;
  }

  lemma HealAbsent(d: Disk, m: Disk, runs: seq<RunId>, r: RunId)
    requires Healing(d, m, runs) && r !in m.orphans && r !in m.journals
    ensures r !in OnDisk(m).journals && Healing(d, m, runs + [r])
  {
    hide Inv;
  }

  lemma OnDiskKeys(d: Disk)
    ensures OnDisk(d).journals.Keys == d.journals.Keys + d.orphans.Keys
  {
  }

  lemma HealedAll(d: Disk, m: Disk, journals: seq<RunId>)
    requires Healing(d, m, journals) && Listing(journals, OnDisk(d).journals.Keys)
    ensures Inv(m) && m.lock.None? && m.orphans == map[] && OnDisk(m) == m && AllTerminal(m)
    ensures m.journals.Keys == OnDisk(d).journals.Keys && m.receipts.Keys == d.receipts.Keys && m.db == d.db
  {
    hide Inv, TerminalState, OnDisk;
    OnDiskKeys(d);
    assert m.orphans == map[];
    NoOrphanOnDisk(m);
  }

  lemma SweptHeals(d: Disk, receipts: seq<RunId>)
    requires Inv(d) && d.lock.None? && AllTerminal(d)
    ensures var e := RecoverReceipts(d, receipts).0.(staging := map[]);
            && Inv(e) && AllTerminal(e) && SettledHead(e) && e.backups == map[]
            && e.lock == d.lock && e.db == d.db && e.orphans == d.orphans
            && e.journals == d.journals && e.receipts.Keys == d.receipts.Keys
  {
    hide Inv, Fate, RecoverReceipts, Swept, PastCommit, Unclaimed;
    RecoverReceiptsSweeps(d, receipts);
    var swept := RecoverReceipts(d, receipts).0;
    StagingInv(swept);
    UnlockedIsSettled(swept.(staging := map[]));
  }

  /** A pass over an unlocked agent, whatever swaps were orphaned, leaves no orphan, no
      backup and no open journal, and a disk that satisfies the invariant again. */
  lemma UnlockedPassHeals(d: Disk, journals: seq<RunId>, receipts: seq<RunId>)
    requires Inv(d) && d.lock.None? && Listing(journals, OnDisk(d).journals.Keys)
    ensures var e := Pass(OnDisk(d), journals, receipts).0;
            && Inv(e) && AllTerminal(e) && SettledHead(e)
            && e.lock.None? && e.db == d.db && e.orphans == map[] && e.backups == map[] && e.staging == map[]
            && e.journals.Keys == OnDisk(d).journals.Keys && e.receipts.Keys == d.receipts.Keys
  {
    hide Inv, RecoverJournals, RecoverReceipts, Healing, AllTerminal, OnDisk, Listing;
    var m := JournalsHeal(d, journals);
    HealedAll(d, m, journals);
    SweptHeals(m, receipts);
  }

  lemma UnlockedIsSettled(d: Disk)
    requires Inv(d) && d.lock.None?
    ensures SettledHead(d) && d.backups == map[]
  {
    hide JournalsOk, AuditOk, OrphansOk;
  }

  /** Recovery converges from there too: the second pass is the last that changes anything. */
  lemma UnlockedConverges(d: Disk, js: seq<RunId>, rs: seq<RunId>, js': seq<RunId>, rs': seq<RunId>,
                          js'': seq<RunId>, rs'': seq<RunId>)
    requires Inv(d) && d.lock.None? && Listing(js, OnDisk(d).journals.Keys) && Listing(rs, d.receipts.Keys)
    requires Listing(js', OnDisk(d).journals.Keys) && Listing(rs', d.receipts.Keys)
    ensures var settled := Pass(Pass(OnDisk(d), js, rs).0, js', rs').0;
            Pass(settled, js'', rs'').0 == settled
  {
    hide Inv, Pass, AllTerminal, AtRest, Listing, OnDisk;
    UnlockedPassHeals(d, js, rs);
    var e := Pass(OnDisk(d), js, rs).0;
    SecondPassRests(e, js', rs');
    RestIsFixed(Pass(e, js', rs').0, js'', rs'');
  }

  // ---------------------------------------------------- histories that go on

  /** Life after an orphaned swap.  Once a pass has run on the unlocked agent, any further
      history that releases no lock over an unfinished swap recovers like one from a fresh
      agent: base or target of the run under the lock, every journal closed.  The content
      the database names is live again exactly if it was so after that pass or the history
      has committed since. */
  lemma RecoversAfterwards(d: Disk, js: seq<RunId>, rs: seq<RunId>, more: seq<Op>, js': seq<RunId>, rs': seq<RunId>)
    requires Inv(d) && d.lock.None? && Listing(js, OnDisk(d).journals.Keys)
    requires Legal(more, Pass(OnDisk(d), js, rs).0) && (forall op <- more :: !op.ReleaseUnfinished?)
    requires var f := Exec(more, Pass(OnDisk(d), js, rs).0);
             Listing(js', f.journals.Keys) && Listing(rs', f.receipts.Keys)
    ensures var e := Pass(OnDisk(d), js, rs).0;
            var f := Exec(more, e);
            var g := Pass(f, js', rs').0;
            && f.orphans == map[] && OnDisk(f) == f && Recovered(f, g)
            && e.persistent.Some? && e.db.Some? && g.persistent.Some? && g.db.Some?
            && (g.persistent.value.versioned == g.db.value.live.versioned
                <==> e.persistent.value.versioned == e.db.value.live.versioned || exists op <- more :: op.CommitDatabase?)
  {
    hide Inv, Pass, Legal, Exec, AllTerminal, Listing, OnDisk, Recovered, Stale, Fate;
    UnlockedPassHeals(d, js, rs);
    var e := Pass(OnDisk(d), js, rs).0;
    var f := Exec(more, e);
    RunKeepsInv(more, e);
    OrphansOfRun(more, e);
    assert OnDisk(f) == f by { NoOrphanOnDisk(f); }
    FaithfulIff(more, e);
    PassRecovers(f, js', rs');
    RecoveredOutcome(f, Pass(f, js', rs').0);
    UnlockedOutcome(e);
  }

  lemma NoOrphanOnDisk(d: Disk)
    requires d.orphans == map[]
    ensures OnDisk(d) == d
  {
  }

  lemma RecoveredOutcome(d: Disk, e: Disk)
    requires Recovered(d, e)
    ensures e.persistent == Fate(d) && e.persistent.Some? && e.db == d.db && e.db.Some?
  {
    hide Fate, PastCommit, TerminalState, Swept, Visited;
    hide TreesOk, JournalsOk, OrphansOk, AuditOk;
  }

  lemma UnlockedOutcome(d: Disk)
    requires Inv(d) && d.lock.None?
    ensures d.persistent.Some? && d.db.Some? && Fate(d) == d.persistent
  {
    hide JournalsOk, AuditOk, OrphansOk;
  }
}
